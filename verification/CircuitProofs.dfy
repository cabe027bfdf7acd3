/** Safety of the circuit registry over every interleaving. */
module CircuitProofs {
  import opened Prelude
  import opened Circuit

  // ----- the inductive invariant -------------------------------------------------------

  /** The kind of permit a generation in this phase issues; an open generation issues none. */
  predicate Matches(kind: PermitKind, phase: Phase) {
    match phase
    case Closed(_) => kind.ClosedPermit?
    case Open(_) => false
    case HalfOpen(_) => kind.ProbePermit?
  }

  ghost predicate PermitsAgree(r: Registry) {
    && r.live <= r.issued
    && (forall p :: p in r.issued ==> p.id < r.steps)
    && (forall p, q :: p in r.issued && q in r.issued && p.id == q.id ==> p == q)
    && (forall p :: p in r.issued ==> p.target in r.circuits && p.generation <= r.circuits[p.target].generation)
    && (forall p :: p in r.issued && Current(r, p) ==> Matches(p.kind, r.circuits[p.target].phase))
    && (forall p, q :: p in r.issued && q in r.issued && p.target == q.target && p.generation == q.generation ==> p.kind == q.kind)
  }

  /** `p` is an unsettled probe of the target's present half-open generation. */
  predicate OwnsProbe(r: Registry, p: Permit, target: string) {
    p in r.live && p.target == target && p.kind.ProbePermit? && Current(r, p)
  }

  ghost predicate ProbesAgree(r: Registry) {
    && (forall t :: t in r.circuits && r.circuits[t].phase == HalfOpen(true) ==> exists p :: OwnsProbe(r, p, t))
    && (forall p, t :: OwnsProbe(r, p, t) ==> r.circuits[t].phase == HalfOpen(true))
    && (forall p, q, t :: OwnsProbe(r, p, t) && OwnsProbe(r, q, t) ==> p == q)
  }

  ghost predicate StreaksAgree(policy: Policy, r: Registry) {
    && (forall i :: 0 <= i < |r.log| ==> r.log[i].target in r.circuits && r.log[i].generation <= r.circuits[r.log[i].target].generation)
    && (forall t :: t in r.circuits && r.circuits[t].phase.Closed? ==>
          r.circuits[t].phase.failures == Streak(r.log, t, r.circuits[t].generation) < policy.threshold)
  }

  /** No generation has advanced more often than there were events. */
  ghost predicate GenerationsAgree(r: Registry) {
    forall t :: t in r.circuits ==> r.circuits[t].generation <= r.steps
  }

  ghost predicate Inv(policy: Policy, r: Registry) {
    && GenerationsAgree(r)
    && PermitsAgree(r)
    && ProbesAgree(r)
    && StreaksAgree(policy, r)
  }

  lemma StreakOfUnused(log: seq<Applied>, t: string, g: nat)
    requires forall i :: 0 <= i < |log| ==> !(log[i].target == t && log[i].generation == g)
    ensures Streak(log, t, g) == 0
  {
    if log != [] {
      assert log[|log| - 1] == log[|log| - 1];
      StreakOfUnused(log[..|log| - 1], t, g);
    }
  }

  lemma StreakOfAppend(log: seq<Applied>, a: Applied, t: string, g: nat)
    ensures Streak(log + [a], t, g) ==
            if a.target != t || a.generation != g || a.outcome.Permanent? then Streak(log, t, g)
            else if a.outcome.Success? then 0 else Streak(log, t, g) + 1
  {
    assert (log + [a])[..|log|] == log;
  }

  /** The generation is below the wrap-around bound, so advancing it adds one. */
  ghost predicate Room(r: Registry) {
    r.steps + 1 < GENERATIONS
  }

  lemma {:induction false} AdmitKeepsPermits(policy: Policy, r: Registry, owner: nat, t: string, now: nat)
    requires Inv(policy, r) && Room(r)
    ensures PermitsAgree(Apply(policy, r, Admit(owner, t, now)))
  {
    hide ProbesAgree, StreaksAgree;
    var r' := Apply(policy, r, Admit(owner, t, now));
    var d := Decide(r, owner, t, now);
    assert r'.circuits[t].generation == At(r, t).generation + (if d.Probing? then 1 else 0);
    forall p, q | p in r'.issued && q in r'.issued && p.target == q.target && p.generation == q.generation
      ensures p.kind == q.kind
    {
    }
  }

  lemma {:induction false} AdmitKeepsProbes(policy: Policy, r: Registry, owner: nat, t: string, now: nat)
    requires Inv(policy, r) && Room(r)
    ensures ProbesAgree(Apply(policy, r, Admit(owner, t, now)))
  {
    hide StreaksAgree;
    var r' := Apply(policy, r, Admit(owner, t, now));
    var d := Decide(r, owner, t, now);
    forall p, u | OwnsProbe(r', p, u)
      ensures if u == t && d.Probing? then p == d.permit else OwnsProbe(r, p, u)
    {
    }
    forall u | u in r'.circuits && r'.circuits[u].phase == HalfOpen(true)
      ensures exists p :: OwnsProbe(r', p, u)
    {
      if u == t && d.Probing? {
        assert OwnsProbe(r', d.permit, u);
      } else {
        var p :| OwnsProbe(r, p, u);
        assert OwnsProbe(r', p, u);
      }
    }
  }

  lemma {:induction false} AdmitKeepsStreaks(policy: Policy, r: Registry, owner: nat, t: string, now: nat)
    requires Inv(policy, r) && Room(r)
    ensures StreaksAgree(policy, Apply(policy, r, Admit(owner, t, now)))
  {
    hide PermitsAgree, ProbesAgree;
    if t !in r.circuits {
      StreakOfUnused(r.log, t, 0);
    }
  }

  /** Completing or dropping `p` touches its target only while `p` is current, and then only to a
      phase of the same generation or to the next generation. */
  lemma {:induction false} CompleteKeepsPermits(policy: Policy, r: Registry, p: Permit, o: Completion, now: nat)
    requires Inv(policy, r) && Room(r) && p in r.live
    ensures PermitsAgree(Apply(policy, r, Complete(p, o, now)))
  {
    hide ProbesAgree, StreaksAgree;
  }

  lemma {:induction false} CompleteKeepsProbes(policy: Policy, r: Registry, p: Permit, o: Completion, now: nat)
    requires Inv(policy, r) && Room(r) && p in r.live
    ensures ProbesAgree(Apply(policy, r, Complete(p, o, now)))
  {
    hide StreaksAgree;
    var r' := Apply(policy, r, Complete(p, o, now));
    forall q, u | OwnsProbe(r', q, u)
      ensures OwnsProbe(r, q, u)
    {
    }
    forall u | u in r'.circuits && r'.circuits[u].phase == HalfOpen(true)
      ensures exists q :: OwnsProbe(r', q, u)
    {
      var q :| OwnsProbe(r, q, u);
      assert OwnsProbe(r', q, u);
    }
  }

  lemma {:induction false} CompleteKeepsStreaks(policy: Policy, r: Registry, p: Permit, o: Completion, now: nat)
    requires Inv(policy, r) && Room(r) && p in r.live
    ensures StreaksAgree(policy, Apply(policy, r, Complete(p, o, now)))
  {
    if Current(r, p) {
      var r' := Apply(policy, r, Complete(p, o, now));
      var a := Applied(p.target, p.generation, o);
      forall t | t in r'.circuits && r'.circuits[t].phase.Closed?
        ensures r'.circuits[t].phase.failures == Streak(r'.log, t, r'.circuits[t].generation) < policy.threshold
      {
        StreakOfAppend(r.log, a, t, r'.circuits[t].generation);
        if r'.circuits[t].generation == r.steps + 1 || r'.circuits[t].generation != r.circuits[t].generation {
          StreakOfUnused(r.log, t, r'.circuits[t].generation);
        }
      }
    }
  }

  lemma {:induction false} DropKeepsPermits(policy: Policy, r: Registry, p: Permit)
    requires Inv(policy, r) && Room(r) && p in r.live
    ensures PermitsAgree(Apply(policy, r, Drop(p)))
    ensures StreaksAgree(policy, Apply(policy, r, Drop(p)))
  {
  }

  lemma {:induction false} DropKeepsProbes(policy: Policy, r: Registry, p: Permit)
    requires Inv(policy, r) && Room(r) && p in r.live
    ensures ProbesAgree(Apply(policy, r, Drop(p)))
  {
    var r' := Apply(policy, r, Drop(p));
    forall q, u | OwnsProbe(r', q, u)
      ensures OwnsProbe(r, q, u) && r'.circuits[u].phase == HalfOpen(true)
    {
      assert OwnsProbe(r, q, u);
      if u == p.target && p.kind.ProbePermit? && Current(r, p) {
        assert OwnsProbe(r, p, u);
      }
    }
    forall u | u in r'.circuits && r'.circuits[u].phase == HalfOpen(true)
      ensures exists q :: OwnsProbe(r', q, u)
    {
      var q :| OwnsProbe(r, q, u);
      assert OwnsProbe(r', q, u);
    }
  }

  lemma {:induction false} StepKeepsGenerations(policy: Policy, r: Registry, e: Event)
    requires GenerationsAgree(r) && Room(r)
    ensures GenerationsAgree(Apply(policy, r, e))
  {
  }

  lemma {:induction false} StepKeepsInv(policy: Policy, r: Registry, e: Event)
    requires Inv(policy, r) && Room(r) && Enabled(r, e)
    ensures Inv(policy, Apply(policy, r, e))
  {
    var r' := Apply(policy, r, e);
    StepKeepsGenerations(policy, r, e);
    assert PermitsAgree(r') && ProbesAgree(r') && StreaksAgree(policy, r') by {
      match e
      case Admit(owner, t, now) =>
        AdmitKeepsPermits(policy, r, owner, t, now);
        AdmitKeepsProbes(policy, r, owner, t, now);
        AdmitKeepsStreaks(policy, r, owner, t, now);
      case Complete(p, o, now) =>
        CompleteKeepsPermits(policy, r, p, o, now);
        CompleteKeepsProbes(policy, r, p, o, now);
        CompleteKeepsStreaks(policy, r, p, o, now);
      case Drop(p) =>
        DropKeepsPermits(policy, r, p);
        DropKeepsProbes(policy, r, p);
    }
  }

  /** The invariant holds after every interleaving of fewer than 2^64 events. */
  lemma {:induction false} RunKeepsInv(policy: Policy, r: Registry, es: seq<Event>)
    requires Inv(policy, r) && ValidRun(policy, r, es) && r.steps + |es| < GENERATIONS
    ensures Inv(policy, Exec(policy, r, es)) && Exec(policy, r, es).steps == r.steps + |es|
    decreases |es|
  {
    if es != [] {
      StepKeepsInv(policy, r, es[0]);
      RunKeepsInv(policy, Apply(policy, r, es[0]), es[1..]);
    }
  }

  // ----- splitting runs ----------------------------------------------------------------

  lemma {:induction false} RunSplits(policy: Policy, r: Registry, es: seq<Event>, k: nat)
    requires k <= |es|
    ensures Exec(policy, r, es) == Exec(policy, Exec(policy, r, es[..k]), es[k..])
    ensures ValidRun(policy, r, es) <==> ValidRun(policy, r, es[..k]) && ValidRun(policy, Exec(policy, r, es[..k]), es[k..])
    decreases k
  {
    if k == 0 {
      assert es[..0] == [] && es[0..] == es;
    } else {
      RunSplits(policy, Apply(policy, r, es[0]), es[1..], k - 1);
      assert es[..k][1..] == es[1..][..k - 1] && es[1..][k - 1..] == es[k..];
    }
  }

  /** A registry state some interleaving of fewer than 2^64 events leads to. */
  ghost predicate Reachable(policy: Policy, r: Registry) {
    exists es :: ValidRun(policy, EMPTY, es) && |es| < GENERATIONS && Exec(policy, EMPTY, es) == r
  }

  lemma {:induction false} ReachableInv(policy: Policy, r: Registry)
    requires Reachable(policy, r)
    ensures Inv(policy, r)
  {
    var es :| ValidRun(policy, EMPTY, es) && |es| < GENERATIONS && Exec(policy, EMPTY, es) == r;
    RunKeepsInv(policy, EMPTY, es);
  }

  // ----- what the invariant gives ------------------------------------------------------

  /** A target is probing exactly when one unsettled probe permit of its present generation
      exists, so two probes are never in flight and none is lost. */
  lemma {:induction false} OneProbeInFlight(policy: Policy, r: Registry, t: string)
    requires Reachable(policy, r)
    ensures At(r, t).phase == HalfOpen(true) <==> exists p :: OwnsProbe(r, p, t)
    ensures forall p, q :: OwnsProbe(r, p, t) && OwnsProbe(r, q, t) ==> p == q
  {
    ReachableInv(policy, r);
  }

  /** An admission is refused exactly while the target is open and cooling down, or while a live
      probe owns it; with no live probe, an admission at or after the cooldown succeeds. */
  lemma {:induction false} RefusedExactly(policy: Policy, r: Registry, owner: nat, t: string, now: nat)
    requires Reachable(policy, r)
    ensures Decide(r, owner, t, now).Rejected? <==>
            || (At(r, t).phase.Open? && now < At(r, t).phase.until)
            || exists p :: OwnsProbe(r, p, t)
  {
    OneProbeInFlight(policy, r, t);
  }

  /** Only a permit of the present generation, of the kind that generation issues, can change any
      circuit when it is settled or dropped, and never one that is open. */
  lemma {:induction false} OnlyCurrentOwnerActs(policy: Policy, r: Registry, e: Event)
    requires Reachable(policy, r) && Enabled(r, e) && !e.Admit?
    requires Apply(policy, r, e).circuits != r.circuits
    ensures Current(r, e.permit) && Matches(e.permit.kind, At(r, e.permit.target).phase)
    ensures !At(r, e.permit.target).phase.Open?
  {
    ReachableInv(policy, r);
  }

  /** A step on one target leaves every other target as it was. */
  lemma {:induction false} OtherTargetsUntouched(policy: Policy, r: Registry, e: Event, u: string)
    requires u != Target(e)
    ensures At(Apply(policy, r, e), u) == At(r, u)
    ensures u in Apply(policy, r, e).circuits <==> u in r.circuits
  {
  }

  predicate SameKind(a: Phase, b: Phase) {
    a.Closed? == b.Closed? && a.Open? == b.Open?
  }

  lemma {:induction false} StepAdvances(policy: Policy, r: Registry, e: Event, t: string)
    requires Inv(policy, r) && Room(r) && Enabled(r, e)
    ensures At(r, t).generation <= At(Apply(policy, r, e), t).generation
    ensures At(r, t).generation == At(Apply(policy, r, e), t).generation ==>
              SameKind(At(r, t).phase, At(Apply(policy, r, e), t).phase)
    ensures r.issued <= Apply(policy, r, e).issued && r.clock <= Apply(policy, r, e).clock
    ensures t in r.circuits ==> t in Apply(policy, r, e).circuits
  {
  }

  /** Along a run generations never decrease and a generation keeps its phase kind. */
  lemma {:induction false} RunAdvances(policy: Policy, r: Registry, es: seq<Event>, t: string)
    requires Inv(policy, r) && ValidRun(policy, r, es) && r.steps + |es| < GENERATIONS
    ensures var r' := Exec(policy, r, es);
            && At(r, t).generation <= At(r', t).generation
            && (At(r, t).generation == At(r', t).generation ==> SameKind(At(r, t).phase, At(r', t).phase))
            && r.issued <= r'.issued && r.clock <= r'.clock
            && (t in r.circuits ==> t in r'.circuits)
    decreases |es|
  {
    if es != [] {
      StepAdvances(policy, r, es[0], t);
      StepKeepsInv(policy, r, es[0]);
      RunAdvances(policy, Apply(policy, r, es[0]), es[1..], t);
    }
  }

  /** Each generation has one phase kind for its whole life, and all permits it ever issues are
      of one kind. */
  lemma {:induction false} OneKindPerGeneration(policy: Policy, es: seq<Event>, i: nat, j: nat, t: string)
    requires ValidRun(policy, EMPTY, es) && |es| < GENERATIONS && i <= j <= |es|
    ensures var a, b := Exec(policy, EMPTY, es[..i]), Exec(policy, EMPTY, es[..j]);
            && At(a, t).generation <= At(b, t).generation
            && (At(a, t).generation == At(b, t).generation ==>
                  (At(a, t).phase.Closed? <==> At(b, t).phase.Closed?) && (At(a, t).phase.Open? <==> At(b, t).phase.Open?))
            && (forall p, q :: p in a.issued && q in b.issued && p.target == q.target && p.generation == q.generation ==>
                  p.kind == q.kind)
  {
    RunSplits(policy, EMPTY, es, j);
    RunSplits(policy, EMPTY, es[..j], i);
    assert es[..j][..i] == es[..i];
    RunKeepsInv(policy, EMPTY, es[..i]);
    RunKeepsInv(policy, EMPTY, es[..j]);
    RunAdvances(policy, Exec(policy, EMPTY, es[..i]), es[..j][i..], t);
  }

  /** Once a permit's generation is superseded, settling or dropping it at any later moment
      leaves the whole map unchanged. */
  lemma {:induction false} SupersededForever(policy: Policy, r: Registry, p: Permit, es: seq<Event>, o: Completion, now: nat)
    requires Inv(policy, r) && ValidRun(policy, r, es) && r.steps + |es| < GENERATIONS
    requires p in r.issued && !Current(r, p)
    ensures var later := Exec(policy, r, es);
            && Apply(policy, later, Complete(p, o, now)).circuits == later.circuits
            && Apply(policy, later, Drop(p)).circuits == later.circuits
  {
    RunAdvances(policy, r, es, p.target);
  }

  // ----- cooldown ----------------------------------------------------------------------

  lemma {:induction false} StaysOpen(policy: Policy, r: Registry, es: seq<Event>, t: string)
    requires Inv(policy, r) && ValidRun(policy, r, es) && r.steps + |es| < GENERATIONS
    requires At(r, t).phase.Open? && Exec(policy, r, es).clock < At(r, t).phase.until
    ensures At(Exec(policy, r, es), t) == At(r, t)
    decreases |es|
  {
    if es != [] {
      var r1 := Apply(policy, r, es[0]);
      StepKeepsInv(policy, r, es[0]);
      RunAdvances(policy, r1, es[1..], t);
      assert At(r1, t) == At(r, t);
      StaysOpen(policy, r1, es[1..], t);
    }
  }

  /** After an event opens a target, every admission on it before the cooldown has passed is
      refused, whatever other admissions, completions and drops happen in between. */
  lemma {:induction false} OpenUntilCooldown(policy: Policy, r: Registry, opening: Event, es: seq<Event>, k: nat, t: string)
    requires Reachable(policy, r) && Enabled(r, opening) && r.steps + 1 + |es| < GENERATIONS
    requires !At(r, t).phase.Open? && At(Apply(policy, r, opening), t).phase.Open?
    requires ValidRun(policy, Apply(policy, r, opening), es) && k < |es|
    requires es[k].Admit? && es[k].target == t
    requires es[k].now < Apply(policy, r, opening).clock + policy.cooldown
    ensures Decide(Exec(policy, Apply(policy, r, opening), es[..k]), es[k].owner, t, es[k].now).Rejected?
  {
    hide PermitsAgree, ProbesAgree, StreaksAgree, GenerationsAgree;
    ReachableInv(policy, r);
    StepKeepsInv(policy, r, opening);
    var r1 := Apply(policy, r, opening);
    assert At(r1, t).phase.until == r1.clock + policy.cooldown;
    RunSplits(policy, r1, es, k);
    assert Enabled(Exec(policy, r1, es[..k]), es[k..][0]);
    StaysOpen(policy, r1, es[..k], t);
  }

  // ----- counting failures -------------------------------------------------------------

  /** The failure count of a closed circuit is the trailing run of transient failures its
      generation has seen, and it is below the threshold. */
  lemma {:induction false} FailuresAreTheStreak(policy: Policy, r: Registry, t: string)
    requires Reachable(policy, r)
    requires At(r, t).phase.Closed?
    ensures At(r, t).phase.failures == Streak(r.log, t, At(r, t).generation) < policy.threshold
  {
    ReachableInv(policy, r);
    if t !in r.circuits {
      StreakOfUnused(r.log, t, 0);
    }
  }

  /** A closed circuit opens exactly when a completion of its own generation brings the trailing
      run of transient failures to the threshold. */
  lemma {:induction false} OpensAtThreshold(policy: Policy, r: Registry, e: Event, t: string)
    requires Reachable(policy, r) && Room(r) && Enabled(r, e) && At(r, t).phase.Closed?
    ensures var r' := Apply(policy, r, e);
            At(r', t).phase.Open? <==> Streak(r'.log, t, At(r, t).generation) == policy.threshold
  {
    ReachableInv(policy, r);
    FailuresAreTheStreak(policy, r, t);
    match e
    case Admit(_, _, _) =>
      assert At(Apply(policy, r, e), t) == At(r, t);
    case Complete(p, o, now) =>
      CompletionMovesTheStreak(policy, r, p, o, now, t);
    case Drop(_) =>
      assert At(Apply(policy, r, e), t) == At(r, t);
  }

  lemma {:induction false} CompletionMovesTheStreak(policy: Policy, r: Registry, p: Permit, o: Completion, now: nat, t: string)
    requires Inv(policy, r) && p in r.live && At(r, t).phase.Closed?
    requires At(r, t).phase.failures == Streak(r.log, t, At(r, t).generation) < policy.threshold
    ensures var r' := Apply(policy, r, Complete(p, o, now));
            At(r', t).phase.Open? <==> Streak(r'.log, t, At(r, t).generation) == policy.threshold
  {
    if Current(r, p) {
      StreakOfAppend(r.log, Applied(p.target, p.generation, o), t, At(r, t).generation);
    }
  }

  // ----- what each event does to its target --------------------------------------------

  /** A closed target admits everyone in its present state.  An open one whose cooldown is over, or a
      half-open one without a probe in flight, admits one probe and is then probing in a new
      generation.  A refusal changes nothing. */
  lemma {:induction false} AdmissionByPhase(policy: Policy, r: Registry, owner: nat, t: string, now: nat)
    requires Reachable(policy, r) && r.steps + 1 < GENERATIONS && r.clock <= now
    ensures var c, c', d := At(r, t), At(Apply(policy, r, Admit(owner, t, now)), t), Decide(r, owner, t, now);
            match c.phase
            case Closed(_) =>
              d.Allowed? && d.permit.kind == ClosedPermit && d.permit.generation == c.generation && c' == c
            case Open(until) =>
              if now < until then d.Rejected? && c' == c
              else d.Probing? && d.permit.kind == ProbePermit && c' == CircuitState(c.generation + 1, HalfOpen(true)) && d.permit.generation == c'.generation
            case HalfOpen(inFlight) =>
              if inFlight then d.Rejected? && c' == c
              else d.Probing? && d.permit.kind == ProbePermit && c' == CircuitState(c.generation + 1, HalfOpen(true)) && d.permit.generation == c'.generation
    ensures var d := Decide(r, owner, t, now);
            !d.Rejected? ==> d.permit.target == t && d.permit.owner == owner && d.permit in Apply(policy, r, Admit(owner, t, now)).live
  {
    hide Reachable, PermitsAgree, ProbesAgree, StreaksAgree;
    ReachableInv(policy, r);
  }

  /** The owned probe decides: a transient failure reopens its target for a whole cooldown, a success
      or a permanent error closes it without failures, and dropping it leaves the target half-open
      for the next probe. */
  lemma {:induction false} ProbeDecides(policy: Policy, r: Registry, p: Permit, t: string, now: nat)
    requires Reachable(policy, r) && r.steps + 1 < GENERATIONS && r.clock <= now
    requires p in r.live && p.target == t && p.kind == ProbePermit && p.generation == At(r, t).generation
    ensures var next := At(r, t).generation + 1;
            && At(Apply(policy, r, Complete(p, TransientFailure, now)), t) == CircuitState(next, Open(now + policy.cooldown))
            && At(Apply(policy, r, Complete(p, Success, now)), t) == CircuitState(next, Closed(0))
            && At(Apply(policy, r, Complete(p, Permanent, now)), t) == CircuitState(next, Closed(0))
            && At(Apply(policy, r, Drop(p)), t) == CircuitState(At(r, t).generation, HalfOpen(false))
  {
    hide Reachable;
    ReachableInv(policy, r);
    assert OwnsProbe(r, p, t);
  }

  /** A permit of a closed target's own generation: success clears the failures, a permanent error
      and a drop leave them, and a transient failure adds one or opens the target for a whole cooldown. */
  lemma {:induction false} ClosedPermitCounts(policy: Policy, r: Registry, p: Permit, t: string, now: nat)
    requires Reachable(policy, r) && r.steps + 1 < GENERATIONS && r.clock <= now
    requires p in r.live && p.target == t && At(r, t).phase.Closed? && p.generation == At(r, t).generation
    ensures var c := At(r, t);
            && At(Apply(policy, r, Complete(p, Success, now)), t) == CircuitState(c.generation, Closed(0))
            && At(Apply(policy, r, Complete(p, Permanent, now)), t) == c
            && At(Apply(policy, r, Drop(p)), t) == c
            && At(Apply(policy, r, Complete(p, TransientFailure, now)), t) ==
               (if c.phase.failures + 1 < policy.threshold then CircuitState(c.generation, Closed(c.phase.failures + 1))
                else CircuitState(c.generation + 1, Open(now + policy.cooldown)))
  {
    hide Reachable;
    ReachableInv(policy, r);
  }

  /** A success or permanent completion of the target's owned probe. */
  predicate ClosesByProbe(r: Registry, e: Event, t: string) {
    && e.Complete? && e.permit in r.live && e.permit.target == t && e.permit.kind == ProbePermit
    && e.permit.generation == At(r, t).generation && At(r, t).phase == HalfOpen(true)
    && (e.outcome == Success || e.outcome == Permanent)
  }

  lemma {:induction false} StepClosesByProbe(policy: Policy, r: Registry, e: Event, t: string)
    requires Inv(policy, r) && Room(r) && Enabled(r, e)
    requires !At(r, t).phase.Closed? && At(Apply(policy, r, e), t).phase.Closed?
    ensures ClosesByProbe(r, e, t)
  {
    if e.Complete? && e.permit.target == t && e.permit.kind.ProbePermit? && Current(r, e.permit) {
      assert OwnsProbe(r, e.permit, t);
    }
  }

  /** Over runs: a target that is not closed is closed again only by a success or a permanent error
      of a probe of that target which owns it. */
  lemma {:induction false} RecloseNeedsAProbe(policy: Policy, r: Registry, es: seq<Event>, t: string) returns (k: nat)
    requires Inv(policy, r) && ValidRun(policy, r, es) && r.steps + |es| < GENERATIONS
    requires !At(r, t).phase.Closed? && At(Exec(policy, r, es), t).phase.Closed?
    ensures k < |es| && ClosesByProbe(Exec(policy, r, es[..k]), es[k], t)
    decreases |es|
  {
    hide Inv, Apply, Enabled, At, ClosesByProbe;
    var r1 := Apply(policy, r, es[0]);
    if At(r1, t).phase.Closed? {
      StepClosesByProbe(policy, r, es[0], t);
      k := 0;
      assert es[..0] == [];
    } else {
      StepKeepsInv(policy, r, es[0]);
      StepsAdd(policy, r, es[0]);
      var j := RecloseNeedsAProbe(policy, r1, es[1..], t);
      k := j + 1;
      assert es[..k][1..] == es[1..][..j] && es[k] == es[1..][j];
    }
  }

  lemma StepsAdd(policy: Policy, r: Registry, e: Event)
    ensures Apply(policy, r, e).steps == r.steps + 1
  {
  }

  lemma SliceOfSlice(es: seq<Event>, i: nat, j: nat, n: nat)
    requires i + n < j <= |es|
    ensures es[..i + n][..i] == es[..i] && es[..i + n][i..] == es[..j][i..][..n]
    ensures es[i + n] == es[..j][i..][n]
  {
  }

  lemma EmptyIsSound(policy: Policy)
    ensures Inv(policy, EMPTY)
  {
  }

  /** In every interleaving: between a moment at which a target is open or half-open and a later one at
      which it is closed, a probe that owned it completed with success or a permanent error. */
  lemma {:induction false} ReclosedOnlyByAProbe(policy: Policy, es: seq<Event>, i: nat, j: nat, t: string) returns (k: nat)
    requires ValidRun(policy, EMPTY, es) && |es| < GENERATIONS && i <= j <= |es|
    requires !At(Exec(policy, EMPTY, es[..i]), t).phase.Closed? && At(Exec(policy, EMPTY, es[..j]), t).phase.Closed?
    ensures i <= k < j && es[k].Complete? && es[k].permit.target == t && es[k].permit.kind == ProbePermit
    ensures es[k].outcome == Success || es[k].outcome == Permanent
    ensures var r := Exec(policy, EMPTY, es[..k]);
            At(r, t).phase == HalfOpen(true) && es[k].permit in r.live && es[k].permit.generation == At(r, t).generation
  {
    hide ValidRun, Exec, Inv;
    EmptyIsSound(policy);
    RunSplits(policy, EMPTY, es, j);
    RunSplits(policy, EMPTY, es[..j], i);
    assert es[..j][..i] == es[..i];
    RunKeepsInv(policy, EMPTY, es[..i]);
    var r := Exec(policy, EMPTY, es[..i]);
    var n := RecloseNeedsAProbe(policy, r, es[..j][i..], t);
    k := i + n;
    RunSplits(policy, EMPTY, es[..k], i);
    SliceOfSlice(es, i, j, n);
  }
}
