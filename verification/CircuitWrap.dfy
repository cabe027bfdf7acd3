/** The bound of fewer than 2^64 events in the theorems about circuits is needed. */
module CircuitWrap {
  import opened Prelude
  import opened Circuit
  import opened CircuitProofs
  import opened CircuitActs

  /** A permit of generation zero that its owner keeps. */
  function Stale(t: string): Permit {
    Permit(0, 0, t, 0, ClosedPermit)
  }

  /** A run after which the target is closed in the given generation and the stale permit is live. */
  ghost predicate ClosedAt(policy: Policy, t: string, es: seq<Event>, generation: nat) {
    && ValidRun(policy, EMPTY, es)
    && var r := Exec(policy, EMPTY, es);
       t in r.circuits && r.circuits[t] == CircuitState(generation, Closed(0)) && Stale(t) in r.live
  }

  ghost predicate Prefix(a: seq<Event>, b: seq<Event>) {
    |a| <= |b| && b[..|a|] == a
  }

  /** One event more in a valid run. */
  lemma OneMore(policy: Policy, es: seq<Event>, e: Event) returns (longer: seq<Event>)
    requires ValidRun(policy, EMPTY, es) && Enabled(Exec(policy, EMPTY, es), e)
    ensures ValidRun(policy, EMPTY, longer) && Prefix(es, longer)
    ensures Exec(policy, EMPTY, longer) == Apply(policy, Exec(policy, EMPTY, es), e)
  {
    RunAppends(policy, es, e);
    longer := es + [e];
  }

  /** With a threshold of one, a failure opens the circuit and a probe after the cooldown closes it
      again: three generations further. */
  lemma {:induction false} Cycle(policy: Policy, t: string, es: seq<Event>, generation: nat) returns (longer: seq<Event>)
    requires policy.threshold == 1 && generation < GENERATIONS && ClosedAt(policy, t, es, generation)
    ensures ClosedAt(policy, t, longer, (generation + 3) % GENERATIONS) && Prefix(es, longer)
  {
    hide ValidRun, Exec;
    var r := Exec(policy, EMPTY, es);
    var p := Decide(r, 1, t, r.clock).permit;
    var es1 := OneMore(policy, es, Admit(1, t, r.clock));
    var es2 := OneMore(policy, es1, Complete(p, TransientFailure, r.clock));
    var r2 := Exec(policy, EMPTY, es2);
    assert r2.circuits[t] == CircuitState((generation + 1) % GENERATIONS, Open(r.clock + policy.cooldown));
    var later := r.clock + policy.cooldown;
    var q := Decide(r2, 1, t, later).permit;
    var es3 := OneMore(policy, es2, Admit(1, t, later));
    assert Exec(policy, EMPTY, es3).circuits[t] == CircuitState((generation + 2) % GENERATIONS, HalfOpen(true));
    longer := OneMore(policy, es3, Complete(q, Success, later));
    assert es3[..|es|] == es2[..|es1|][..|es|];
    assert longer[..|es|] == longer[..|es3|][..|es|];
  }

  lemma {:induction false} Cycles(policy: Policy, t: string, es: seq<Event>, generation: nat, n: nat) returns (longer: seq<Event>)
    requires policy.threshold == 1 && generation < GENERATIONS && ClosedAt(policy, t, es, generation)
    ensures ClosedAt(policy, t, longer, (generation + 3 * n) % GENERATIONS) && Prefix(es, longer)
    decreases n
  {
    hide ClosedAt;
    if n == 0 {
      longer := es;
    } else {
      var one := Cycle(policy, t, es, generation);
      longer := Cycles(policy, t, one, (generation + 3) % GENERATIONS, n - 1);
      assert longer[..|es|] == longer[..|one|][..|es|];
    }
  }

  /** Runs exist, for every cooldown and target, in which a kept permit is superseded, and later,
      after the generation counter has wrapped, is current again and its failure opens the circuit. */
  lemma {:induction false} WrapRevivesAPermit(cooldown: nat, t: string) returns (early: seq<Event>, late: seq<Event>)
    ensures var policy: Policy := Policy(1, cooldown);
            var before, after := Exec(policy, EMPTY, early), Exec(policy, EMPTY, late);
            && ValidRun(policy, EMPTY, early) && ValidRun(policy, EMPTY, late) && Prefix(early, late)
            && Stale(t) in before.live && !Current(before, Stale(t))
            && Stale(t) in after.live && Current(after, Stale(t))
            && At(after, t).phase.Closed?
            && At(Apply(policy, after, Complete(Stale(t), TransientFailure, after.clock)), t).phase.Open?
  {
    var policy: Policy := Policy(1, cooldown);
    var first := OneMore(policy, [], Admit(0, t, 0));
    assert Exec(policy, EMPTY, []) == EMPTY;
    assert ClosedAt(policy, t, first, 0);
    early := Cycles(policy, t, first, 0, 1);
    late := Cycles(policy, t, early, 3, GENERATIONS - 1);
  }
}
