/** The circuit map and its permits as the objects the program mutates.

    `registry.history` is the state of the transition system in `Circuit`; its `circuits` is the
    map itself.  Each method is one enabled event of that system, and `Valid` says that a run of
    such events led here, so everything proved of runs holds of any interleaving of calls. */
module CircuitRegistry {
  import opened Prelude
  import Circuit
  import opened CircuitActs

  datatype CircuitAdmission =
    | Allow(permit: CircuitPermit)
    | Reject(retryAfterMs: nat)
    | Probe(permit: CircuitPermit)

  class TargetCircuitRegistry {
    const policy: Circuit.Policy
    var circuits: map<string, Circuit.CircuitState>
    /** The map with its bookkeeping: who holds which permit. */
    var history: Circuit.Registry
    /** The calls so far. */
    ghost var events: seq<Circuit.Event>

    ghost predicate Valid()
      reads this
    {
      && history.circuits == circuits
      && Circuit.ValidRun(policy, Circuit.EMPTY, events)
      && Circuit.Exec(policy, Circuit.EMPTY, events) == history
    }

    constructor (failureThreshold: nat, cooldownMs: nat)
      requires failureThreshold <= U32_MAX
      ensures Valid() && history == Circuit.EMPTY && events == []
      ensures policy == Circuit.Policy(Max(failureThreshold, 1), Millis(cooldownMs))
    {
      policy := Circuit.Policy(Max(failureThreshold, 1), Millis(cooldownMs));
      circuits := map[];
      history := Circuit.EMPTY;
      events := [];
    }

    /** The event was enabled and is the latest one. */
    twostate predicate Happened(e: Circuit.Event)
      reads this
    {
      && Valid() && Circuit.Enabled(old(history), e)
      && history == Circuit.Apply(policy, old(history), e) && events == old(events) + [e]
    }

    /** Readiness inspection; it must not start a probe, so it admits nothing. */
    method TargetIsUsable(target: string) returns (usable: bool)
      requires Valid()
      ensures usable <==> Circuit.At(history, target).phase.Closed?
    {
      usable := target !in circuits || circuits[target].phase.Closed?;
    }

    /** `now` is the reading that decides, `later` the one the retry hint is computed from. */
    method Admit(owner: nat, target: string, now: nat, later: nat) returns (admission: CircuitAdmission)
      requires Valid() && history.clock <= now
      modifies this
      ensures Happened(Circuit.Admit(owner, target, now))
      ensures match Circuit.Decide(old(history), owner, target, now)
              case Rejected =>
                && admission.Reject?
                && var phase := Circuit.At(old(history), target).phase;
                   var wait := if phase.Open? then Since(phase.until, later) else policy.cooldown;
                   admission.retryAfterMs == Max(1, Min(wait / 1_000_000, 0xFFFF_FFFF_FFFF_FFFF))
              case Allowed(p) => admission.Allow? && fresh(admission.permit) && admission.permit.Held(this, p)
              case Probing(p) => admission.Probe? && fresh(admission.permit) && admission.permit.Held(this, p)
    {
      hide Circuit.ValidRun, Circuit.Exec;
      RunAppends(policy, events, Circuit.Admit(owner, target, now));
      var decision := Circuit.Decide(history, owner, target, now);
      var state := if target in circuits then circuits[target] else Circuit.FRESH;
      match state.phase {
        case Closed(_) =>
          var permit := new CircuitPermit(this, target, state.generation, Circuit.ClosedPermit, decision.permit);
          admission := Allow(permit);
        case Open(until) =>
          if now < until {
            admission := Reject(Max(WholeMillis(Since(until, later)), 1));
          } else {
            state := Circuit.StartProbe(state);
            var permit := new CircuitPermit(this, target, state.generation, Circuit.ProbePermit, decision.permit);
            admission := Probe(permit);
          }
        case HalfOpen(inFlight) =>
          if inFlight {
            admission := Reject(Max(WholeMillis(policy.cooldown), 1));
          } else {
            state := Circuit.StartProbe(state);
            var permit := new CircuitPermit(this, target, state.generation, Circuit.ProbePermit, decision.permit);
            admission := Probe(permit);
          }
      }
      circuits := circuits[target := state];
      history := Circuit.Apply(policy, history, Circuit.Admit(owner, target, now));
      events := events + [Circuit.Admit(owner, target, now)];
    }

    /** `complete`, called once from the settling of `token`. */
    method Complete(target: string, generation: nat, kind: Circuit.PermitKind, outcome: Circuit.Completion, now: nat, token: Circuit.Permit)
      requires Valid() && token in history.live && history.clock <= now
      requires token.target == target && token.generation == generation && token.kind == kind
      modifies this
      ensures Happened(Circuit.Complete(token, outcome, now))
    {
      hide Circuit.ValidRun, Circuit.Exec;
      RunAppends(policy, events, Circuit.Complete(token, outcome, now));
      history := Circuit.Apply(policy, history, Circuit.Complete(token, outcome, now));
      events := events + [Circuit.Complete(token, outcome, now)];
      if target !in circuits {
        return;
      }
      var state := circuits[target];
      if state.generation != generation {
        return;
      }
      match (kind, state.phase, outcome) {
        case (ClosedPermit, Closed(_), Success) =>
          state := state.(phase := Circuit.Closed(0));
        case (ClosedPermit, Closed(failures), TransientFailure) =>
          var next := Min(failures + 1, U32_MAX);
          if next >= policy.threshold {
            state := Circuit.SetOpen(policy, state, now);
          } else {
            state := state.(phase := Circuit.Closed(next));
          }
        case (ProbePermit, HalfOpen(_), Success) =>
          state := Circuit.CloseCircuit(state);
        case (ProbePermit, HalfOpen(_), Permanent) =>
          state := Circuit.CloseCircuit(state);
        case (ProbePermit, HalfOpen(_), TransientFailure) =>
          state := Circuit.SetOpen(policy, state, now);
        case _ =>
      }
      circuits := circuits[target := state];
    }

    /** `release_probe`, called from the drop of the unsettled probe `token`. */
    method ReleaseProbe(target: string, generation: nat, token: Circuit.Permit)
      requires Valid() && token in history.live
      requires token.target == target && token.generation == generation && token.kind.ProbePermit?
      modifies this
      ensures Happened(Circuit.Drop(token))
    {
      hide Circuit.ValidRun, Circuit.Exec;
      RunAppends(policy, events, Circuit.Drop(token));
      history := Circuit.Apply(policy, history, Circuit.Drop(token));
      events := events + [Circuit.Drop(token)];
      if target !in circuits {
        return;
      }
      var state := circuits[target];
      if state.generation != generation {
        return;
      }
      if state.phase.HalfOpen? {
        circuits := circuits[target := state.(phase := Circuit.HalfOpen(false))];
      }
    }

    /** An unsettled closed permit ceases to exist; nothing in the map changes. */
    method Forget(token: Circuit.Permit)
      requires Valid() && token in history.live && token.kind.ClosedPermit?
      modifies this
      ensures Happened(Circuit.Drop(token)) && circuits == old(circuits)
    {
      hide Circuit.ValidRun, Circuit.Exec;
      RunAppends(policy, events, Circuit.Drop(token));
      history := Circuit.Apply(policy, history, Circuit.Drop(token));
      events := events + [Circuit.Drop(token)];
    }

    /** One event that is not of `owner`, with clock readings up to `limit`. */
    predicate Foreign(e: Circuit.Event, owner: nat, limit: nat)
      reads this
    {
      && Owner(e) != owner && Circuit.Enabled(history, e)
      && (e.Admit? ==> e.now <= limit) && (e.Complete? ==> e.now <= limit)
    }

    method OtherEvent(e: Circuit.Event, owner: nat, limit: nat)
      requires Valid() && Foreign(e, owner, limit)
      modifies this
      ensures Happened(e)
    {
      match e {
        case Admit(other, target, now) => var _ := Admit(other, target, now, now);
        case Complete(p, outcome, now) => Complete(p.target, p.generation, p.kind, outcome, now, p);
        case Drop(p) =>
          if p.kind.ProbePermit? {
            ReleaseProbe(p.target, p.generation, p);
          } else {
            Forget(p);
          }
      }
    }

    /** Any calls by any other owners, in any number. */
    method Others(owner: nat, limit: nat)
      requires Valid() && history.clock <= limit
      modifies this
      ensures Valid() && history.clock <= limit
      ensures |old(events)| <= |events| && events[..|old(events)|] == old(events)
      ensures ActsBy(policy, events, owner) == old(ActsBy(policy, events, owner))
      ensures OwnLive(history, owner) == old(OwnLive(history, owner))
    {
      hide Circuit.ValidRun, Circuit.Exec, ActsBy, OwnLive;
      var n: nat :| true;
      while n > 0
        invariant Valid() && history.clock <= limit
        invariant |old(events)| <= |events| && events[..|old(events)|] == old(events)
        invariant ActsBy(policy, events, owner) == old(ActsBy(policy, events, owner))
        invariant OwnLive(history, owner) == old(OwnLive(history, owner))
      {
        var e: Circuit.Event :| true;
        if Foreign(e, owner, limit) {
          RunAppends(policy, events, e);
          OthersKeepMine(policy, history, e, owner);
          OtherEvent(e, owner, limit);
        }
        n := n - 1;
      }
    }
  }

  class CircuitPermit {
    const registry: TargetCircuitRegistry
    const target: string
    const generation: nat
    const kind: Circuit.PermitKind
    const token: Circuit.Permit
    var settled: bool
    /** Dropped: in the program the value no longer exists. */
    ghost var gone: bool

    ghost predicate Represents(registry: TargetCircuitRegistry, token: Circuit.Permit) {
      && this.registry == registry && this.token == token
      && target == token.target && generation == token.generation && kind == token.kind
    }

    /** A permit that can still act is a live one. */
    ghost predicate Valid()
      reads this, registry
    {
      && registry.Valid() && Represents(registry, token)
      && (!settled && !gone ==> token in registry.history.live)
    }

    /** A permit just admitted. */
    ghost predicate Held(registry: TargetCircuitRegistry, token: Circuit.Permit)
      reads this, registry, this.registry
    {
      Represents(registry, token) && Valid() && !settled && !gone
    }

    constructor (registry: TargetCircuitRegistry, target: string, generation: nat, kind: Circuit.PermitKind, token: Circuit.Permit)
      requires token.target == target && token.generation == generation && token.kind == kind
      ensures Represents(registry, token) && !settled && !gone
    {
      this.registry := registry;
      this.target := target;
      this.generation := generation;
      this.kind := kind;
      this.token := token;
      settled := false;
      gone := false;
    }

    /** A settled permit has no further effect. */
    method Settle(outcome: Circuit.Completion, now: nat)
      requires Valid() && !gone && registry.history.clock <= now
      modifies this`settled, registry
      ensures Valid() && settled
      ensures if old(settled) then registry.history == old(registry.history) && registry.events == old(registry.events)
              else registry.Happened(Circuit.Complete(token, outcome, now))
    {
      if settled {
        return;
      }
      settled := true;
      registry.Complete(target, generation, kind, outcome, now, token);
    }

    /** Dropping: only an unsettled probe reaches the map. */
    method Drop()
      requires Valid() && !gone
      modifies this`gone, registry
      ensures Valid() && gone
      ensures if settled then registry.history == old(registry.history) && registry.events == old(registry.events)
              else registry.Happened(Circuit.Drop(token))
    {
      gone := true;
      if !settled {
        if kind.ProbePermit? {
          registry.ReleaseProbe(target, generation, token);
        } else {
          registry.Forget(token);
        }
      }
    }

    /** `success`, `transient_failure` and `ignore_permanent` consume the permit: it is settled with
        its outcome and then dropped. */
    method Consume(outcome: Circuit.Completion, now: nat)
      requires Valid() && !gone && !settled && registry.history.clock <= now
      modifies this`settled, this`gone, registry
      ensures Valid() && gone && registry.Happened(Circuit.Complete(token, outcome, now))
    {
      Settle(outcome, now);
      Drop();
    }
  }
}
