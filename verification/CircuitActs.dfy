/** What one owner does in a run of the circuits, and the permits it holds. */
module CircuitActs {
  import opened Prelude
  import opened Circuit
  import opened CircuitProofs

  datatype Verdict = No | Yes(kind: PermitKind, ticket: nat)

  /** Asking for a target, and ending a permit by settling it with an outcome or by dropping it. */
  datatype Act = Ask(target: string, answer: Verdict) | End(ticket: nat, outcome: Option<Completion>)

  function Owner(e: Event): nat {
    match e
    case Admit(owner, _, _) => owner
    case Complete(p, _, _) => p.owner
    case Drop(p) => p.owner
  }

  function ActOf(r: Registry, e: Event): Act {
    match e
    case Admit(owner, target, now) =>
      (match Decide(r, owner, target, now)
       case Rejected => Ask(target, No)
       case Allowed(p) => Ask(target, Yes(p.kind, p.id))
       case Probing(p) => Ask(target, Yes(p.kind, p.id)))
    case Complete(p, outcome, _) => End(p.id, Some(outcome))
    case Drop(p) => End(p.id, None)
  }

  /** The actions of `owner` in the run `es` from `EMPTY`. */
  function ActsBy(policy: Policy, es: seq<Event>, owner: nat): seq<Act> {
    if es == [] then []
    else
      var before, e := es[..|es| - 1], es[|es| - 1];
      ActsBy(policy, before, owner) + (if Owner(e) == owner then [ActOf(Exec(policy, EMPTY, before), e)] else [])
  }

  /** The owner's permits that are neither settled nor dropped. */
  function OwnLive(r: Registry, owner: nat): set<Permit> {
    set p | p in r.live && p.owner == owner
  }

  lemma OwnsNone(r: Registry, owner: nat)
    requires OwnLive(r, owner) == {}
    ensures forall p :: p in r.live ==> p.owner != owner
  {
    assert forall p :: p in r.live && p.owner == owner ==> p in OwnLive(r, owner);
  }

  /** A run extended by one event. */
  lemma {:induction false} RunAppends(policy: Policy, es: seq<Event>, e: Event)
    requires ValidRun(policy, EMPTY, es) && Enabled(Exec(policy, EMPTY, es), e)
    ensures ValidRun(policy, EMPTY, es + [e])
    ensures Exec(policy, EMPTY, es + [e]) == Apply(policy, Exec(policy, EMPTY, es), e)
    ensures forall owner :: ActsBy(policy, es + [e], owner) ==
                            ActsBy(policy, es, owner) + (if Owner(e) == owner then [ActOf(Exec(policy, EMPTY, es), e)] else [])
  {
    RunSplits(policy, EMPTY, es + [e], |es|);
    assert (es + [e])[..|es|] == es && (es + [e])[|es|..] == [e];
    assert [e][1..] == [];
  }

  lemma {:induction false} RunStep(policy: Policy, es: seq<Event>)
    requires es != []
    ensures var before := Exec(policy, EMPTY, es[..|es| - 1]);
            && Exec(policy, EMPTY, es) == Apply(policy, before, es[|es| - 1])
            && (ValidRun(policy, EMPTY, es) ==> ValidRun(policy, EMPTY, es[..|es| - 1]) && Enabled(before, es[|es| - 1]))
  {
    RunSplits(policy, EMPTY, es, |es| - 1);
    var rest := es[|es| - 1..];
    assert rest == [es[|es| - 1]] && rest[1..] == [];
  }

  /** Other owners' events leave an owner's permits alone. */
  lemma {:induction false} OthersKeepMine(policy: Policy, r: Registry, e: Event, owner: nat)
    requires Owner(e) != owner
    ensures OwnLive(Apply(policy, r, e), owner) == OwnLive(r, owner)
  {
  }
}
