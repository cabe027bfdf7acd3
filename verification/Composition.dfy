/** Requests and circuits together.

    Any number of requests share one registry.  `Execute` leaves its owner without a live permit and
    with a history whose hops tell everything the owner did to the circuits; here is what follows
    for runs of the registry in which the events of many owners are interleaved. */
module Composition {
  import opened Prelude
  import opened Circuit
  import opened CircuitProofs
  import opened CircuitActs
  import opened ExecutorModel
  import ExecutorProofs

  // ----- permits held ------------------------------------------------------------------

  function HeldAfter(held: set<nat>, a: Act): set<nat> {
    match a
    case Ask(_, No) => held
    case Ask(_, Yes(_, ticket)) => held + {ticket}
    case End(ticket, _) => held - {ticket}
  }

  /** Tickets asked for and not ended. */
  function Held(acts: seq<Act>): set<nat> {
    if acts == [] then {} else HeldAfter(Held(acts[..|acts| - 1]), acts[|acts| - 1])
  }

  lemma HeldAppend(acts: seq<Act>, a: Act)
    ensures Held(acts + [a]) == HeldAfter(Held(acts), a)
  {
    assert (acts + [a])[..|acts|] == acts;
  }

  function LiveTickets(r: Registry, owner: nat): set<nat> {
    set p | p in r.live && p.owner == owner :: p.id
  }

  /** A request's live permits are the tickets its actions hold. */
  lemma {:induction false} LiveIsHeld(policy: Policy, es: seq<Event>, owner: nat)
    requires ValidRun(policy, EMPTY, es) && |es| < GENERATIONS
    ensures LiveTickets(Exec(policy, EMPTY, es), owner) == Held(ActsBy(policy, es, owner))
    decreases |es|
  {
    if es != [] {
      var before, e := es[..|es| - 1], es[|es| - 1];
      RunStep(policy, es);
      LiveIsHeld(policy, before, owner);
      RunKeepsInv(policy, EMPTY, before);
      var r := Exec(policy, EMPTY, before);
      LiveMoves(policy, r, e, owner);
      if Owner(e) == owner {
        HeldAppend(ActsBy(policy, before, owner), ActOf(r, e));
        assert ActsBy(policy, es, owner) == ActsBy(policy, before, owner) + [ActOf(r, e)];
      } else {
        assert ActsBy(policy, es, owner) == ActsBy(policy, before, owner);
      }
    }
  }

  lemma {:induction false} LiveMoves(policy: Policy, r: Registry, e: Event, owner: nat)
    requires Inv(policy, r) && Enabled(r, e)
    ensures LiveTickets(Apply(policy, r, e), owner) ==
            if Owner(e) == owner then HeldAfter(LiveTickets(r, owner), ActOf(r, e)) else LiveTickets(r, owner)
  {
    var r' := Apply(policy, r, e);
    match e
    case Admit(o, t, n) =>
      var granted := Issues(Decide(r, o, t, n));
      assert r'.live == r.live + granted;
      if granted != {} {
        var p := Decide(r, o, t, n).permit;
        assert granted == {p} && p.owner == o;
        assert p in r'.live;
      }
    case Complete(p, _, _) =>
      assert r'.live == r.live - {p};
      Removal(r, r', p, owner);
    case Drop(p) =>
      assert r'.live == r.live - {p};
      Removal(r, r', p, owner);
  }

  lemma Removal(r: Registry, r': Registry, p: Permit, owner: nat)
    requires PermitsAgree(r) && p in r.live && r'.live == r.live - {p}
    ensures LiveTickets(r', owner) == LiveTickets(r, owner) - (if p.owner == owner then {p.id} else {})
  {
    forall q | q in r.live && q.owner == owner && q != p
      ensures q.id in LiveTickets(r', owner) && q.id != p.id
    {
      assert q in r'.live;
    }
  }

  // ----- one request's history ---------------------------------------------------------

  /** Every granted hop settled or dropped its permit. */
  predicate EndsItsPermits(hops: seq<Hop>) {
    forall i :: 0 <= i < |hops| && hops[i].admission.Granted? ==> !hops[i].settlement.NoPermit?
  }

  lemma LegalEndsItsPermits(run: ExecutorProofs.Run)
    requires ExecutorProofs.Legal(run)
    ensures EndsItsPermits(run.log.hops)
  {
    hide ExecutorProofs.Legal;
    forall i | 0 <= i < |run.log.hops| && run.log.hops[i].admission.Granted?
      ensures !run.log.hops[i].settlement.NoPermit?
    {
      ExecutorProofs.HopIsGood(run, i);
    }
  }

  /** The ticket a hop still holds when it is over. */
  function KeptBy(h: Hop): set<nat> {
    if h.admission.Granted? && h.settlement.NoPermit? then {h.admission.ticket} else {}
  }

  /** The actions of a hop are an ask, and an end unless it keeps the permit. */
  lemma HopActsShape(h: Hop)
    ensures 1 <= |HopActs(h)| <= 2 && HopActs(h)[0].Ask?
    ensures |HopActs(h)| == 1 ==> HeldAfter({}, HopActs(h)[0]) == KeptBy(h)
    ensures |HopActs(h)| == 2 ==> HeldAfter(HeldAfter({}, HopActs(h)[0]), HopActs(h)[1]) == {} == KeptBy(h)
  {
  }

  lemma AskHoldsOne(a: Act)
    requires a.Ask?
    ensures |HeldAfter({}, a)| <= 1
  {
    if a.answer.Yes? {
      assert HeldAfter({}, a) == {a.answer.ticket};
    }
  }

  lemma {:induction false} HopHolds(acts: seq<Act>, h: Hop, k: nat)
    requires Held(acts) == {} && k <= |HopActs(h)|
    ensures Held(acts + HopActs(h)) == KeptBy(h)
    ensures KeptBy(h) == {} ==> |Held(acts + HopActs(h)[..k])| <= 1
  {
    hide HopActs, HeldAfter, Held, KeptBy;
    HopActsShape(h);
    var all := HopActs(h);
    AskHoldsOne(all[0]);
    HeldAppend(acts, all[0]);
    assert acts + all[..0] == acts && acts + all[..1] == acts + [all[0]];
    if |all| == 1 {
      assert acts + all == acts + [all[0]] && all[..1] == all;
    } else {
      HeldAppend(acts + [all[0]], all[1]);
      assert acts + all == acts + [all[0]] + [all[1]] && all[..2] == all;
    }
  }

  lemma ActsStep(hops: seq<Hop>)
    requires hops != []
    ensures ActsOf(hops) == ActsOf(hops[..|hops| - 1]) + HopActs(hops[|hops| - 1])
  {
  }

  /** A history that ends its permits holds nothing in the end, and never more than one. */
  lemma {:induction false} HistoryHoldsNothing(hops: seq<Hop>, k: nat)
    requires EndsItsPermits(hops) && k <= |ActsOf(hops)|
    ensures Held(ActsOf(hops)) == {} && |Held(ActsOf(hops)[..k])| <= 1
    decreases |hops|
  {
    if hops == [] {
      assert ActsOf(hops) == [] && ActsOf(hops)[..k] == [];
    } else {
      hide ActsOf, HopActs, Held;
      var before, h := hops[..|hops| - 1], hops[|hops| - 1];
      ActsStep(hops);
      var acts := ActsOf(before);
      HistoryHoldsNothing(before, if k <= |acts| then k else 0);
      HopHolds(acts, h, if k <= |acts| then 0 else k - |acts|);
      if k <= |acts| {
        assert ActsOf(hops)[..k] == acts[..k];
      } else {
        assert ActsOf(hops)[..k] == acts + HopActs(h)[..k - |acts|];
      }
    }
  }

  /** While a request runs it holds at most one permit, whatever part of its actions is done. */
  lemma {:induction false} OnePermitAtATime(run: ExecutorProofs.Run, k: nat)
    requires ExecutorProofs.Legal(run) && k <= |ActsOf(run.log.hops)|
    ensures |Held(ActsOf(run.log.hops)[..k])| <= 1
  {
    hide ExecutorProofs.Legal;
    LegalEndsItsPermits(run);
    HistoryHoldsNothing(run.log.hops, k);
  }

  // ----- many requests -----------------------------------------------------------------

  /** However requests interleave: when what an owner did is what a finished request's hops tell, as
      `Execute` ensures on every exit including cancellation, it has no live permit. */
  lemma {:induction false} NoPermitLeftBehind(policy: Policy, es: seq<Event>, owner: nat, run: ExecutorProofs.Run)
    requires ValidRun(policy, EMPTY, es) && |es| < GENERATIONS
    requires ExecutorProofs.Legal(run) && ActsBy(policy, es, owner) == ActsOf(run.log.hops)
    ensures forall p :: p in Exec(policy, EMPTY, es).live ==> p.owner != owner
  {
    hide ExecutorProofs.Legal;
    LiveIsHeld(policy, es, owner);
    LegalEndsItsPermits(run);
    HistoryHoldsNothing(run.log.hops, 0);
    assert forall p :: p in Exec(policy, EMPTY, es).live && p.owner == owner ==> p.id in LiveTickets(Exec(policy, EMPTY, es), owner);
  }

  /** The owner was left without a live permit, as by `Execute`, and did nothing afterwards. */
  ghost predicate Done(policy: Policy, es: seq<Event>, owner: nat) {
    exists j :: DoneAt(policy, es, owner, j)
  }

  ghost predicate DoneAt(policy: Policy, es: seq<Event>, owner: nat, j: nat) {
    && j <= |es| && OwnLive(Exec(policy, EMPTY, es[..j]), owner) == {}
    && forall k :: j <= k < |es| ==> Owner(es[k]) != owner
  }

  /** Other owners' events give it none back. */
  lemma {:induction false} DoneStays(policy: Policy, es: seq<Event>, owner: nat, j: nat)
    requires DoneAt(policy, es, owner, j)
    ensures OwnLive(Exec(policy, EMPTY, es), owner) == {}
    decreases |es|
  {
    if j == |es| {
      assert es[..j] == es;
    } else {
      var before := es[..|es| - 1];
      assert before[..j] == es[..j];
      DoneStays(policy, before, owner, j);
      RunStep(policy, es);
      OthersKeepMine(policy, Exec(policy, EMPTY, before), es[|es| - 1], owner);
    }
  }

  lemma {:induction false} LiveOwnersActed(policy: Policy, es: seq<Event>, p: Permit)
    requires ValidRun(policy, EMPTY, es) && p in Exec(policy, EMPTY, es).live
    ensures exists k :: 0 <= k < |es| && Owner(es[k]) == p.owner
    decreases |es|
  {
    if es != [] {
      var before, e := es[..|es| - 1], es[|es| - 1];
      RunStep(policy, es);
      if p in Exec(policy, EMPTY, before).live {
        LiveOwnersActed(policy, before, p);
        var k :| 0 <= k < |before| && Owner(before[k]) == p.owner;
        assert es[k] == before[k];
      } else {
        assert Owner(es[|es| - 1]) == p.owner;
      }
    }
  }

  /** Once every request that touched the circuits is done, an admission is refused only by an open
      circuit that is still cooling down: no probe ownership was lost on the way. */
  lemma {:induction false} QuiescentAdmission(policy: Policy, es: seq<Event>, owner: nat, t: string, now: nat)
    requires ValidRun(policy, EMPTY, es) && |es| < GENERATIONS
    requires forall k :: 0 <= k < |es| ==> Done(policy, es, Owner(es[k]))
    ensures Exec(policy, EMPTY, es).live == {}
    ensures var c := At(Exec(policy, EMPTY, es), t);
            Decide(Exec(policy, EMPTY, es), owner, t, now).Rejected? <==> c.phase.Open? && now < c.phase.until
  {
    var r := Exec(policy, EMPTY, es);
    assert forall p :: p in r.live ==> p in OwnLive(r, p.owner);
    forall p | p in r.live
      ensures false
    {
      LiveOwnersActed(policy, es, p);
      var k :| 0 <= k < |es| && Owner(es[k]) == p.owner;
      var j :| DoneAt(policy, es, p.owner, j);
      DoneStays(policy, es, p.owner, j);
    }
    assert Reachable(policy, r);
    RefusedExactly(policy, r, owner, t, now);
  }

  // ----- the witnesses on the circuits -------------------------------------------------

  /** Asking for a fresh target and ending the permit, on circuits this owner alone has called. */
  lemma Visit(policy: Policy, es: seq<Event>, owner: nat, t: string, now: nat, outcome: Option<Completion>, later: nat) returns (longer: seq<Event>)
    requires ValidRun(policy, EMPTY, es) && Exec(policy, EMPTY, es).clock <= now <= later
    requires t !in Exec(policy, EMPTY, es).circuits
    ensures ValidRun(policy, EMPTY, longer) && Exec(policy, EMPTY, longer).clock <= later
    ensures Exec(policy, EMPTY, longer).steps == Exec(policy, EMPTY, es).steps + 2
    ensures forall u :: u in Exec(policy, EMPTY, longer).circuits <==> u == t || u in Exec(policy, EMPTY, es).circuits
    ensures var ticket := Exec(policy, EMPTY, es).steps;
            ActsBy(policy, longer, owner) == ActsBy(policy, es, owner) + [Ask(t, Yes(ClosedPermit, ticket))] + [End(ticket, outcome)]
  {
    hide ValidRun, Exec, ActsBy;
    var r := Exec(policy, EMPTY, es);
    var p := Decide(r, owner, t, now).permit;
    var ask := Admit(owner, t, now);
    RunAppends(policy, es, ask);
    var end := if outcome.Some? then Complete(p, outcome.value, later) else Drop(p);
    RunAppends(policy, es + [ask], end);
    longer := es + [ask] + [end];
  }

  /** The circuits admit the throttled request that switches targets, under every policy. */
  lemma {:induction false} SwitchedRunOnCircuits(policy: Policy, owner: nat) returns (es: seq<Event>)
    ensures ValidRun(policy, EMPTY, es) && ActsBy(policy, es, owner) == ActsOf(ExecutorProofs.SwitchedRun().log.hops)
  {
    hide ValidRun, Exec;
    var hops := ExecutorProofs.SwitchedRun().log.hops;
    EmptyRun(policy);
    es := Visit(policy, [], owner, "a", 0, Some(TransientFailure), hops[0].ended);
    es := Visit(policy, es, owner, "b", hops[1].began, Some(Success), hops[1].ended);
    ActsExtend([], hops[0]);
    ActsExtend([hops[0]], hops[1]);
    assert hops == [] + [hops[0]] + [hops[1]];
  }

  /** And the request that reports the deadline early. */
  lemma {:induction false} EarlyRunOnCircuits(policy: Policy, owner: nat) returns (es: seq<Event>)
    ensures ValidRun(policy, EMPTY, es) && ActsBy(policy, es, owner) == ActsOf(ExecutorProofs.EarlyRun().log.hops)
  {
    hide ValidRun, Exec;
    var hops := ExecutorProofs.EarlyRun().log.hops;
    EmptyRun(policy);
    es := Visit(policy, [], owner, "a", 0, None, hops[0].ended);
    ActsExtend([], hops[0]);
    assert hops == [] + [hops[0]];
  }

  lemma EmptyRun(policy: Policy)
    ensures ValidRun(policy, EMPTY, []) && Exec(policy, EMPTY, []) == EMPTY
  {
  }
}
