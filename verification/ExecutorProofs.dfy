/** What every finished request satisfies, derived from the history `Execute` guarantees. */
module ExecutorProofs {
  import opened Prelude
  import opened ExecutorModel
  import Circuit
  import Retry

  /** A finished request, as `Execute` leaves it. */
  datatype Run = Run(config: Config, plan: RoutePlan, payload: Payload, deadline: nat, log: Log, exit: Exit, clock: nat)

  ghost predicate Legal(r: Run) {
    RunOK(r.config, r.plan, r.payload, r.deadline, r.log, r.exit, r.clock)
  }

  function RunTerms(r: Run): Terms {
    TermsOf(r.config, r.plan, r.payload, r.deadline)
  }

  /** No target occurs twice in the plan's chain, as catalog validation ensures. */
  predicate DistinctChain(plan: RoutePlan) {
    forall i, j :: 0 <= i < j < |Chain(plan)| ==> Chain(plan)[i].targetId != Chain(plan)[j].targetId
  }

  // ----- order of calls and hops -------------------------------------------------------

  lemma CallIsGood(r: Run, k: nat)
    requires Legal(r) && k < |r.log.calls|
    ensures GoodCall(r.log.calls[k], RunTerms(r))
  {
  }

  lemma CallsAreExchanges(r: Run)
    requires Legal(r)
    ensures |r.log.exchanges| == |r.log.calls|
  {
  }

  lemma HopIsGood(r: Run, h: nat)
    requires Legal(r) && h < |r.log.hops|
    ensures HopOK(r.log.hops[h], h, r.log.calls, RunTerms(r))
  {
  }

  lemma NextFollows(r: Run, k: nat)
    requires Legal(r) && k + 1 < |r.log.calls|
    ensures Follows(r.log.calls[k], r.log.calls[k + 1], RunTerms(r))
  {
  }

  /** Later calls start after earlier ones are over, in the same or a later hop. */
  lemma {:induction false} CallsInOrder(r: Run, i: nat, j: nat)
    requires Legal(r) && i < j < |r.log.calls|
    ensures r.log.calls[i].fate.Failed?
    ensures r.log.calls[i].over <= r.log.calls[j].start
    ensures r.log.calls[i].hop <= r.log.calls[j].hop
    decreases j
  {
    hide Legal;
    NextFollows(r, j - 1);
    if i < j - 1 {
      CallIsGood(r, j - 1);
      CallsInOrder(r, i, j - 1);
    }
  }

  lemma {:induction false} HopsInOrder(r: Run, i: nat, j: nat)
    requires Legal(r) && i < j < |r.log.hops|
    ensures r.log.hops[i].position < r.log.hops[j].position
    ensures r.log.hops[i].first + r.log.hops[i].count <= r.log.hops[j].first
    ensures Fails(r.log.hops[i].exit) && IsFallbackEligible(r.log.hops[i].exit.error)
    decreases j
  {
    assert HopFollows(r.log.hops[j - 1], r.log.hops[j]);
    if i < j - 1 {
      HopsInOrder(r, i, j - 1);
    }
  }

  lemma FirstHopStartsAtZero(r: Run)
    requires Legal(r) && r.log.hops != []
    ensures r.log.hops[0].first == 0
  {
  }

  lemma HopsFollow(r: Run, i: nat)
    requires Legal(r) && i + 1 < |r.log.hops|
    ensures HopFollows(r.log.hops[i], r.log.hops[i + 1])
  {
  }

  /** The first `n` hops cover the calls before the end of the last of them. */
  lemma {:induction false} HopOfCall(r: Run, k: nat, n: nat) returns (h: nat)
    requires Legal(r) && n <= |r.log.hops| && k < Covered(r.log.hops[..n])
    ensures h < n && r.log.hops[h].first <= k < r.log.hops[h].first + r.log.hops[h].count
    ensures k < |r.log.calls| ==> r.log.calls[k].hop == h && r.log.calls[k].target == r.log.hops[h].target
    decreases n
  {
    hide Legal;
    var last := r.log.hops[n - 1];
    HopIsGood(r, n - 1);
    if last.first <= k {
      h := n - 1;
    } else {
      FirstHopStartsAtZero(r);
      HopsFollow(r, n - 2);
      assert r.log.hops[..n - 1][n - 2] == r.log.hops[n - 2];
      h := HopOfCall(r, k, n - 1);
    }
  }

  /** Every call belongs to exactly the admission its hop number names. */
  lemma {:induction false} CallBelongs(r: Run, k: nat)
    requires Legal(r) && k < |r.log.calls|
    ensures var c := r.log.calls[k];
            && c.hop < |r.log.hops|
            && r.log.hops[c.hop].first <= k < r.log.hops[c.hop].first + r.log.hops[c.hop].count
            && r.log.hops[c.hop].target == c.target
            && r.log.hops[c.hop].admission.Granted?
  {
    assert r.log.hops[..|r.log.hops|] == r.log.hops;
    var h := HopOfCall(r, k, |r.log.hops|);
    assert HopOK(r.log.hops[h], h, r.log.calls, RunTerms(r));
  }

  // ----- Retry-After -------------------------------------------------------------------

  /** After a provider failure with a Retry-After hint, every later call of the request, on any
      target, starts no earlier than the hint asks. */
  lemma {:induction false} RetryAfterHonoured(r: Run, i: nat, j: nat)
    requires Legal(r) && i < j < |r.log.calls|
    ensures r.log.calls[i].fate.Failed?
    ensures var e := r.log.calls[i].fate.error;
            e.RateLimitExceeded? && e.retryAfterMs.Some? ==> r.log.calls[i].over + Millis(e.retryAfterMs.value) <= r.log.calls[j].start
  {
    CallsInOrder(r, i, j);
    assert Follows(r.log.calls[i], r.log.calls[i + 1], RunTerms(r));
    if i + 1 < j {
      CallsInOrder(r, i + 1, j);
      assert GoodCall(r.log.calls[i + 1], RunTerms(r));
    }
  }

  /** The same on the wire: the later request is sent no earlier than the hint after the earlier
      one ended. */
  lemma {:induction false} RetryAfterOnTheWire(r: Run, i: nat, j: nat)
    requires Legal(r) && i < j < |r.log.calls|
    ensures |r.log.exchanges| == |r.log.calls| && r.log.calls[i].fate.Failed?
    ensures r.log.exchanges[i].ended <= r.log.exchanges[j].began
    ensures var e := r.log.calls[i].fate.error;
            e.RateLimitExceeded? && e.retryAfterMs.Some? ==> r.log.exchanges[i].ended + Millis(e.retryAfterMs.value) <= r.log.exchanges[j].began
  {
    CallsInOrder(r, i, j);
    RetryAfterHonoured(r, i, j);
    assert Explains(r.log.exchanges[i], r.log.calls[i], RunTerms(r));
    assert Explains(r.log.exchanges[j], r.log.calls[j], RunTerms(r));
  }

  /** When a hint cannot be waited out before the deadline, no later call is made on any target. */
  lemma {:induction false} NoCallBeyondAHint(r: Run, i: nat)
    requires Legal(r) && i < |r.log.calls| && r.log.calls[i].fate.Failed?
    requires var e := r.log.calls[i].fate.error;
             e.RateLimitExceeded? && e.retryAfterMs.Some? && r.deadline <= r.log.calls[i].over + Millis(e.retryAfterMs.value)
    ensures i == |r.log.calls| - 1
  {
    if i + 1 < |r.log.calls| {
      CallIsGood(r, i + 1);
      RetryAfterHonoured(r, i, i + 1);
    }
  }

  /** A throttled call, with or without a hint, is only ever followed on its own target. */
  lemma {:induction false} ThrottlingNeverSwitches(r: Run, i: nat)
    requires Legal(r) && i + 1 < |r.log.calls|
    requires r.log.calls[i].fate.Failed? && r.log.calls[i].fate.error.RateLimitExceeded?
    ensures r.log.calls[i + 1].target == r.log.calls[i].target
  {
    assert Follows(r.log.calls[i], r.log.calls[i + 1], RunTerms(r));
  }

  /** Call `k` is the last its admission allows: a probe's only one, or the last retry. */
  predicate UsesUp(r: Run, k: nat)
    requires k < |r.log.calls|
  {
    && r.log.calls[k].hop < |r.log.hops|
    && var h := r.log.hops[r.log.calls[k].hop];
       h.admission.Granted? && k + 1 == h.first + (if h.admission.kind.ProbePermit? then 1 else r.config.maxRetries + 1)
  }

  /** The next call is a hop further exactly when this one used up its hop's attempts. */
  lemma {:induction false} SwitchExactly(r: Run, k: nat)
    requires Legal(r) && k + 1 < |r.log.calls|
    ensures r.log.calls[k].hop < r.log.calls[k + 1].hop <==> UsesUp(r, k)
    ensures UsesUp(r, k) ==>
              && r.log.calls[k].fate.Failed?
              && var e := r.log.calls[k].fate.error;
                 e.NetworkError? || e.TimeoutError? || e.ApiCallFailed?
  {
    hide Legal;
    var calls := r.log.calls;
    CallBelongs(r, k);
    CallBelongs(r, k + 1);
    NextFollows(r, k);
    var h := calls[k].hop;
    HopIsGood(r, h);
    if calls[k].hop < calls[k + 1].hop {
      HopsInOrder(r, h, calls[k + 1].hop);
      assert k + 1 == r.log.hops[h].first + r.log.hops[h].count;
      CallsWithinTotal(r);
    }
  }

  lemma CallsWithinTotal(r: Run)
    requires Legal(r)
    ensures |r.log.calls| <= Max(r.config.maxTotalAttempts, 1)
  {
  }

  /** Between two calls of different hops one uses up its hop's attempts. */
  lemma {:induction false} SwitchBetween(r: Run, i: nat, j: nat) returns (k: nat)
    requires Legal(r) && i < j < |r.log.calls| && r.log.calls[i].hop < r.log.calls[j].hop
    ensures i <= k < j && UsesUp(r, k)
    decreases j
  {
    hide Legal, UsesUp;
    NextFollows(r, j - 1);
    SwitchExactly(r, j - 1);
    if r.log.calls[j - 1].hop < r.log.calls[j].hop {
      k := j - 1;
    } else {
      CallsInOrder(r, i, j);
      k := SwitchBetween(r, i, j - 1);
    }
  }

  /** A later call goes to the same target exactly when no call from the earlier one on used up the
      attempts its admission allowed: one for a probe, else the retries plus one. */
  lemma {:induction false} SameTargetExactly(r: Run, i: nat, j: nat)
    requires Legal(r) && DistinctChain(r.plan) && i < j < |r.log.calls|
    ensures r.log.calls[i].target == r.log.calls[j].target <==> forall k :: i <= k < j ==> !UsesUp(r, k)
  {
    hide UsesUp;
    var calls := r.log.calls;
    CallsInOrder(r, i, j);
    CallBelongs(r, i);
    CallBelongs(r, j);
    forall k | i <= k < j && UsesUp(r, k)
      ensures calls[i].hop < calls[j].hop
    {
      SwitchExactly(r, k);
      if i < k { CallsInOrder(r, i, k); }
      if k + 1 < j { CallsInOrder(r, k + 1, j); }
    }
    if calls[i].hop < calls[j].hop {
      var k := SwitchBetween(r, i, j);
      HopsInOrder(r, calls[i].hop, calls[j].hop);
      assert calls[i].target != calls[j].target;
    }
  }

  /** A request throttled on `a`, retried there into a transport error, then switched to `b`. */
  function SwitchedRun(): Run {
    var lost := NetworkError("reset");
    var second := RoutePlan("openai", "b", "m", 100, []);
    var first := RoutePlan("openai", "a", "m", 100, [second]);
    var t := Millis(5);
    var a, b := Granted(Circuit.ClosedPermit, 0), Granted(Circuit.ClosedPermit, 2);
    Run(
      Config(1000, 1, 3, 2000),
      first,
      Payload(Some("hi"), None),
      Millis(10_000),
      Log([Call(0, "a", None, 0, Millis(1000), 1, Failed(RateLimitExceeded("openai", Some(5)))),
           Call(0, "a", Some(Pause(1, None, 1)), t + 1, t + 1 + Millis(1000), t + 2, Failed(lost)),
           Call(1, "b", None, t + 3, t + 3 + Millis(1000), t + 4, Succeeded("hello"))],
          [Hop(0, "a", a, 0, 0, 2, Err(lost), None, Settled(Circuit.TransientFailure), t + 2),
           Hop(1, "b", b, t + 2, 2, 1, Ok("hello"), None, Settled(Circuit.Success), t + 4)],
          [("a", RateLimitOutcome), ("a", RetryableOutcome), ("b", SuccessOutcome)],
          1,
          [("a", "b")],
          ["b"],
          0,
          [Exchange(first, "hi", None, Millis(1000), 0, 1, Replied(Err(RateLimitExceeded("openai", Some(5))))),
           Exchange(first, "hi", None, t + 1 + Millis(1000), t + 1, t + 2, Replied(Err(lost))),
           Exchange(second, "hi", None, t + 3 + Millis(1000), t + 3, t + 4, Replied(Ok("hello")))],
          [("a", a), ("b", b)],
          false,
          1,
          0),
      Ok("hello"),
      t + 4)
  }

  lemma SwitchedCalls()
    ensures CallsOK(SwitchedRun().log.calls, RunTerms(SwitchedRun()))
  {
  }

  lemma SwitchedAccounts()
    ensures AccountingOK(SwitchedRun().log, RunTerms(SwitchedRun()))
  {
    hide Explains;
    SwitchedExchange(0);
    SwitchedExchange(1);
    SwitchedExchange(2);
  }

  lemma SwitchedExchange(k: nat)
    requires k < 3
    ensures Explains(SwitchedRun().log.exchanges[k], SwitchedRun().log.calls[k], RunTerms(SwitchedRun()))
  {
    var r := SwitchedRun();
    assert r.plan == Chain(r.plan)[0] && r.plan.fallbackPlans[0] == Chain(r.plan)[1];
  }

  lemma SwitchedHops()
    ensures HopsOK(SwitchedRun().log.hops, SwitchedRun().log.calls, RunTerms(SwitchedRun()))
    ensures AdmissionsOK(SwitchedRun().log.hops, SwitchedRun().log.admissions)
  {
    hide HopOK;
    SwitchedHop0();
    SwitchedHop1();
  }

  lemma SwitchedHop0()
    ensures HopOK(SwitchedRun().log.hops[0], 0, SwitchedRun().log.calls, RunTerms(SwitchedRun()))
  {
  }

  lemma SwitchedHop1()
    ensures HopOK(SwitchedRun().log.hops[1], 1, SwitchedRun().log.calls, RunTerms(SwitchedRun()))
  {
  }

  lemma TwoActiveHops(hops: seq<Hop>)
    requires |hops| == 2 && hops[0].count > 0 && hops[1].count > 0
    ensures ActiveHops(hops) == 2
  {
    assert hops[..1] == [hops[0]] && [hops[0]][..0] == [];
    assert ActiveHops([hops[0]]) == 1;
  }

  lemma SwitchedHistory()
    ensures HistoryOK(SwitchedRun().log, RunTerms(SwitchedRun()))
  {
    hide CallsOK, AccountingOK, HopsOK, AdmissionsOK;
    SwitchedCalls();
    SwitchedAccounts();
    SwitchedHops();
    TwoActiveHops(SwitchedRun().log.hops);
  }

  /** A throttled call does not pin the rest of the request to its target. */
  lemma {:induction false} ThrottlingDoesNotPinTheTarget()
    ensures var r := SwitchedRun();
            && Legal(r) && DistinctChain(r.plan) && |r.log.calls| == 3
            && r.log.calls[0].fate.Failed? && Hint(r.log.calls[0].fate.error) > 0
            && r.log.calls[2].target != r.log.calls[0].target
  {
    hide HistoryOK;
    SwitchedHistory();
  }

  lemma {:induction false} SwitchAnnounced(plan: RoutePlan, maxTokens: Option<int>, n: nat, q: nat)
    requires 1 <= q <= n <= |plan.fallbackPlans| && SupportsTokens(plan.fallbackPlans[q - 1], maxTokens)
    ensures exists m :: 0 <= m < |Switches(plan, maxTokens, n)| && Switches(plan, maxTokens, n)[m].1 == plan.fallbackPlans[q - 1].targetId
  {
    var all := Switches(plan, maxTokens, n);
    if q == n {
      assert all[|all| - 1].1 == plan.fallbackPlans[q - 1].targetId;
    } else {
      SwitchAnnounced(plan, maxTokens, n - 1, q);
      var before := Switches(plan, maxTokens, n - 1);
      var m :| 0 <= m < |before| && before[m].1 == plan.fallbackPlans[q - 1].targetId;
      assert all[m] == before[m];
    }
  }

  lemma ConsideredCovers(r: Run)
    requires Legal(r)
    ensures r.log.considered <= |r.plan.fallbackPlans|
    ensures r.log.fallbacks == Switches(r.plan, r.payload.maxTokens, r.log.considered)
    ensures r.log.hops != [] ==> r.log.hops[|r.log.hops| - 1].position <= r.log.considered
  {
  }

  lemma HopPlaced(r: Run, i: nat)
    requires Legal(r) && i < |r.log.hops|
    ensures var h := r.log.hops[i];
            && h.position < |Chain(r.plan)| && h.target == Chain(r.plan)[h.position].targetId
            && (h.position > 0 ==> SupportsTokens(Chain(r.plan)[h.position], r.payload.maxTokens))
  {
  }

  lemma LastLookedAt(r: Run)
    requires Legal(r)
    ensures LastConsidered(r.log)
    ensures Tried(r.log, Chain(r.plan), RunTerms(r), r.log.considered)
    ensures Complete(r.log, r.plan, RunTerms(r), r.exit)
    ensures r.exit.Ok? || r.exit.Cancelled? ==> r.log.hops != [] && r.log.hops[|r.log.hops| - 1].exit == r.exit
    ensures Fails(r.exit) && r.log.hops != [] ==> Fails(r.log.hops[|r.log.hops| - 1].exit)
  {
  }

  /** Fallbacks are looked at up to the last one tried after a success, a cancellation or a hop that
      ran into the deadline, and not at all before the primary was tried. */
  lemma {:induction false} LooksNoFurther(r: Run)
    requires Legal(r)
    ensures r.log.considered <= |r.plan.fallbackPlans|
    ensures r.log.hops == [] ==> r.log.considered == 0
    ensures r.log.hops != [] ==> r.log.hops[|r.log.hops| - 1].position <= r.log.considered
    ensures r.log.hops != [] && (r.exit.Ok? || r.exit.Cancelled? || r.log.hops[|r.log.hops| - 1].exit == Err(DeadlineExceeded)) ==>
              r.log.considered == r.log.hops[|r.log.hops| - 1].position
  {
    hide Legal;
    ConsideredCovers(r);
    LastLookedAt(r);
  }

  /** A fallback that was looked at and can serve the tokens was asked for, unless the attempts were
      spent or the deadline ended the request right there. */
  lemma {:induction false} LookedAtIsTried(r: Run, q: nat)
    requires Legal(r) && 1 <= q <= r.log.considered && q < |Chain(r.plan)|
    requires r.payload.maxTokens.Some? ==> r.payload.maxTokens.value <= Min(Chain(r.plan)[q].maxOutputTokens, U32_MAX)
    ensures || (exists i :: 0 <= i < |r.log.hops| && r.log.hops[i].position == q)
            || |r.log.calls| == Max(r.config.maxTotalAttempts, 1)
            || (r.exit == Err(DeadlineExceeded) && q == r.log.considered)
  {
    hide Legal, TriedAt;
    AbleExactly(Chain(r.plan)[q], r.payload.maxTokens);
    LastLookedAt(r);
    CallsWithinTotal(r);
    if q < r.log.considered {
      assert DealtWith(r.log, Chain(r.plan), RunTerms(r), q);
    } else if !TimedOut(r.exit) {
      var last := r.log.hops[|r.log.hops| - 1];
      if last.position == q {
        LastIsTried(r.log.hops);
      } else {
        assert DealtWith(r.log, Chain(r.plan), RunTerms(r), q);
      }
    }
    if TriedAt(r.log.hops, q) {
      TriedSpelled(r.log.hops, q);
    }
  }

  lemma TriedSpelled(hops: seq<Hop>, q: nat)
    requires TriedAt(hops, q)
    ensures exists i :: 0 <= i < |hops| && hops[i].position == q
  {
  }

  /** No tokens are asked for, or no more than the target's cap. */
  lemma AbleExactly(plan: RoutePlan, maxTokens: Option<int>)
    ensures SupportsTokens(plan, maxTokens) <==> (maxTokens.Some? ==> maxTokens.value <= Min(plan.maxOutputTokens, U32_MAX))
  {
  }

  lemma LastIsTried(hops: seq<Hop>)
    requires hops != []
    ensures TriedAt(hops, hops[|hops| - 1].position)
  {
  }

  lemma ChainAt(plan: RoutePlan, n: nat)
    requires 1 <= n <= |plan.fallbackPlans|
    ensures n < |Chain(plan)| && Chain(plan)[n] == plan.fallbackPlans[n - 1]
  {
  }

  /** The switches lead from the primary over the targets at these positions, in order. */
  ghost predicate LeadOver(plan: RoutePlan, switches: seq<(string, string)>, ps: seq<nat>, n: nat) {
    && |ps| == |switches|
    && (forall m :: 0 <= m < |ps| ==> 1 <= ps[m] <= n && n < |Chain(plan)| && switches[m].1 == Chain(plan)[ps[m]].targetId)
    && (forall m, m' :: 0 <= m < m' < |ps| ==> ps[m] < ps[m'])
    && (switches != [] ==> switches[0].0 == plan.targetId)
    && (forall m, m' :: 0 <= m < m' < |ps| && m' == m + 1 ==> switches[m'].0 == switches[m].1)
  }

  /** The positions are those of the fallbacks among the first `n` that can serve the tokens. */
  ghost predicate AreTheAble(plan: RoutePlan, maxTokens: Option<int>, ps: seq<nat>, n: nat) {
    forall q :: 1 <= q <= n && q < |Chain(plan)| ==>
      (q in ps <==> (maxTokens.Some? ==> maxTokens.value <= Min(Chain(plan)[q].maxOutputTokens, U32_MAX)))
  }

  lemma LeadsOn(plan: RoutePlan, switches: seq<(string, string)>, ps: seq<nat>, n: nat)
    requires 1 <= n < |Chain(plan)| && LeadOver(plan, switches, ps, n - 1)
    ensures LeadOver(plan, switches, ps, n)
    ensures LeadOver(plan, switches + [(LastTarget(switches, plan.targetId), Chain(plan)[n].targetId)], ps + [n], n)
  {
    hide Chain;
  }

  lemma AbleGrow(plan: RoutePlan, maxTokens: Option<int>, ps: seq<nat>, n: nat)
    requires 1 <= n < |Chain(plan)| && AreTheAble(plan, maxTokens, ps, n - 1) && n !in ps
    ensures if SupportsTokens(Chain(plan)[n], maxTokens) then AreTheAble(plan, maxTokens, ps + [n], n) else AreTheAble(plan, maxTokens, ps, n)
  {
    hide Chain, SupportsTokens;
    AbleExactly(Chain(plan)[n], maxTokens);
    assert forall q :: q in ps + [n] <==> q in ps || q == n;
  }

  lemma {:induction false} SwitchPositions(plan: RoutePlan, maxTokens: Option<int>, n: nat) returns (ps: seq<nat>)
    requires n <= |plan.fallbackPlans|
    ensures LeadOver(plan, Switches(plan, maxTokens, n), ps, n) && AreTheAble(plan, maxTokens, ps, n)
  {
    if n == 0 {
      ps := [];
    } else {
      ps := SwitchPositions(plan, maxTokens, n - 1);
      assert Chain(plan)[n] == plan.fallbackPlans[n - 1];
      assert n !in ps;
      hide LeadOver, AreTheAble, SupportsTokens, Chain;
      LeadsOn(plan, Switches(plan, maxTokens, n - 1), ps, n);
      AbleGrow(plan, maxTokens, ps, n);
      if SupportsTokens(plan.fallbackPlans[n - 1], maxTokens) {
        ps := ps + [n];
      }
    }
  }

  /** The recorded switches lead from the primary over the fallbacks, in catalog order, that were
      looked at and can serve the tokens, and over no other. */
  lemma {:induction false} SwitchesLinked(r: Run) returns (ps: seq<nat>)
    requires Legal(r)
    ensures |ps| == |r.log.fallbacks| && r.log.considered <= |r.plan.fallbackPlans|
    ensures forall m :: 0 <= m < |ps| ==> 1 <= ps[m] <= r.log.considered && r.log.fallbacks[m].1 == Chain(r.plan)[ps[m]].targetId
    ensures forall m, m' :: 0 <= m < m' < |ps| ==> ps[m] < ps[m']
    ensures r.log.fallbacks != [] ==> r.log.fallbacks[0].0 == r.plan.targetId
    ensures forall m, m' :: 0 <= m < m' < |ps| && m' == m + 1 ==> r.log.fallbacks[m'].0 == r.log.fallbacks[m].1
    ensures forall q :: 1 <= q <= r.log.considered ==>
              (q in ps <==> (r.payload.maxTokens.Some? ==> r.payload.maxTokens.value <= Min(Chain(r.plan)[q].maxOutputTokens, U32_MAX)))
  {
    hide Legal, Switches;
    ConsideredCovers(r);
    ps := SwitchPositions(r.plan, r.payload.maxTokens, r.log.considered);
  }

  /** Every fallback that was asked for is among the recorded switches. */
  lemma {:induction false} TriedIsRecorded(r: Run, i: nat)
    requires Legal(r) && 1 <= i < |r.log.hops|
    ensures exists m :: 0 <= m < |r.log.fallbacks| && r.log.fallbacks[m].1 == r.log.hops[i].target
  {
    hide Legal, Switches;
    HopsInOrder(r, 0, i);
    ConsideredCovers(r);
    var q := r.log.hops[i].position;
    if i < |r.log.hops| - 1 {
      HopsInOrder(r, i, |r.log.hops| - 1);
    }
    assert Chain(r.plan)[q] == r.plan.fallbackPlans[q - 1];
    HopPlaced(r, i);
    SwitchAnnounced(r.plan, r.payload.maxTokens, r.log.considered, q);
  }

  lemma SkipsNone(r: Run)
    requires Legal(r)
    ensures NoneSkipped(r.log.hops, Chain(r.plan), r.payload.maxTokens)
  {
  }

  /** No fallback that can serve the tokens is skipped: before a later target is asked for, it was. */
  lemma {:induction false} NoAbleFallbackSkipped(r: Run, i: nat, q: nat)
    requires Legal(r) && i < |r.log.hops| && 1 <= q < r.log.hops[i].position && q < |Chain(r.plan)|
    requires r.payload.maxTokens.Some? ==> r.payload.maxTokens.value <= Min(Chain(r.plan)[q].maxOutputTokens, U32_MAX)
    ensures exists j :: 0 <= j < i && r.log.hops[j].position == q && r.log.hops[j].target == Chain(r.plan)[q].targetId
  {
    hide Legal;
    SkipsNone(r);
    AbleExactly(Chain(r.plan)[q], r.payload.maxTokens);
    assert TriedAt(r.log.hops[..i], q);
    var j :| 0 <= j < i && r.log.hops[..i][j].position == q;
    HopPlaced(r, j);
    assert r.log.hops[j].position == q && r.log.hops[j].target == Chain(r.plan)[q].targetId;
  }

  // ----- bounds ------------------------------------------------------------------------

  /** The whole request never exceeds the attempt budget, a hop never exceeds its retries plus
      one, and a recovery probe is a single call. */
  lemma {:induction false} AttemptsBounded(r: Run, i: nat, j: nat)
    requires Legal(r) && i <= j < |r.log.calls| && r.log.calls[i].hop == r.log.calls[j].hop
    ensures |r.log.calls| <= Max(r.config.maxTotalAttempts, 1)
    ensures r.log.calls[i].hop < |r.log.hops|
    ensures var admission := r.log.hops[r.log.calls[i].hop].admission;
            admission.Granted? && j - i < (if admission.kind.ProbePermit? then 1 else r.config.maxRetries + 1)
  {
    CallBelongs(r, i);
    CallBelongs(r, j);
    var h := r.log.calls[i].hop;
    assert HopOK(r.log.hops[h], h, r.log.calls, RunTerms(r));
  }

  /** Targets are admitted in catalog order starting with the primary, and none twice; so all
      calls to one target fall in one hop. */
  lemma {:induction false} EachTargetOnce(r: Run, i: nat, j: nat)
    requires Legal(r) && DistinctChain(r.plan) && i < j < |r.log.hops|
    ensures r.log.hops[0].target == r.plan.targetId
    ensures r.log.hops[i].position < r.log.hops[j].position < |Chain(r.plan)|
    ensures r.log.hops[i].target == Chain(r.plan)[r.log.hops[i].position].targetId
    ensures r.log.hops[i].target != r.log.hops[j].target
  {
    HopsInOrder(r, i, j);
  }

  /** Every request on the wire goes to a target of the plan, as planned; a fallback can serve the
      requested tokens; and the messages and tokens sent are the payload's own. */
  lemma {:induction false} CalledTargetsServe(r: Run, k: nat)
    requires Legal(r) && k < |r.log.calls|
    ensures k < |r.log.exchanges|
    ensures exists p :: 0 <= p < |Chain(r.plan)| && Chain(r.plan)[p].targetId == r.log.calls[k].target
                     && (p > 0 && r.payload.maxTokens.Some? ==> r.payload.maxTokens.value <= Min(Chain(r.plan)[p].maxOutputTokens, U32_MAX))
    ensures var x := r.log.exchanges[k];
            && x.plan in [r.plan] + r.plan.fallbackPlans && x.plan.targetId == r.log.calls[k].target
            && Some(x.messages) == r.payload.messages && x.sent == r.payload.maxTokens
  {
    hide Legal;
    CallBelongs(r, k);
    CallExplained(r, k);
    var h := r.log.calls[k].hop;
    HopPlaced(r, h);
    PayloadIsValid(r);
    var p := r.log.hops[h].position;
    AbleExactly(Chain(r.plan)[p], r.payload.maxTokens);
    assert Chain(r.plan)[p].targetId == r.log.calls[k].target;
  }

  lemma PayloadIsValid(r: Run)
    requires Legal(r) && r.log.hops != []
    ensures r.payload.messages.Some?
  {
  }

  // ----- deadline ----------------------------------------------------------------------

  /** No call starts at or after the deadline, its cutoff never passes it, and whatever is returned
      other than the deadline error was confirmed before the deadline after the last call. */
  lemma {:induction false} DeadlineRespected(r: Run, k: nat)
    requires Legal(r) && k < |r.log.calls|
    ensures var c := r.log.calls[k];
            && c.start < c.cutoff == Min(c.start + Millis(r.config.timeoutMs), r.deadline)
            && (k < |r.log.calls| - 1 || r.exit.Ok? || Fails(r.exit) ==> c.over < r.deadline)
  {
    var c := r.log.calls[k];
    assert GoodCall(c, RunTerms(r));
    if k < |r.log.calls| - 1 {
      assert Follows(c, r.log.calls[k + 1], RunTerms(r));
    } else if r.exit.Ok? || Fails(r.exit) {
      LastCallDecided(r);
    }
  }

  lemma LastHopDecided(r: Run)
    requires Legal(r) && r.log.hops != [] && (r.exit.Ok? || Fails(r.exit))
    ensures var exit := r.log.hops[|r.log.hops| - 1].exit;
            exit.Ok? || Fails(exit)
  {
  }

  /** When the request succeeds or fails other than by the deadline, its last call did too. */
  lemma {:induction false} LastCallDecided(r: Run)
    requires Legal(r) && r.log.calls != [] && (r.exit.Ok? || Fails(r.exit))
    ensures var last := r.log.calls[|r.log.calls| - 1];
            last.fate.Succeeded? || last.fate.Failed?
  {
    hide Legal;
    var n := |r.log.calls| - 1;
    CallBelongs(r, n);
    var h := r.log.calls[n].hop;
    HopIsGood(r, h);
    if h < |r.log.hops| - 1 {
      HopsInOrder(r, h, |r.log.hops| - 1);
    } else {
      LastHopDecided(r);
    }
    LaterHopsMakeNoCalls(r, n);
  }

  lemma {:induction false} LaterHopsMakeNoCalls(r: Run, n: nat)
    requires Legal(r) && n + 1 == |r.log.calls|
    ensures r.log.calls[n].hop < |r.log.hops|
    ensures r.log.hops[r.log.calls[n].hop].first + r.log.hops[r.log.calls[n].hop].count == n + 1
  {
    CallBelongs(r, n);
    var h := r.log.calls[n].hop;
    assert HopOK(r.log.hops[h], h, r.log.calls, RunTerms(r));
  }

  /** The last hop stopped in the wait before a retry whose sampled backoff exceeds the time left. */
  predicate BackoffTooLong(r: Run) {
    && r.log.hops != []
    && var h := r.log.hops[|r.log.hops| - 1];
       && h.waiting.Some? && h.count > 0 && h.first + h.count == |r.log.calls|
       && var last, p := r.log.calls[|r.log.calls| - 1], h.waiting.value;
          && last.fate.Failed? && !(last.fate.error.RateLimitExceeded? && last.fate.error.retryAfterMs.Some?)
          && Since(r.deadline, p.readAt) < Millis(Retry.JitteredBackoffMs(p.number, WholeMillis(Millis(r.config.backoffCapMs)), p.raw))
  }

  lemma LastHopEnds(r: Run)
    requires Legal(r) && r.log.hops != []
    ensures var h := r.log.hops[|r.log.hops| - 1];
            && h.ended <= r.clock && h.first + h.count == |r.log.calls|
            && (TimedOut(h.exit) ==> TimedOut(r.exit))
            && (TimedOut(r.exit) && r.clock < r.deadline ==> h.exit == r.exit)
  {
  }

  /** Before the deadline has passed it is reported exactly when the sampled backoff before a retry
      exceeds the time left. */
  lemma {:induction false} DeadlineErrorExactly(r: Run)
    requires Legal(r) && r.clock < r.deadline
    ensures TimedOut(r.exit) <==> BackoffTooLong(r)
  {
    hide Legal;
    if TimedOut(r.exit) {
      DeadlineInTime(r);
    }
    if r.log.hops != [] {
      LastHopEnds(r);
      HopIsGood(r, |r.log.hops| - 1);
    }
  }

  lemma DeadlineInTime(r: Run)
    requires Legal(r) && r.clock < r.deadline && TimedOut(r.exit)
    ensures r.log.hops != [] && r.log.hops[|r.log.hops| - 1].exit == r.exit
  {
  }

  lemma SampledWithinCap(number: nat, capMs: nat, raw: Option<nat>)
    requires 1 <= number
    ensures Millis(Retry.JitteredBackoffMs(number, WholeMillis(Millis(capMs)), raw)) <= Millis(capMs)
  {
    Retry.JitterCoversTheWindow(number, WholeMillis(Millis(capMs)), raw, 0);
  }

  /** The pending pause is that of the hop's next retry: its number is the count of calls made, it and a
      budget slot were left, the failure it follows may be retried and was over before the reading, and
      the deadline is no further than the backoff cap. */
  predicate PauseOfARetry(h: Hop, last: Call, p: Pause, calls: nat, config: Config, deadline: nat, clock: nat) {
    && h.admission.Granted? && p.number == h.count < (if h.admission.kind.ProbePermit? then 1 else config.maxRetries + 1)
    && calls < Max(config.maxTotalAttempts, 1)
    && last.fate.Failed?
    && (last.fate.error.NetworkError? || last.fate.error.TimeoutError? || last.fate.error.ApiCallFailed? || last.fate.error.RateLimitExceeded?)
    && last.over <= p.readAt <= h.ended <= clock
    && deadline <= p.readAt + Millis(config.backoffCapMs)
  }

  lemma PauseLeft(h: Hop, index: nat, calls: seq<Call>, terms: Terms)
    requires HopOK(h, index, calls, terms) && h.waiting.Some?
    ensures h.admission.Granted? && h.count > 0 && h.first + h.count <= |calls|
    ensures Pausing(calls[h.first + h.count - 1], h.waiting.value, h.count, Allowance(h.admission.kind, terms.maxRetries), h.first + h.count, terms, h.ended)
  {
    hide SettlementFor, Justified, Numbered, Fits, Pausing, Allowance;
  }

  lemma {:induction false} BackoffBelongsToARetry(r: Run)
    requires BackoffTooLong(r) && Legal(r)
    ensures PauseOfARetry(r.log.hops[|r.log.hops| - 1], r.log.calls[|r.log.calls| - 1], r.log.hops[|r.log.hops| - 1].waiting.value,
                          |r.log.calls|, r.config, r.deadline, r.clock)
  {
    hide Legal, HopOK, Retry.JitteredBackoffMs, WholeMillis;
    LastHopEnds(r);
    var h := r.log.hops[|r.log.hops| - 1];
    HopIsGood(r, |r.log.hops| - 1);
    PauseLeft(h, |r.log.hops| - 1, r.log.calls, RunTerms(r));
    SampledWithinCap(h.waiting.value.number, r.config.backoffCapMs, h.waiting.value.raw);
  }

  /** Without retries, or with a single attempt in all, the deadline is never reported early. */
  lemma {:induction false} NeverEarlyWithoutRetries(r: Run)
    requires Legal(r) && TimedOut(r.exit) && (r.config.maxRetries == 0 || r.config.maxTotalAttempts <= 1)
    ensures r.deadline <= r.clock
  {
    hide Legal, BackoffTooLong;
    if r.clock < r.deadline {
      DeadlineErrorExactly(r);
      BackoffBelongsToARetry(r);
      RetryHasPredecessor(r);
    }
  }

  lemma RetryHasPredecessor(r: Run)
    requires Legal(r) && BackoffTooLong(r)
    ensures |r.log.calls| > 0 && r.log.hops[|r.log.hops| - 1].count > 0
  {
  }

  /** A request whose only call fails in transport early on, and whose sampled backoff of one
      second exceeds the time left. */
  function EarlyRun(): Run {
    var lost := NetworkError("reset");
    var only := RoutePlan("openai", "a", "m", 100, []);
    var a := Granted(Circuit.ClosedPermit, 0);
    Run(
      Config(1000, 2, 3, 2000),
      only,
      Payload(Some("hi"), None),
      Millis(1000),
      Log([Call(0, "a", None, 0, Millis(1000), 1, Failed(lost))],
          [Hop(0, "a", a, 0, 0, 1, Err(DeadlineExceeded), Some(Pause(1, Some(1000), 1)), Dropped, 1)],
          [("a", RetryableOutcome)],
          0,
          [],
          [],
          1,
          [Exchange(only, "hi", None, Millis(1000), 0, 1, Replied(Err(lost)))],
          [("a", a)],
          false,
          0,
          0),
      Err(DeadlineExceeded),
      1)
  }

  /** The deadline may be reported although almost all of the time is left. */
  lemma {:induction false} DeadlineErrorCanBeEarly()
    ensures var r := EarlyRun();
            Legal(r) && TimedOut(r.exit) && r.clock + Millis(999) < r.deadline
  {
    hide HistoryOK;
    EarlyHistory();
  }

  lemma EarlyHistory()
    ensures HistoryOK(EarlyRun().log, RunTerms(EarlyRun()))
  {
    hide HopsOK;
    EarlyHops();
    var hops := EarlyRun().log.hops;
    assert hops[..0] == [] && ActiveHops(hops) == 1;
  }

  lemma EarlyHops()
    ensures HopsOK(EarlyRun().log.hops, EarlyRun().log.calls, RunTerms(EarlyRun()))
  {
    assert Retry.Pow2(0) == 1;
    assert Retry.Window(1, 2000) == 1000;
    assert Retry.JitteredBackoffMs(1, 2000, Some(1000)) == 1000;
  }

  // ----- outcome -----------------------------------------------------------------------

  /** Some call of the request failed with this very error. */
  predicate Provided(calls: seq<Call>, e: ExecutorError) {
    exists k :: 0 <= k < |calls| && FailedAs(calls[k], e)
  }

  lemma ErrorComesFrom(r: Run)
    requires Legal(r) && Fails(r.exit)
    ensures ErrorSource(r.log, r.payload, r.deadline, r.clock, r.exit.error)
    ensures Judged(r.log, r.deadline, r.exit, r.clock)
    ensures r.log.hops == [] ==> r.log.calls == []
    ensures r.log.hops != [] ==> r.log.hops[0].target == r.plan.targetId && Fails(r.log.hops[|r.log.hops| - 1].exit)
  {
  }

  /** The last fallback was throttled, and its minimum wait did not fit when compared with the time
      left. */
  predicate ThrottledBeyondDeadline(r: Run) {
    && |r.log.hops| > 1
    && var last := r.log.hops[|r.log.hops| - 1];
       && last.exit.Err? && last.exit.error.RateLimitExceeded? && last.exit.error.retryAfterMs.Some?
       && 0 < last.exit.error.retryAfterMs.value && r.deadline < r.log.judged + Millis(last.exit.error.retryAfterMs.value)
  }

  /** Which error other than the deadline is returned: the invalid payload if nothing was tried, the
      last fallback's throttling if its wait did not fit, and else the primary's own error.  A
      primary's error is its open circuit or the error of its last call, and a fallback's the error of
      the very last call; so an internally made-up error never escapes. */
  lemma {:induction false} ErrorsAreGenuine(r: Run)
    requires Legal(r) && Fails(r.exit)
    ensures r.exit ==
            if r.log.hops == [] then Err(InvalidPayload("Missing or invalid 'messages' field"))
            else if ThrottledBeyondDeadline(r) then r.log.hops[|r.log.hops| - 1].exit
            else r.log.hops[0].exit
    ensures r.log.hops == [] ==> r.payload.messages.None? && r.log.calls == []
    ensures r.log.hops != [] && !ThrottledBeyondDeadline(r) ==>
              || (r.exit.error.CircuitOpen? && r.log.hops[0].admission.Refused? && r.log.hops[0].target == r.plan.targetId)
              || Provided(r.log.calls, r.exit.error)
    ensures ThrottledBeyondDeadline(r) ==> r.log.calls != [] && FailedAs(r.log.calls[|r.log.calls| - 1], r.exit.error)
  {
    hide Legal;
    ErrorComesFrom(r);
    var e := r.exit.error;
    if r.log.hops != [] {
      if ThrottledBeyondDeadline(r) {
        HopIsGood(r, |r.log.hops| - 1);
        LastHopEnds(r);
      } else {
        HopIsGood(r, 0);
        if r.log.hops[0].admission.Granted? {
          assert FailedAs(r.log.calls[r.log.hops[0].first + r.log.hops[0].count - 1], e);
        }
      }
    }
  }

  /** A fallback's minimum wait that no longer fits when its hop ends makes the request end with that
      throttling error, or with the deadline if that passes first; no other answer is given. */
  lemma {:induction false} UnfittableHintEnds(r: Run)
    requires Legal(r) && |r.log.hops| > 1
    requires var last := r.log.hops[|r.log.hops| - 1];
             && last.exit.Err? && last.exit.error.RateLimitExceeded? && last.exit.error.retryAfterMs.Some?
             && 0 < last.exit.error.retryAfterMs.value && r.deadline < last.ended + Millis(last.exit.error.retryAfterMs.value)
    ensures r.exit == r.log.hops[|r.log.hops| - 1].exit || (TimedOut(r.exit) && r.deadline <= r.clock)
  {
    hide Legal;
    LastLookedAt(r);
    if Fails(r.exit) {
      ErrorComesFrom(r);
    } else {
      LastHopEnds(r);
    }
  }

  lemma SuccessIsTheLastHops(r: Run)
    requires Legal(r) && r.exit.Ok?
    ensures r.log.hops != [] && r.log.hops[|r.log.hops| - 1].exit == r.exit
  {
  }

  lemma CallExplained(r: Run, k: nat)
    requires Legal(r) && k < |r.log.calls|
    ensures |r.log.exchanges| == |r.log.calls| && Explains(r.log.exchanges[k], r.log.calls[k], RunTerms(r))
  {
  }

  /** A success is the response of the last provider exchange, which ended before the deadline. */
  lemma {:induction false} SuccessIsGenuine(r: Run)
    requires Legal(r) && r.exit.Ok?
    ensures r.log.exchanges != []
    ensures var last := r.log.exchanges[|r.log.exchanges| - 1];
            last.answer == Replied(r.exit) && last.ended < r.deadline
  {
    hide Legal;
    SuccessIsTheLastHops(r);
    LastHopEnds(r);
    HopIsGood(r, |r.log.hops| - 1);
    CallExplained(r, |r.log.calls| - 1);
    CallIsGood(r, |r.log.calls| - 1);
  }

  /** A hop's next call follows only a transport error, a timeout, throttling or a provider error. */
  lemma {:induction false} RetriesOnlyAfter(r: Run, k: nat)
    requires Legal(r) && k + 1 < |r.log.calls| && r.log.calls[k].hop == r.log.calls[k + 1].hop
    ensures r.log.calls[k].fate.Failed?
    ensures var e := r.log.calls[k].fate.error;
            e.NetworkError? || e.TimeoutError? || e.RateLimitExceeded? || e.ApiCallFailed?
  {
    hide Legal;
    NextFollows(r, k);
  }

  /** The hop's last call failed with a transport error, a timeout, throttling or a provider error. */
  predicate LastFailedTransiently(calls: seq<Call>, h: Hop) {
    && h.count > 0 && h.first + h.count <= |calls|
    && var fate := calls[h.first + h.count - 1].fate;
       fate.Failed? && (fate.error.NetworkError? || fate.error.TimeoutError? || fate.error.RateLimitExceeded? || fate.error.ApiCallFailed?)
  }

  /** What keeps a hop from a retry after `e`: the deadline has passed, the sampled backoff is longer
      than the time left, the request is cancelled in the wait, or the provider's minimum no longer
      fits, in which case the hop fails with that error. */
  predicate KeptFromRetry(h: Hop, e: ExecutorError, deadline: nat, capMs: nat) {
    || (h.exit == Err(DeadlineExceeded) && deadline <= h.ended)
    || (h.exit == Err(DeadlineExceeded) && h.waiting.Some? && !(e.RateLimitExceeded? && e.retryAfterMs.Some?)
        && var p := h.waiting.value;
           Since(deadline, p.readAt) < Millis(Retry.JitteredBackoffMs(p.number, WholeMillis(Millis(capMs)), p.raw)))
    || (h.exit == Cancelled && h.waiting.Some?)
    || (h.exit == Err(e) && e.RateLimitExceeded? && e.retryAfterMs.Some? && deadline < h.ended + Millis(e.retryAfterMs.value))
  }

  lemma HopGivesUp(h: Hop, index: nat, calls: seq<Call>, terms: Terms)
    requires HopOK(h, index, calls, terms) && h.admission.Granted? && LastFailedTransiently(calls, h)
    requires h.count < (if h.admission.kind.ProbePermit? then 1 else terms.maxRetries + 1) && h.first + h.count < terms.maxTotal
    ensures KeptFromRetry(h, calls[h.first + h.count - 1].fate.error, terms.deadline, terms.capMs)
  {
    hide HopCalls, SettlementFor, Retry.JitteredBackoffMs, WholeMillis;
  }

  /** Each of these is retried while an attempt of the hop and one of the request are left, unless the
      deadline or the wait keeps it. */
  lemma {:induction false} RetriesBeforeGivingUp(r: Run, h: nat)
    requires h < |r.log.hops| && r.log.hops[h].admission.Granted? && LastFailedTransiently(r.log.calls, r.log.hops[h])
    requires r.log.hops[h].count < (if r.log.hops[h].admission.kind.ProbePermit? then 1 else r.config.maxRetries + 1)
    requires r.log.hops[h].first + r.log.hops[h].count < Max(r.config.maxTotalAttempts, 1)
    requires Legal(r)
    ensures KeptFromRetry(r.log.hops[h], r.log.calls[r.log.hops[h].first + r.log.hops[h].count - 1].fate.error, r.deadline, r.config.backoffCapMs)
  {
    hide Legal;
    HopIsGood(r, h);
    HopGivesUp(r.log.hops[h], h, r.log.calls, RunTerms(r));
  }

  /** A later target is asked for only after one that its circuit refused, or whose last call failed
      with a transport error, a timeout or a provider error. */
  lemma {:induction false} SwitchesOnlyAfter(r: Run, i: nat)
    requires Legal(r) && i + 1 < |r.log.hops|
    ensures var h := r.log.hops[i];
            || (h.admission.Refused? && h.count == 0)
            || (&& h.count > 0 && h.first + h.count <= |r.log.calls|
                && var last := r.log.calls[h.first + h.count - 1];
                   && last.fate.Failed? && h.exit == Err(last.fate.error)
                   && (last.fate.error.NetworkError? || last.fate.error.TimeoutError? || last.fate.error.ApiCallFailed?))
  {
    hide Legal;
    HopsInOrder(r, i, i + 1);
    HopIsGood(r, i);
  }

  /** When a request fails although its last target was refused by its circuit, or failed with a
      transport error, a timeout or a provider error, every fallback that can serve the tokens was
      asked for, or the request's attempts were spent. */
  lemma {:induction false} FallsBackBeforeGivingUp(r: Run, q: nat)
    requires Legal(r) && r.exit.Err? && !r.exit.error.DeadlineExceeded? && r.log.hops != []
    requires var last := r.log.hops[|r.log.hops| - 1];
             || last.admission.Refused?
             || (last.exit.Err? && (last.exit.error.NetworkError? || last.exit.error.TimeoutError? || last.exit.error.ApiCallFailed?))
    requires 1 <= q < |Chain(r.plan)|
    requires r.payload.maxTokens.Some? ==> r.payload.maxTokens.value <= Min(Chain(r.plan)[q].maxOutputTokens, U32_MAX)
    ensures (exists i :: 0 <= i < |r.log.hops| && r.log.hops[i].position == q) || |r.log.calls| == Max(r.config.maxTotalAttempts, 1)
  {
    hide Legal, Tried;
    LastLookedAt(r);
    HopIsGood(r, |r.log.hops| - 1);
    CallsWithinTotal(r);
    TriedGives(r.log, Chain(r.plan), RunTerms(r), q);
  }

  lemma TriedGives(log: Log, chain: seq<RoutePlan>, terms: Terms, q: nat)
    requires Tried(log, chain, terms, |chain|) && 1 <= q < |chain|
    ensures DealtWith(log, chain, terms, q)
  {
  }

  // ----- accounting --------------------------------------------------------------------

  /** On every exit, cancellation included: one outcome per started call, of its class; retries are
      the calls that were not the first of their hop; usage is recorded once, for the target of
      the last call, exactly on success; the deadline once, exactly on the deadline error. */
  lemma {:induction false} Accounted(r: Run)
    requires Legal(r)
    ensures |r.log.outcomes| == |r.log.calls|
    ensures forall k :: 0 <= k < |r.log.calls| ==> r.log.outcomes[k] == (r.log.calls[k].target, OutcomeOf(r.log.calls[k].fate))
    ensures r.log.retries == |r.log.calls| - ActiveHops(r.log.hops) && |r.log.calls| <= r.log.retries + |r.log.hops|
    ensures if r.exit.Ok? then r.log.calls != [] && r.log.usages == [r.log.calls[|r.log.calls| - 1].target] else r.log.usages == []
    ensures r.log.deadlines == if r.exit == Err(DeadlineExceeded) then 1 else 0
  {
    ActiveHopsBounded(r.log.hops);
    if r.exit.Ok? {
      var n := |r.log.hops| - 1;
      assert HopOK(r.log.hops[n], n, r.log.calls, RunTerms(r));
    }
  }

  lemma {:induction false} ActiveHopsBounded(hops: seq<Hop>)
    ensures ActiveHops(hops) <= |hops|
  {
    if hops != [] {
      ActiveHopsBounded(hops[..|hops| - 1]);
    }
  }

  /** What each call is taken for, in terms of what the provider answered.  Unless the deadline passed or
      the request was dropped meanwhile, it is the response or error replied; of a call that reached its
      cutoff it is the error last observed, and without one a timeout of the time it was given, in
      whole milliseconds. */
  lemma {:induction false} AnswersTold(r: Run, k: nat)
    requires Legal(r) && k < |r.log.calls|
    ensures k < |r.log.exchanges|
    ensures var answer, c := r.log.exchanges[k].answer, r.log.calls[k];
            && (c.fate.Abandoned? <==> answer.Interrupted?)
            && (!answer.Interrupted? ==> (c.fate.Overran? <==> r.deadline <= c.over))
            && (c.fate.Succeeded? ==> answer == Replied(Ok(c.fate.response)))
            && (c.fate.Failed? ==> answer.Replied? || answer.Elapsed?)
            && (c.fate.Failed? && answer.Replied? ==> answer.reply == Err(c.fate.error))
            && (c.fate.Failed? && answer.Elapsed? && answer.observed.Some? ==> c.fate.error == answer.observed.value)
            && (c.fate.Failed? && answer.Elapsed? && answer.observed.None? ==>
                  && c.fate.error.TimeoutError?
                  && WholeMillis(Since(c.cutoff, r.log.exchanges[k].began)) <= c.fate.error.ms <= WholeMillis(Since(c.cutoff, c.start)))
  {
    hide Legal;
    CallExplained(r, k);
    CallIsGood(r, k);
  }

  /** The class each call is recorded under. */
  lemma {:induction false} OutcomesTold(r: Run, k: nat)
    requires Legal(r) && k < |r.log.calls|
    ensures k < |r.log.outcomes| && r.log.outcomes[k].0 == r.log.calls[k].target
    ensures var outcome, fate := r.log.outcomes[k].1, r.log.calls[k].fate;
            && (fate.Succeeded? <==> outcome == SuccessOutcome)
            && (fate.Overran? || fate == Abandoned(true) <==> outcome == DeadlineOutcome)
            && (fate == Abandoned(false) <==> outcome == CancelledOutcome)
            && (fate.Failed? && (fate.error.NetworkError? || fate.error.ApiCallFailed?) <==> outcome == RetryableOutcome)
            && (fate.Failed? && fate.error.TimeoutError? <==> outcome == TimeoutOutcome)
            && (fate.Failed? && fate.error.RateLimitExceeded? <==> outcome == RateLimitOutcome)
            && (fate.Failed? && fate.error.QuotaExceeded? <==> outcome == QuotaOutcome)
            && (fate.Failed? && fate.error.AuthenticationFailed? <==> outcome == UpstreamAuthOutcome)
            && (fate.Failed? && (fate.error.JsonError? || fate.error.InvalidUpstreamResult?) <==> outcome == ProtocolOutcome)
            && (fate.Failed? && fate.error.UpstreamRejected? <==> outcome == RejectedOutcome)
            && outcome != CircuitOpenOutcome
  {
    hide Legal;
    OutcomeRecorded(r, k);
  }

  lemma OutcomeRecorded(r: Run, k: nat)
    requires Legal(r) && k < |r.log.calls|
    ensures |r.log.outcomes| == |r.log.calls| && r.log.outcomes[k] == (r.log.calls[k].target, OutcomeOf(r.log.calls[k].fate))
  {
  }

  // ----- permits -----------------------------------------------------------------------

  /** Every granted permit is settled or dropped when its hop ends: success is reported exactly when
      the hop succeeded, a transient failure exactly when it failed with a transport error, a timeout
      or a provider error, a permanent one exactly when a probe failed with another error than the
      deadline; else the permit is dropped.  Success and transient failure are those of a started call,
      so a circuit is never blamed without one. */
  lemma {:induction false} PermitsSettled(r: Run, h: nat)
    requires Legal(r) && h < |r.log.hops|
    ensures var hop := r.log.hops[h];
            && (hop.admission.Refused? <==> hop.settlement == NoPermit)
            && (hop.admission.Granted? ==>
                  && (hop.settlement == Settled(Circuit.Success) <==> hop.exit.Ok?)
                  && (hop.settlement == Settled(Circuit.TransientFailure) <==>
                        hop.exit.Err? && (hop.exit.error.NetworkError? || hop.exit.error.TimeoutError? || hop.exit.error.ApiCallFailed?))
                  && (hop.settlement == Settled(Circuit.Permanent) <==>
                        && hop.exit.Err? && hop.admission.kind.ProbePermit? && !hop.exit.error.DeadlineExceeded?
                        && !hop.exit.error.NetworkError? && !hop.exit.error.TimeoutError? && !hop.exit.error.ApiCallFailed?))
    ensures var hop := r.log.hops[h];
            hop.settlement.Settled? ==>
              && hop.count > 0 && hop.first + hop.count <= |r.log.calls|
              && var fate := r.log.calls[hop.first + hop.count - 1].fate;
                 if hop.exit.Ok? then fate == Succeeded(hop.exit.response) else fate.Failed? && hop.exit == Err(fate.error)
    ensures h < |r.log.hops| - 1 && r.log.hops[h].admission.Granted? ==> r.log.hops[h].settlement == Settled(Circuit.TransientFailure)
  {
    hide Legal, Numbered, Justified, EndOK;
    HopIsGood(r, h);
    if h < |r.log.hops| - 1 {
      HopsInOrder(r, h, |r.log.hops| - 1);
    }
  }
}
