/** Readiness under concurrency: cached dependency probes, the default route's circuits and the
    drain flag, all read at different instants of one call while everything else moves on. */
module Readiness {
  import opened Prelude
  import Drain
  import Circuit

  datatype Dependency = Database | Upstream

  /** A dependency answered its probe at `ended`; the stamp taken for it was read at `stamp`. */
  datatype Success = Success(dependency: Dependency, ended: nat, stamp: nat)

  /** What one readiness call can observe, and all successful probes so far. */
  datatype World = World(
    clock: nat, process: Drain.Process, circuits: Circuit.Registry,
    databaseAt: Option<nat>, upstreamAt: Option<nat>, successes: seq<Success>)

  /** One atomic step of the process.  Taking a stamp and storing it are two steps, so a late
      store may replace a newer stamp. */
  datatype Move =
    | Wait(duration: nat)
    | Drains(drain: Drain.Event)
    | Circuits(circuit: Circuit.Event)
    | Answered(dependency: Dependency, ended: nat)
    | Store(number: nat)

  predicate Enabled(w: World, m: Move) {
    match m
    case Wait(_) => true
    case Drains(e) => Drain.Enabled(w.process, e)
    case Circuits(e) => Circuit.Enabled(w.circuits, e)
    case Answered(_, ended) => ended <= w.clock
    case Store(number) => number < |w.successes|
  }

  function Apply(policy: Circuit.Policy, w: World, m: Move): World
    requires Enabled(w, m)
  {
    match m
    case Wait(d) => w.(clock := w.clock + d)
    case Drains(e) => w.(process := Drain.Apply(w.process, e))
    case Circuits(e) => w.(circuits := Circuit.Apply(policy, w.circuits, e))
    case Answered(dependency, ended) => w.(successes := w.successes + [Success(dependency, ended, w.clock)])
    case Store(number) =>
      var s := w.successes[number];
      match s.dependency
      case Database => w.(databaseAt := Some(s.stamp))
      case Upstream => w.(upstreamAt := Some(s.stamp))
  }

  function CachedAt(w: World, dependency: Dependency): Option<nat> {
    if dependency == Database then w.databaseAt else w.upstreamAt
  }

  /** The stamp was taken for a real success of the dependency, no later than now. */
  ghost predicate Backed(w: World, dependency: Dependency, stamp: nat) {
    exists k :: 0 <= k < |w.successes| && w.successes[k].dependency == dependency
             && w.successes[k].ended <= w.successes[k].stamp == stamp <= w.clock
  }

  ghost predicate Inv(w: World) {
    && Drain.Inv(w.process)
    && (forall k :: 0 <= k < |w.successes| ==> w.successes[k].ended <= w.successes[k].stamp <= w.clock)
    && (w.databaseAt.Some? ==> Backed(w, Database, w.databaseAt.value))
    && (w.upstreamAt.Some? ==> Backed(w, Upstream, w.upstreamAt.value))
  }

  /** Time passes, successes accumulate, and drain is never undone. */
  ghost predicate Later(earlier: World, later: World) {
    && earlier.clock <= later.clock
    && |earlier.successes| <= |later.successes| && later.successes[..|earlier.successes|] == earlier.successes
    && Drain.After(earlier.process, later.process)
  }

  lemma BackedStays(earlier: World, later: World, dependency: Dependency, stamp: nat)
    requires Later(earlier, later) && Backed(earlier, dependency, stamp)
    ensures Backed(later, dependency, stamp)
  {
    var k :| 0 <= k < |earlier.successes| && earlier.successes[k].dependency == dependency
          && earlier.successes[k].ended <= earlier.successes[k].stamp == stamp <= earlier.clock;
    assert later.successes[..|earlier.successes|][k] == earlier.successes[k];
  }

  lemma {:induction false} MoveKeepsInv(policy: Circuit.Policy, w: World, m: Move)
    requires Inv(w) && Enabled(w, m)
    ensures Inv(Apply(policy, w, m)) && Later(w, Apply(policy, w, m))
  {
    var w' := Apply(policy, w, m);
    if m.Drains? {
      Drain.StepKeepsInv(w.process, m.drain);
    }
    assert Later(w, w');
    if w.databaseAt.Some? {
      BackedStays(w, w', Database, w.databaseAt.value);
    }
    if w.upstreamAt.Some? {
      BackedStays(w, w', Upstream, w.upstreamAt.value);
    }
    if m.Store? {
      assert Backed(w', w.successes[m.number].dependency, w.successes[m.number].stamp);
    }
  }

  lemma LaterTrans(a: World, b: World, c: World)
    requires Later(a, b) && Later(b, c)
    ensures Later(a, c)
  {
    assert c.successes[..|a.successes|] == b.successes[..|a.successes|];
  }

  /** The states passed through, oldest first. */
  ghost predicate Ordered(trace: seq<World>) {
    forall i, j :: 0 <= i <= j < |trace| ==> Later(trace[i], trace[j])
  }

  lemma OrderedExtends(trace: seq<World>, w: World)
    requires Ordered(trace) && trace != [] && Later(trace[|trace| - 1], w)
    ensures Ordered(trace + [w])
  {
    hide Later;
    forall i, j | 0 <= i <= j < |trace + [w]|
      ensures Later((trace + [w])[i], (trace + [w])[j])
    {
      if i < |trace| && j == |trace| {
        LaterTrans(trace[i], trace[|trace| - 1], w);
      } else if i == |trace| {
        LaterRefl(w);
      }
    }
  }

  lemma LaterRefl(w: World)
    ensures Later(w, w)
  {
  }

  // ----- one readiness call ------------------------------------------------------------

  /** One reading of a success cache. */
  datatype Look = Look(cached: Option<nat>, readAt: nat)

  /** How a dependency check ended: a fresh cached stamp, or after a stale one this call's own
      success, no service to ask, or a failed or timed-out probe. */
  datatype Evidence =
    | Cached(look: Look)
    | Probed(look: Look, number: nat, call: nat)
    | NotConfigured(look: Look)
    | ProbeFailed(look: Look, call: nat)

  predicate Healthy(e: Evidence) {
    e.Cached? || e.Probed?
  }

  /** Where a dependency check stands between two awaits. */
  datatype Check = Reading | Calling(look: Look) | Storing(look: Look, number: nat, call: nat) | Finished(evidence: Evidence)

  datatype Response = Response(ready: bool, draining: bool, database: bool, upstream: bool, defaultRoute: bool)

  predicate Fresh(stamp: nat, now: nat, ttl: nat) {
    ttl > 0 && Since(now, stamp) < ttl
  }

  predicate Stale(look: Look, ttl: nat) {
    look.cached.None? || !Fresh(look.cached.value, look.readAt, ttl)
  }

  /** The cache was read so at one of the states from number `since` on. */
  ghost predicate Looked(trace: seq<World>, since: nat, dependency: Dependency, look: Look) {
    exists n :: since <= n < |trace| && CachedAt(trace[n], dependency) == look.cached && trace[n].clock == look.readAt
  }

  predicate Usable(w: World, target: string) {
    Circuit.At(w.circuits, target).phase.Closed?
  }

  /** One dependency call of a readiness call, whether it succeeded and when it ended. */
  datatype Asked = Asked(dependency: Dependency, answered: bool, at: nat)

  /** What the evidence of a check says, for a call that began at state number `since`. */
  ghost predicate Means(trace: seq<World>, asked: seq<Asked>, since: nat, ttl: nat, asks: bool, dependency: Dependency, e: Evidence) {
    && since < |trace| && Looked(trace, since, dependency, e.look)
    && var now := trace[|trace| - 1];
       match e
       case Cached(look) => !Stale(look, ttl) && Backed(now, dependency, look.cached.value)
       case Probed(look, number, call) =>
         && Stale(look, ttl) && asks
         && number < |now.successes| && now.successes[number].dependency == dependency
         && trace[since].clock <= now.successes[number].ended
         && call < |asked| && asked[call] == Asked(dependency, true, now.successes[number].ended)
       case NotConfigured(look) => Stale(look, ttl) && !asks
       case ProbeFailed(look, call) => Stale(look, ttl) && asks && call < |asked| && asked[call].dependency == dependency && !asked[call].answered
  }

  ghost predicate Stands(trace: seq<World>, asked: seq<Asked>, since: nat, ttl: nat, asks: bool, dependency: Dependency, c: Check) {
    match c
    case Reading => true
    case Calling(look) => Looked(trace, since, dependency, look) && Stale(look, ttl) && asks
    case Storing(look, number, call) => Means(trace, asked, since, ttl, asks, dependency, Probed(look, number, call))
    case Finished(e) => Means(trace, asked, since, ttl, asks, dependency, e)
  }

  function Rank(c: Check): nat {
    match c
    case Reading => 3
    case Calling(_) => 2
    case Storing(_, _, _) => 1
    case Finished(_) => 0
  }

  lemma LookedStays(trace: seq<World>, trace': seq<World>, since: nat, dependency: Dependency, look: Look)
    requires Looked(trace, since, dependency, look) && |trace| <= |trace'| && trace'[..|trace|] == trace
    ensures Looked(trace', since, dependency, look)
  {
    var n :| since <= n < |trace| && CachedAt(trace[n], dependency) == look.cached && trace[n].clock == look.readAt;
    assert trace'[..|trace|][n] == trace[n];
  }

  /** A check stands while others move and this service asks on. */
  lemma StandsStill(trace: seq<World>, trace': seq<World>, asked: seq<Asked>, asked': seq<Asked>, since: nat, ttl: nat, asks: bool,
                    dependency: Dependency, c: Check)
    requires Stands(trace, asked, since, ttl, asks, dependency, c) && trace != []
    requires |trace| <= |trace'| && trace'[..|trace|] == trace && Ordered(trace')
    requires |asked| <= |asked'| && asked'[..|asked|] == asked
    ensures Stands(trace', asked', since, ttl, asks, dependency, c)
  {
    if c.Reading? {
      return;
    }
    var look := if c.Finished? then c.evidence.look else c.look;
    LookedStays(trace, trace', since, dependency, look);
    var now, now' := trace[|trace| - 1], trace'[|trace'| - 1];
    assert trace'[..|trace|][|trace| - 1] == now;
    assert Later(now, now');
    if c.Finished? && c.evidence.Cached? {
      BackedStays(now, now', dependency, look.cached.value);
    }
    if c.Storing? || c.Finished? {
      assert trace'[..|trace|][since] == trace[since];
    }
    if c.Storing? || (c.Finished? && c.evidence.Probed?) {
      var number := if c.Storing? then c.number else c.evidence.number;
      assert now'.successes[..|now.successes|][number] == now.successes[number];
      var call := if c.Storing? then c.call else c.evidence.call;
      assert asked'[..|asked|][call] == asked[call];
    } else if c.Finished? && c.evidence.ProbeFailed? {
      assert asked'[..|asked|][c.evidence.call] == asked[c.evidence.call];
    }
  }

  lemma LookedNow(trace: seq<World>, since: nat, dependency: Dependency, look: Look)
    requires since < |trace| && look == Look(CachedAt(trace[|trace| - 1], dependency), trace[|trace| - 1].clock)
    ensures Looked(trace, since, dependency, look)
  {
  }

  lemma CachedIsBacked(w: World, dependency: Dependency)
    requires Inv(w) && CachedAt(w, dependency).Some?
    ensures Backed(w, dependency, CachedAt(w, dependency).value)
  {
  }

  lemma EndedLater(trace: seq<World>, i: nat, j: nat)
    requires Ordered(trace) && i <= j < |trace|
    ensures trace[i].clock <= trace[j].clock
  {
    assert Later(trace[i], trace[j]);
  }

  /** What a readiness call gathered; `seen[i]` numbers the state in which target `i` was looked at. */
  datatype Checks = Checks(database: Evidence, upstream: Evidence, seen: seq<nat>, usable: bool)

  /** Targets were looked at in order until the first usable one. */
  ghost predicate RouteSeen(trace: seq<World>, since: nat, route: Option<seq<string>>, seen: seq<nat>, usable: bool) {
    && (forall i :: 0 <= i < |seen| ==> since <= seen[i] < |trace|)
    && (usable ==>
          && route.Some? && 0 < |seen| <= |route.value|
          && Usable(trace[seen[|seen| - 1]], route.value[|seen| - 1]))
    && (!usable && route.Some? ==>
          && |seen| == |route.value|
          && forall i :: 0 <= i < |seen| ==> !Usable(trace[seen[i]], route.value[i]))
  }

  /** While draining, a dependency's status only says whether its cache held a stamp when read. */
  ghost predicate StampSeen(trace: seq<World>, since: nat, dependency: Dependency, status: bool) {
    exists n :: since <= n < |trace| && (status <==> CachedAt(trace[n], dependency).Some?)
  }

  lemma StampSeenStill(trace: seq<World>, trace': seq<World>, since: nat, since': nat, dependency: Dependency, status: bool)
    requires StampSeen(trace, since, dependency, status) && since' <= since
    requires |trace| <= |trace'| && trace'[..|trace|] == trace
    ensures StampSeen(trace', since', dependency, status)
  {
    var n :| since <= n < |trace| && (status <==> CachedAt(trace[n], dependency).Some?);
    assert trace'[..|trace|][n] == trace[n];
  }

  ghost predicate ChecksMean(trace: seq<World>, asked: seq<Asked>, since: nat, ttl: nat, hasAuth: bool, hasExecutor: bool,
                             route: Option<seq<string>>, c: Checks) {
    && Means(trace, asked, since, ttl, hasAuth, Database, c.database)
    && Means(trace, asked, since, ttl, hasExecutor, Upstream, c.upstream)
    && RouteSeen(trace, since, route, c.seen, c.usable)
  }

  function ResponseTo(c: Checks, draining: bool): Response {
    Response(!draining && Healthy(c.database) && Healthy(c.upstream) && c.usable, draining,
             Healthy(c.database), Healthy(c.upstream), c.usable)
  }

  lemma MeansStill(trace: seq<World>, trace': seq<World>, asked: seq<Asked>, since: nat, ttl: nat, asks: bool, dependency: Dependency, e: Evidence)
    requires Means(trace, asked, since, ttl, asks, dependency, e)
    requires |trace| <= |trace'| && trace'[..|trace|] == trace && Ordered(trace')
    ensures Means(trace', asked, since, ttl, asks, dependency, e)
  {
    StandsStill(trace, trace', asked, asked, since, ttl, asks, dependency, Finished(e));
  }

  lemma RouteSeenStill(trace: seq<World>, trace': seq<World>, since: nat, since': nat, route: Option<seq<string>>, seen: seq<nat>, usable: bool)
    requires RouteSeen(trace, since, route, seen, usable) && since' <= since
    requires |trace| <= |trace'| && trace'[..|trace|] == trace
    ensures RouteSeen(trace', since', route, seen, usable)
  {
    hide Usable;
    forall k | 0 <= k < |trace|
      ensures trace'[k] == trace[k]
    {
      assert trace'[..|trace|][k] == trace[k];
    }
  }

  lemma PrefixTrans(a: seq<World>, b: seq<World>, c: seq<World>)
    requires |a| <= |b| <= |c| && b[..|a|] == a && c[..|b|] == b
    ensures c[..|a|] == a
  {
    assert c[..|a|] == c[..|b|][..|a|];
  }

  lemma DrainStays(trace: seq<World>, i: nat, j: nat)
    requires Ordered(trace) && i <= j < |trace|
    ensures trace[i].process.draining ==> trace[j].process.draining
  {
    assert Later(trace[i], trace[j]);
  }

  /** The dependency really answered: during the call, or with a stamp younger than the TTL when
      the call read it. */
  ghost predicate Reached(trace: seq<World>, since: nat, ttl: nat, dependency: Dependency) {
    && since < |trace|
    && var now := trace[|trace| - 1];
       exists k :: 0 <= k < |now.successes| && now.successes[k].dependency == dependency
                && (|| trace[since].clock <= now.successes[k].ended
                    || (&& now.successes[k].ended <= now.successes[k].stamp && ttl > 0
                        && exists n :: since <= n < |trace| && trace[n].clock - now.successes[k].stamp < ttl))
  }

  lemma HealthyIsReached(trace: seq<World>, asked: seq<Asked>, since: nat, ttl: nat, asks: bool, dependency: Dependency, e: Evidence)
    requires Means(trace, asked, since, ttl, asks, dependency, e) && Healthy(e)
    ensures Reached(trace, since, ttl, dependency)
  {
    var now := trace[|trace| - 1];
    match e
    case Cached(look) =>
      var n :| since <= n < |trace| && CachedAt(trace[n], dependency) == look.cached && trace[n].clock == look.readAt;
      var k :| 0 <= k < |now.successes| && now.successes[k].dependency == dependency
            && now.successes[k].ended <= now.successes[k].stamp == look.cached.value <= now.clock;
      assert trace[n].clock - now.successes[k].stamp < ttl;
    case Probed(look, number, _) =>
      assert trace[since].clock <= now.successes[number].ended;
    case _ =>
  }

  /** A ready answer: both dependencies really answered in time, some default-route target was
      usable at a state of the call, and the drain flag was unset up to the answer. */
  lemma {:induction false} ReadyIsJustified(trace: seq<World>, asked: seq<Asked>, since: nat, ttl: nat, hasAuth: bool, hasExecutor: bool,
                                            route: Option<seq<string>>, c: Checks)
    requires Ordered(trace) && trace != [] && ChecksMean(trace, asked, since, ttl, hasAuth, hasExecutor, route, c)
    requires ResponseTo(c, trace[|trace| - 1].process.draining).ready
    ensures Reached(trace, since, ttl, Database) && Reached(trace, since, ttl, Upstream)
    ensures route.Some? && exists i, n :: 0 <= i < |route.value| && since <= n < |trace| && Circuit.At(trace[n].circuits, route.value[i]).phase.Closed?
    ensures forall n :: 0 <= n < |trace| ==> !trace[n].process.draining
  {
    hide Means, Reached, Ordered;
    HealthyIsReached(trace, asked, since, ttl, hasAuth, Database, c.database);
    HealthyIsReached(trace, asked, since, ttl, hasExecutor, Upstream, c.upstream);
    var n := c.seen[|c.seen| - 1];
    assert Circuit.At(trace[n].circuits, route.value[|c.seen| - 1]).phase.Closed?;
    forall m | 0 <= m < |trace|
      ensures !trace[m].process.draining
    {
      DrainStays(trace, m, |trace| - 1);
    }
  }

  /** At a state of the call no success was cached, or the cached one was no younger than the TTL; and
      the dependency could not be asked, or did not answer when asked. */
  ghost predicate Unreached(trace: seq<World>, asked: seq<Asked>, since: nat, ttl: nat, asks: bool, dependency: Dependency) {
    && (exists n :: since <= n < |trace|
          && var cached := if dependency == Database then trace[n].databaseAt else trace[n].upstreamAt;
             cached.None? || ttl <= trace[n].clock - cached.value || ttl == 0)
    && (!asks || exists call :: 0 <= call < |asked| && asked[call].dependency == dependency && !asked[call].answered)
  }

  lemma UnhealthyIsUnreached(trace: seq<World>, asked: seq<Asked>, since: nat, ttl: nat, asks: bool, dependency: Dependency, e: Evidence)
    requires Means(trace, asked, since, ttl, asks, dependency, e) && !Healthy(e)
    ensures Unreached(trace, asked, since, ttl, asks, dependency)
  {
    var n :| since <= n < |trace| && CachedAt(trace[n], dependency) == e.look.cached && trace[n].clock == e.look.readAt;
    assert (if dependency == Database then trace[n].databaseAt else trace[n].upstreamAt) == e.look.cached;
  }

  /** Why a call that made its checks answered that it is not ready. */
  lemma {:induction false} NotReadyIsJustified(trace: seq<World>, asked: seq<Asked>, since: nat, ttl: nat, hasAuth: bool, hasExecutor: bool,
                                               route: Option<seq<string>>, c: Checks)
    requires trace != [] && ChecksMean(trace, asked, since, ttl, hasAuth, hasExecutor, route, c)
    requires !ResponseTo(c, trace[|trace| - 1].process.draining).ready
    ensures || trace[|trace| - 1].process.draining
            || Unreached(trace, asked, since, ttl, hasAuth, Database)
            || Unreached(trace, asked, since, ttl, hasExecutor, Upstream)
            || route.None?
            || (forall i :: 0 <= i < |route.value| ==> exists n :: since <= n < |trace| && !Circuit.At(trace[n].circuits, route.value[i]).phase.Closed?)
  {
    hide Means, Unreached;
    if !Healthy(c.database) {
      UnhealthyIsUnreached(trace, asked, since, ttl, hasAuth, Database, c.database);
    } else if !Healthy(c.upstream) {
      UnhealthyIsUnreached(trace, asked, since, ttl, hasExecutor, Upstream, c.upstream);
    } else if !trace[|trace| - 1].process.draining && route.Some? {
      forall i | 0 <= i < |route.value|
        ensures exists n :: since <= n < |trace| && !Circuit.At(trace[n].circuits, route.value[i]).phase.Closed?
      {
        assert !Usable(trace[c.seen[i]], route.value[i]);
      }
    }
  }

  /** `defaultRoute`: the targets of the catalog's default route, if settings were injected and
      name one. */
  class HealthService {
    const policy: Circuit.Policy
    const ttl: nat
    const hasAuth: bool
    const hasExecutor: bool
    const defaultRoute: Option<seq<string>>
    var world: World
    /** Dependency calls of the latest readiness call. */
    var asked: seq<Asked>
    ghost var trace: seq<World>

    ghost predicate Valid()
      reads this
    {
      Inv(world) && Ordered(trace) && trace != [] && trace[|trace| - 1] == world
    }

    predicate Asks(dependency: Dependency) {
      match dependency
      case Database => hasAuth
      case Upstream => hasExecutor
    }

    /** The trace has grown. */
    ghost predicate Grew(earlier: seq<World>)
      reads this
    {
      |earlier| <= |trace| && trace[..|earlier|] == earlier
    }

    ghost predicate AskedSince(earlier: seq<Asked>)
      reads this
    {
      |earlier| <= |asked| && asked[..|earlier|] == earlier
    }

    method Move(m: Move)
      requires Valid() && Enabled(world, m)
      modifies this`world, this`trace
      ensures Valid() && trace == old(trace) + [world] && world == Apply(policy, old(world), m)
    {
      hide Inv, Later;
      MoveKeepsInv(policy, world, m);
      OrderedExtends(trace, Apply(policy, world, m));
      world := Apply(policy, world, m);
      trace := trace + [world];
    }

    /** Anything else in the process, including other readiness calls. */
    method Others()
      requires Valid()
      modifies this`world, this`trace
      ensures Valid() && Grew(old(trace))
    {
      hide Inv, Ordered;
      var n: nat :| true;
      while n > 0
        invariant Valid() && Grew(old(trace))
      {
        var m: Move :| true;
        if Enabled(world, m) {
          Move(m);
        }
        n := n - 1;
      }
    }

    /** The dependency answers, fails or times out. */
    method Ask(dependency: Dependency) returns (answered: bool)
      requires Valid()
      modifies this`world, this`trace, this`asked
      ensures Valid() && Grew(old(trace)) && asked == old(asked) + [Asked(dependency, answered, world.clock)]
    {
      Others();
      answered :| true;
      asked := asked + [Asked(dependency, answered, world.clock)];
    }

    // ----- dependency checks -----------------------------------------------------------

    /** The dependency is asked; its success is stamped with a later reading of the clock. */
    method FinishCall(dependency: Dependency, look: Look, ghost since: nat) returns (next: Check)
      requires Valid() && since < |trace|
      requires Stands(trace, asked, since, ttl, Asks(dependency), dependency, Calling(look))
      modifies this`world, this`trace, this`asked
      ensures Valid() && Grew(old(trace)) && AskedSince(old(asked))
      ensures Stands(trace, asked, since, ttl, Asks(dependency), dependency, next)
      ensures |asked| == |old(asked)| + 1
      ensures Rank(next) < Rank(Calling(look))
    {
      hide Inv, Later, Ordered, Looked, Backed;
      var answered := Ask(dependency);
      StandsStill(old(trace), trace, old(asked), asked, since, ttl, Asks(dependency), dependency, Calling(look));
      if !answered {
        return Finished(ProbeFailed(look, |asked| - 1));
      }
      var ended := world.clock;
      ghost var replied := trace;
      Others();
      EndedLater(trace, since, |replied| - 1);
      EndedLater(trace, |replied| - 1, |trace| - 1);
      Move(Answered(dependency, ended));
      StandsStill(old(trace), trace, old(asked), asked, since, ttl, Asks(dependency), dependency, Calling(look));
      next := Storing(look, |world.successes| - 1, |asked| - 1);
    }

    /** `probe_database` or `probe_upstream` from one await to the next. */
    method StepCheck(dependency: Dependency, c: Check, ghost since: nat) returns (next: Check)
      requires Valid() && !c.Finished? && since < |trace|
      requires Stands(trace, asked, since, ttl, Asks(dependency), dependency, c)
      modifies this`world, this`trace, this`asked
      ensures Valid() && Grew(old(trace)) && AskedSince(old(asked))
      ensures Stands(trace, asked, since, ttl, Asks(dependency), dependency, next)
      ensures c.Reading? ==>
                && asked == old(asked)
                && var cached := if dependency == Database then world.databaseAt else world.upstreamAt;
                   (cached.Some? && 0 < ttl && world.clock - cached.value < ttl) <==> next == Finished(Cached(Look(cached, world.clock)))
      ensures c.Calling? ==> |asked| == |old(asked)| + 1
      ensures Rank(next) < Rank(c)
    {
      hide Inv, Later, Ordered, Looked, Backed;
      Others();
      StandsStill(old(trace), trace, asked, asked, since, ttl, Asks(dependency), dependency, c);
      match c {
        case Reading =>
          var look := Look(CachedAt(world, dependency), world.clock);
          LookedNow(trace, since, dependency, look);
          if look.cached.Some? && Fresh(look.cached.value, world.clock, ttl) {
            CachedIsBacked(world, dependency);
            return Finished(Cached(look));
          }
          if !Asks(dependency) {
            return Finished(NotConfigured(look));
          }
          next := Calling(look);
        case Calling(look) =>
          next := FinishCall(dependency, look, since);
        case Storing(look, number, call) =>
          Move(Store(number));
          StandsStill(old(trace), trace, asked, asked, since, ttl, Asks(dependency), dependency, c);
          next := Finished(Probed(look, number, call));
        case Finished(_) =>
      }
    }

    /** Both dependency checks, interleaved arbitrarily at their awaits. */
    method JoinChecks(ghost since: nat) returns (database: Evidence, upstream: Evidence)
      requires Valid() && since < |trace|
      modifies this`world, this`trace, this`asked
      ensures Valid() && Grew(old(trace)) && AskedSince(old(asked))
      ensures Means(trace, asked, since, ttl, hasAuth, Database, database)
      ensures Means(trace, asked, since, ttl, hasExecutor, Upstream, upstream)
    {
      hide Inv, Later, Ordered, Means, Rank;
      var d, u := Reading, Reading;
      while !(d.Finished? && u.Finished?)
        invariant Valid() && Grew(old(trace)) && AskedSince(old(asked))
        invariant Stands(trace, asked, since, ttl, hasAuth, Database, d)
        invariant Stands(trace, asked, since, ttl, hasExecutor, Upstream, u)
        decreases Rank(d) + Rank(u)
      {
        ghost var trace0, asked0 := trace, asked;
        var databaseNext: bool :| true;
        if u.Finished? || (databaseNext && !d.Finished?) {
          d := StepCheck(Database, d, since);
          StandsStill(trace0, trace, asked0, asked, since, ttl, hasExecutor, Upstream, u);
        } else {
          u := StepCheck(Upstream, u, since);
          StandsStill(trace0, trace, asked0, asked, since, ttl, hasAuth, Database, d);
        }
      }
      database, upstream := d.evidence, u.evidence;
    }

    /** Looks at the targets of the default route one by one. */
    method ProbeDefaultRoute() returns (usable: bool, ghost seen: seq<nat>)
      requires Valid()
      modifies this`world, this`trace
      ensures Valid() && Grew(old(trace))
      ensures RouteSeen(trace, |old(trace)| - 1, defaultRoute, seen, usable)
    {
      hide Inv, Ordered, Usable;
      seen := [];
      if defaultRoute.None? {
        return false, [];
      }
      var i := 0;
      while i < |defaultRoute.value|
        invariant Valid() && Grew(old(trace)) && |seen| == i <= |defaultRoute.value|
        invariant forall k :: 0 <= k < i ==> |old(trace)| - 1 <= seen[k] < |trace| && !Usable(trace[seen[k]], defaultRoute.value[k])
      {
        ghost var before := trace;
        Others();
        forall k | 0 <= k < |before|
          ensures trace[k] == before[k]
        {
          assert trace[..|before|][k] == before[k];
        }
        seen := seen + [|trace| - 1];
        if Usable(world, defaultRoute.value[i]) {
          return true, seen;
        }
        i := i + 1;
      }
      usable := false;
    }

    method IsDraining() returns (observed: bool)
      requires Valid()
      modifies this`world, this`trace
      ensures Valid() && Grew(old(trace))
      ensures observed <==> world.process.draining
    {
      Others();
      observed := world.process.draining;
    }

    /** The part of a readiness call after a first look at the drain flag found it unset. */
    method RunChecks(ghost since: nat) returns (response: Response, ghost checks: Checks)
      requires Valid() && since < |trace|
      modifies this`world, this`trace, this`asked
      ensures Valid() && Grew(old(trace)) && AskedSince(old(asked))
      ensures ChecksMean(trace, asked, since, ttl, hasAuth, hasExecutor, defaultRoute, checks)
      ensures response == ResponseTo(checks, world.process.draining)
    {
      hide Inv, Ordered, Means, RouteSeen;
      ghost var trace0 := trace;
      var d, u := JoinChecks(since);
      ghost var trace1 := trace;
      var usable, seen := ProbeDefaultRoute();
      ghost var trace2 := trace;
      var draining := IsDraining();
      MeansStill(trace1, trace, asked, since, ttl, hasAuth, Database, d);
      MeansStill(trace1, trace, asked, since, ttl, hasExecutor, Upstream, u);
      RouteSeenStill(trace2, trace, |trace1| - 1, since, defaultRoute, seen, usable);
      PrefixTrans(trace0, trace1, trace2);
      PrefixTrans(trace0, trace2, trace);
      checks := Checks(d, u, seen, usable);
      response := Response(!draining && Healthy(d) && Healthy(u) && usable, draining, Healthy(d), Healthy(u), usable);
    }

    /** The answer while draining: nothing is asked, cached stamps are reported whatever their age. */
    method ReportWhileDraining(ghost since: nat) returns (response: Response, ghost seen: seq<nat>)
      requires Valid() && since < |trace| && world.process.draining
      modifies this`world, this`trace
      ensures Valid() && Grew(old(trace)) && world.process.draining
      ensures response == Response(false, true, response.database, response.upstream, response.defaultRoute)
      ensures StampSeen(trace, since, Database, response.database) && StampSeen(trace, since, Upstream, response.upstream)
      ensures RouteSeen(trace, since, defaultRoute, seen, response.defaultRoute)
    {
      hide Inv, Ordered, RouteSeen, StampSeen;
      ghost var trace0 := trace;
      Others();
      var database := CachedStatus(since, Database);
      ghost var trace1 := trace;
      Others();
      var upstream := CachedStatus(since, Upstream);
      ghost var trace2 := trace;
      PrefixTrans(trace0, trace1, trace2);
      var usable;
      usable, seen := ProbeDefaultRoute();
      PrefixTrans(trace0, trace2, trace);
      PrefixTrans(trace1, trace2, trace);
      StampSeenStill(trace1, trace, since, since, Database, database);
      StampSeenStill(trace2, trace, since, since, Upstream, upstream);
      RouteSeenStill(trace, trace, |trace2| - 1, since, defaultRoute, seen, usable);
      DrainStays(trace, |trace0| - 1, |trace| - 1);
      response := Response(false, true, database, upstream, usable);
    }

    method CachedStatus(ghost since: nat, dependency: Dependency) returns (status: bool)
      requires Valid() && since < |trace|
      ensures StampSeen(trace, since, dependency, status)
    {
      hide Inv, Ordered;
      assert trace[|trace| - 1] == world;
      status := CachedAt(world, dependency).Some?;
    }

    /** `check_readiness`: the answer is the conjunction of what was read, each at some state of the
        call, the drain flag last. */
    method CheckReadiness() returns (response: Response, ghost checked: Option<Checks>, ghost looked: seq<nat>)
      requires Valid()
      modifies this`world, this`trace, this`asked
      ensures Valid() && Grew(old(trace))
      ensures checked.Some? ==>
                && ChecksMean(trace, asked, |old(trace)| - 1, ttl, hasAuth, hasExecutor, defaultRoute, checked.value)
                && response == ResponseTo(checked.value, world.process.draining)
      ensures checked.None? ==>
                && !response.ready && response.draining && world.process.draining && asked == []
                && StampSeen(trace, |old(trace)| - 1, Database, response.database)
                && StampSeen(trace, |old(trace)| - 1, Upstream, response.upstream)
                && RouteSeen(trace, |old(trace)| - 1, defaultRoute, looked, response.defaultRoute)
      ensures old(world.process.draining) ==> checked.None?
    {
      hide Inv, RouteSeen, ChecksMean, StampSeen;
      looked := [];
      asked := [];
      ghost var since := |trace| - 1;
      var draining := IsDraining();
      ghost var trace1 := trace;
      if draining {
        response, looked := ReportWhileDraining(since);
        PrefixTrans(old(trace), trace1, trace);
        return response, None, looked;
      }
      ghost var checks;
      response, checks := RunChecks(since);
      PrefixTrans(old(trace), trace1, trace);
      checked := Some(checks);
    }
  }
}
