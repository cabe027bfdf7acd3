/** Vocabulary of request execution: errors, plans, and the history one request leaves behind. */
module ExecutorModel {
  import opened Prelude
  import opened CircuitActs
  import Circuit
  import Retry

  // ----- errors ------------------------------------------------------------------------

  datatype ExecutorError =
    | UnsupportedVendor(vendor: string)
    | UnsupportedModel(model: string, vendor: string)
    | InvalidPayload(reason: string)
    | ApiCallFailed(reason: string)
    | RateLimitExceeded(vendor: string, retryAfterMs: Option<nat>)
    | AuthenticationFailed(vendor: string)
    | TimeoutError(ms: nat)
    | NetworkError(reason: string)
    | JsonError(reason: string)
    | NoVendorsConfigured
    | InvalidConfiguration
    | MissingPricing
    | InvalidUpstreamResult
    | UpstreamRejected
    | QuotaExceeded
    | DeadlineExceeded
    | CircuitOpen(vendor: string, openForMs: nat)

  /** Vendor adapters never report the request deadline or a local circuit. */
  type VendorError = e: ExecutorError | !e.DeadlineExceeded? && !e.CircuitOpen? witness QuotaExceeded

  const BUDGET_EXHAUSTED := ApiCallFailed("Max retries exceeded")

  predicate IsRetryable(e: ExecutorError) {
    e.NetworkError? || e.TimeoutError? || e.RateLimitExceeded? || e.ApiCallFailed?
  }

  predicate IsCircuitFailure(e: ExecutorError) {
    e.NetworkError? || e.TimeoutError? || e.ApiCallFailed?
  }

  predicate IsFallbackEligible(e: ExecutorError) {
    e.NetworkError? || e.TimeoutError? || e.ApiCallFailed? || e.CircuitOpen?
  }

  /** The provider's minimum wait carried by an error, in milliseconds. */
  function HintMs(e: ExecutorError): Option<nat> {
    if e.RateLimitExceeded? then e.retryAfterMs else None
  }

  /** The same as a duration, zero when there is none. */
  function Hint(e: ExecutorError): nat {
    match HintMs(e) case Some(ms) => Millis(ms) case None => 0
  }

  datatype AttemptOutcome =
    | SuccessOutcome | RetryableOutcome | TimeoutOutcome | RateLimitOutcome | QuotaOutcome | UpstreamAuthOutcome
    | ProtocolOutcome | RejectedOutcome | DeadlineOutcome | CancelledOutcome | CircuitOpenOutcome | InternalOutcome

  function OutcomeOfError(e: ExecutorError): AttemptOutcome {
    match e
    case NetworkError(_) => RetryableOutcome
    case ApiCallFailed(_) => RetryableOutcome
    case TimeoutError(_) => TimeoutOutcome
    case RateLimitExceeded(_, _) => RateLimitOutcome
    case QuotaExceeded => QuotaOutcome
    case AuthenticationFailed(_) => UpstreamAuthOutcome
    case JsonError(_) => ProtocolOutcome
    case InvalidUpstreamResult => ProtocolOutcome
    case UpstreamRejected => RejectedOutcome
    case DeadlineExceeded => DeadlineOutcome
    case CircuitOpen(_, _) => CircuitOpenOutcome
    case _ => InternalOutcome
  }

  // ----- requests ----------------------------------------------------------------------

  datatype RawConfig = Config(timeoutMs: nat, maxRetries: nat, maxTotalAttempts: nat, backoffCapMs: nat)

  /** Startup validation refuses an attempt timeout of zero. */
  type Config = c: RawConfig | 1 <= c.timeoutMs witness Config(1, 0, 1, 0)

  datatype RoutePlan = RoutePlan(
    vendorId: string, targetId: string, modelId: string, maxOutputTokens: nat, fallbackPlans: seq<RoutePlan>)

  /** The targets of a plan in catalog order, primary first. */
  function Chain(plan: RoutePlan): (chain: seq<RoutePlan>)
    ensures |chain| == 1 + |plan.fallbackPlans| && chain[0] == plan
  {
    [plan] + plan.fallbackPlans
  }

  /** The parts of the request payload the executor reads; absent messages are an invalid payload. */
  datatype Payload = Payload(messages: Option<string>, maxTokens: Option<int>)

  datatype Params = Params(messages: string, maxTokens: Option<int>)

  predicate SupportsTokens(plan: RoutePlan, maxTokens: Option<int>) {
    maxTokens.Some? && maxTokens.value > 0 ==>
      maxTokens.value <= U32_MAX && maxTokens.value <= plan.maxOutputTokens
  }

  /** How execution ends; `Cancelled` is the request future being dropped at an await. */
  datatype Exit = Ok(response: string) | Err(error: ExecutorError) | Cancelled

  predicate TimedOut(exit: Exit) {
    exit == Err(DeadlineExceeded)
  }

  /** An error other than the deadline. */
  predicate Fails(exit: Exit) {
    exit.Err? && !exit.error.DeadlineExceeded?
  }

  // ----- history -----------------------------------------------------------------------

  /** What the environment did with one provider call: a reply, nothing by the cutoff but possibly
      an observed error, or the request future was dropped. */
  datatype Answer = Replied(reply: Exit) | Elapsed(observed: Option<VendorError>) | Interrupted

  /** One provider call as the environment saw it. */
  datatype Exchange = Exchange(plan: RoutePlan, messages: string, sent: Option<int>, cutoff: nat, began: nat, ended: nat, answer: Answer)

  /** What the executor made of a started provider call.  `Overran`: the deadline had passed when
      its end was noticed, whatever it returned.  `Abandoned`: the request was cancelled meanwhile. */
  datatype Fate = Succeeded(response: string) | Failed(error: VendorError) | Overran | Abandoned(expired: bool)

  /** A wait decided before a retry: its number within the hop, the jitter sample, and when the
      time left was read. */
  datatype Pause = Pause(number: nat, raw: Option<nat>, readAt: nat)

  /** `waited` is the pause before a retry, `start` the clock reading the cutoff was computed from
      and `over` the deadline reading made when the call had ended; `hop` indexes the request's
      admissions. */
  datatype Call = Call(hop: nat, target: string, waited: Option<Pause>, start: nat, cutoff: nat, over: nat, fate: Fate)

  function OutcomeOf(fate: Fate): AttemptOutcome {
    match fate
    case Succeeded(_) => SuccessOutcome
    case Failed(e) => OutcomeOfError(e)
    case Overran => DeadlineOutcome
    case Abandoned(expired) => if expired then DeadlineOutcome else CancelledOutcome
  }

  datatype Admission = Refused(openForMs: nat) | Granted(kind: Circuit.PermitKind, ticket: nat)

  datatype Settlement = NoPermit | Settled(outcome: Circuit.Completion) | Dropped

  /** One circuit admission: the chain position it was for, the calls `first .. first + count` it
      made, how and when it ended and what became of its permit.  `waiting` is a pause decided
      after the last call that no further call followed. */
  datatype Hop = Hop(
    position: nat, target: string, admission: Admission, began: nat, first: nat, count: nat, exit: Exit,
    waiting: Option<Pause>, settlement: Settlement, ended: nat)

  /** Calls and admissions of one request, the metrics it recorded, what its environment saw
      (provider exchanges, circuit answers, whether the request was dropped), the number of
      fallbacks it has looked at, and the reading at which a throttled fallback's minimum wait was
      last compared with the time left. */
  datatype Log = Log(
    calls: seq<Call>,
    hops: seq<Hop>,
    outcomes: seq<(string, AttemptOutcome)>,
    retries: nat,
    fallbacks: seq<(string, string)>,
    usages: seq<string>,
    deadlines: nat,
    exchanges: seq<Exchange>,
    admissions: seq<(string, Admission)>,
    dropped: bool,
    considered: nat,
    judged: nat)

  const NO_HISTORY := Log([], [], [], 0, [], [], 0, [], [], false, 0, 0)

  /** What bounds a request: deadline, per-attempt maximum, requested tokens, retries per target,
      calls in total and the backoff cap; and what it asks of whom: its messages and its route. */
  datatype Terms = Terms(
    deadline: nat, maxAttempt: nat, maxTokens: Option<int>, maxRetries: nat, maxTotal: nat, capMs: nat,
    route: RoutePlan, messages: string)

  function TermsOf(config: Config, route: RoutePlan, payload: Payload, deadline: nat): Terms {
    Terms(deadline, Millis(config.timeoutMs), payload.maxTokens, config.maxRetries, Max(config.maxTotalAttempts, 1), config.backoffCapMs,
          route, if payload.messages.Some? then payload.messages.value else "")
  }

  /** The wait owed after failure `e`: the provider's minimum, else the sampled backoff. */
  function Owed(e: ExecutorError, p: Pause, capMs: nat): nat {
    match HintMs(e)
    case Some(ms) => Millis(ms)
    case None => Millis(Retry.JitteredBackoffMs(p.number, WholeMillis(Millis(capMs)), p.raw))
  }

  /** The wait owed can end by the deadline. */
  predicate Fits(e: ExecutorError, p: Pause, terms: Terms) {
    Owed(e, p, terms.capMs) <= Since(terms.deadline, p.readAt)
  }

  /** Timing of one call.  A call that succeeded or failed was over before the deadline. */
  predicate GoodCall(c: Call, terms: Terms) {
    && c.start < terms.deadline
    && c.cutoff == Min(c.start + terms.maxAttempt, terms.deadline)
    && c.start < c.cutoff && c.start <= c.over
    && (c.fate.Succeeded? || c.fate.Failed? ==> c.over < terms.deadline)
    && (c.fate.Overran? ==> terms.deadline <= c.over)
    && (c.fate.Abandoned? ==> (c.fate.expired <==> terms.deadline <= c.over))
  }

  /** When `b` may be the next call after `a`: a retry after a pause that was waited out in full,
      or the first call of a later hop. */
  predicate Follows(a: Call, b: Call, terms: Terms) {
    && a.fate.Failed? && a.over <= b.start && a.hop <= b.hop
    && (a.hop == b.hop ==>
          && a.target == b.target && IsRetryable(a.fate.error)
          && b.waited.Some? && a.over <= b.waited.value.readAt && Fits(a.fate.error, b.waited.value, terms)
          && b.waited.value.readAt + Owed(a.fate.error, b.waited.value, terms.capMs) <= b.start)
    && (a.hop < b.hop ==> IsFallbackEligible(a.fate.error))
  }

  lemma FirstFollows(a: Call, b: Call, terms: Terms)
    requires a.fate.Failed? && a.over <= b.start && a.hop < b.hop && IsFallbackEligible(a.fate.error)
    ensures Follows(a, b, terms)
  {
  }

  /** Call `i` of its hop, counted from zero. */
  predicate Numbered(c: Call, i: nat) {
    if i == 0 then c.waited.None? else c.waited.Some? && c.waited.value.number == i
  }

  ghost predicate CallsOK(calls: seq<Call>, terms: Terms) {
    && (forall i :: 0 <= i < |calls| ==> GoodCall(calls[i], terms))
    && (forall i, j :: 0 <= i < j < |calls| && j == i + 1 ==> Follows(calls[i], calls[j], terms))
  }

  /** The executor's classification agrees with what the environment answered: success with the
      provider's response, failure with its error, with the last observed error of a call that
      timed out, or else a timeout. */
  predicate Classified(answer: Answer, fate: Fate) {
    match fate
    case Succeeded(response) => answer == Replied(Ok(response))
    case Failed(e) =>
      (match answer
       case Replied(reply) => reply == Err(e)
       case Elapsed(Some(observed)) => e == observed
       case Elapsed(None) => e.TimeoutError?
       case Interrupted => false)
    case Overran => !answer.Interrupted?
    case Abandoned(_) => answer.Interrupted?
  }

  /** The call is the environment's exchange: with a target of the route as planned, the request's own
      messages and tokens, and the call's cutoff, within the call's readings. */
  predicate Explains(x: Exchange, c: Call, terms: Terms) {
    && x.plan in Chain(terms.route) && x.plan.targetId == c.target
    && x.messages == terms.messages && x.sent == terms.maxTokens && x.cutoff == c.cutoff
    && c.start <= x.began <= x.ended <= c.over
    && (x.answer.Elapsed? ==> x.cutoff <= x.ended)
    && VendorAnswer(x.answer)
    && Classified(x.answer, c.fate)
    && TimeoutTold(x, c)
  }

  /** A provider's reply is a response or a vendor's error. */
  predicate VendorAnswer(answer: Answer) {
    answer.Replied? ==>
      && !answer.reply.Cancelled?
      && (answer.reply.Err? ==> !answer.reply.error.DeadlineExceeded? && !answer.reply.error.CircuitOpen?)
  }

  /** An unobserved timeout tells the time the call was given, in whole milliseconds. */
  predicate TimeoutTold(x: Exchange, c: Call) {
    x.answer == Elapsed(None) && c.fate.Failed? ==>
      && c.fate.error.TimeoutError?
      && WholeMillis(Since(c.cutoff, x.began)) <= c.fate.error.ms <= WholeMillis(Since(c.cutoff, c.start))
  }

  /** A call that was noticed to be over at `c.over`, on the request's side of the deadline. */
  lemma CallEnded(c: Call, x: Exchange, terms: Terms)
    requires c.start < c.cutoff == Min(c.start + terms.maxAttempt, terms.deadline)
    requires x.plan in Chain(terms.route) && x.plan.targetId == c.target
    requires x == Exchange(x.plan, terms.messages, terms.maxTokens, c.cutoff, x.began, x.ended, x.answer) && c.start <= x.began <= x.ended <= c.over
    requires x.answer.Elapsed? ==> x.cutoff <= x.ended
    requires VendorAnswer(x.answer) && Classified(x.answer, c.fate) && TimeoutTold(x, c)
    requires match c.fate
             case Succeeded(_) => c.over < terms.deadline
             case Failed(_) => c.over < terms.deadline
             case Overran => terms.deadline <= c.over
             case Abandoned(expired) => expired <==> terms.deadline <= c.over
    ensures GoodCall(c, terms) && Explains(x, c, terms)
  {
  }

  /** One exchange and one recorded outcome per call, for its target and of its class. */
  ghost predicate AccountingOK(log: Log, terms: Terms) {
    && |log.outcomes| == |log.calls| == |log.exchanges|
    && (forall i :: 0 <= i < |log.calls| ==> log.outcomes[i] == (log.calls[i].target, OutcomeOf(log.calls[i].fate)))
    && (forall i :: 0 <= i < |log.calls| ==> Explains(log.exchanges[i], log.calls[i], terms))
  }

  /** The next hop, numbered `hop`, may start its calls at `clock`. */
  predicate MayContinue(calls: seq<Call>, hop: nat, clock: nat) {
    calls != [] ==>
      var last := calls[|calls| - 1];
      last.fate.Failed? && last.hop < hop && last.over <= clock && IsFallbackEligible(last.fate.error)
  }

  predicate FailedAs(c: Call, e: ExecutorError) {
    c.fate.Failed? && c.fate.error == e
  }

  predicate SucceededAs(c: Call, exit: Exit) {
    c.fate.Succeeded? && exit == Ok(c.fate.response)
  }

  /** A throttling error whose minimum wait no longer fits at `clock`. */
  predicate CannotFit(e: ExecutorError, deadline: nat, clock: nat) {
    Hint(e) > 0 && deadline < clock + Hint(e)
  }

  /** Why a hop that failed with `e` after `count` calls, `started` in all, did not retry. */
  predicate Justified(e: ExecutorError, count: nat, allowance: nat, started: nat, terms: Terms, clock: nat) {
    IsRetryable(e) ==> count == allowance || started >= terms.maxTotal || CannotFit(e, terms.deadline, clock)
  }

  // ----- attempts of one hop -----------------------------------------------------------

  /** A pause decided after the last of `count` calls, when a retry and a budget slot were left. */
  predicate Pausing(last: Call, p: Pause, count: nat, allowance: nat, started: nat, terms: Terms, ended: nat) {
    && last.fate.Failed? && IsRetryable(last.fate.error)
    && p.number == count < allowance && started < terms.maxTotal
    && last.over <= p.readAt <= ended
  }

  /** A hop without a pending pause ends as its last call did: a success, an error that is not
      retried, the deadline or cancellation end it at once. */
  predicate EndsAs(last: Call, exit: Exit) {
    match last.fate
    case Succeeded(_) => exit.Ok?
    case Failed(e) => if IsRetryable(e) then Fails(exit) || TimedOut(exit) else exit == Err(e)
    case Overran => TimedOut(exit)
    case Abandoned(_) => exit.Cancelled?
  }

  /** How a hop of `count` calls from `first` on may end with `exit`.  Without a pending pause the
      deadline is reported only when it has passed.  A pending pause that fits ends in cancellation
      or by the deadline passing; one that does not fit ends the hop at once, with the deadline if
      it is backoff and with the provider's error if it is a minimum of the provider. */
  predicate EndOK(exit: Exit, calls: seq<Call>, first: nat, count: nat, waiting: Option<Pause>, allowance: nat, terms: Terms, ended: nat)
    requires first + count <= |calls|
  {
    match waiting
    case None =>
      && (TimedOut(exit) ==> terms.deadline <= ended)
      && (if count > 0 then EndsAs(calls[first + count - 1], exit) else !exit.Ok? && !exit.Cancelled?)
    case Some(p) =>
      && count > 0
      && var last := calls[first + count - 1];
         && Pausing(last, p, count, allowance, first + count, terms, ended)
         && (if Fits(last.fate.error, p, terms) then
               (exit.Cancelled? && Owed(last.fate.error, p, terms.capMs) > 0) || (TimedOut(exit) && terms.deadline <= ended)
             else if HintMs(last.fate.error).Some? then Fails(exit)
             else TimedOut(exit))
  }

  /** Everything but the calls of a hop and the metrics they move is as before. */
  predicate SameElsewhere(l0: Log, l1: Log) {
    l1.hops == l0.hops && l1.fallbacks == l0.fallbacks && l1.admissions == l0.admissions && l1.considered == l0.considered && l1.judged == l0.judged
  }

  /** The `count` calls from `first` on are one hop's, begun at `began`. */
  ghost predicate HopCalls(calls: seq<Call>, first: nat, count: nat, hop: nat, target: string, began: nat) {
    && first + count <= |calls|
    && (forall k :: first <= k < first + count ==> calls[k].hop == hop && calls[k].target == target && Numbered(calls[k], k - first))
    && (count > 0 ==> began <= calls[first].start)
  }

  /** What one hop's attempts add to the history. */
  ghost predicate AttemptsRun(l0: Log, l1: Log, terms: Terms, hop: nat, target: string, maxRetries: nat, exit: Exit, hadBudget: bool,
                              waiting: Option<Pause>, began: nat, ended: nat) {
    var n0, n1 := |l0.calls|, |l1.calls|;
    && n0 <= n1 <= n0 + maxRetries + 1
    && l1.calls[..n0] == l0.calls
    && CallsOK(l1.calls, terms) && AccountingOK(l1, terms)
    && HopCalls(l1.calls, n0, n1 - n0, hop, target, began)
    && (n1 > n0 ==> l1.calls[n1 - 1].over <= ended)
    && l1.retries == l0.retries + (if n1 > n0 then n1 - n0 - 1 else 0)
    && l1.usages == l0.usages + (if exit.Ok? then [target] else [])
    && l1.deadlines == l0.deadlines + (if TimedOut(exit) then 1 else 0)
    && l1.dropped == (l0.dropped || exit.Cancelled?)
    && SameElsewhere(l0, l1)
    && EndOK(exit, l1.calls, n0, n1 - n0, waiting, maxRetries + 1, terms, ended)
    && (exit.Ok? ==> n1 > n0 && SucceededAs(l1.calls[n1 - 1], exit))
    && (Fails(exit) ==>
          if n1 > n0 then FailedAs(l1.calls[n1 - 1], exit.error) && Justified(exit.error, n1 - n0, maxRetries + 1, n1, terms, ended)
          else !hadBudget && exit.error == BUDGET_EXHAUSTED)
  }

  /** `n` attempts of one hop have been made since `l0`; no other metric has moved except that
      each attempt after the first was announced as a retry. */
  ghost predicate Progress(l0: Log, l: Log, terms: Terms, hop: nat, target: string, n: nat, began: nat) {
    && |l.calls| == |l0.calls| + n && l.calls[..|l0.calls|] == l0.calls
    && CallsOK(l.calls, terms) && AccountingOK(l, terms)
    && HopCalls(l.calls, |l0.calls|, n, hop, target, began)
    && l == l0.(calls := l.calls, outcomes := l.outcomes, exchanges := l.exchanges, retries := l0.retries + (if n == 0 then 0 else n - 1))
  }

  /** `Progress`, apart from the metrics a final attempt may have moved. */
  ghost predicate Progressed(l0: Log, l: Log, terms: Terms, hop: nat, target: string, n: nat, began: nat) {
    Progress(l0, l.(usages := l0.usages, deadlines := l0.deadlines, dropped := l0.dropped), terms, hop, target, n, began)
  }

  /** The last call failed with the retryable `lastError`, whose hint is pending. */
  predicate Pending(calls: seq<Call>, lastError: Option<ExecutorError>, retryAfterMs: Option<nat>, clock: nat) {
    && calls != []
    && var last := calls[|calls| - 1];
       && last.fate.Failed? && lastError == Some(last.fate.error) && IsRetryable(last.fate.error)
       && retryAfterMs == HintMs(last.fate.error) && last.over <= clock
  }

  /** The log after one more call `c`, with the exchange it was. */
  function WithCall(l: Log, c: Call, x: Exchange): Log {
    l.(calls := l.calls + [c],
       exchanges := l.exchanges + [x],
       outcomes := l.outcomes + [(c.target, OutcomeOf(c.fate))],
       usages := l.usages + (if c.fate.Succeeded? then [c.target] else []),
       deadlines := l.deadlines + (if c.fate.Overran? then 1 else 0),
       dropped := l.dropped || c.fate.Abandoned?)
  }

  lemma CallAdded(l: Log, c: Call, x: Exchange, terms: Terms)
    requires CallsOK(l.calls, terms) && AccountingOK(l, terms)
    requires GoodCall(c, terms) && (l.calls != [] ==> Follows(l.calls[|l.calls| - 1], c, terms)) && Explains(x, c, terms)
    ensures CallsOK(WithCall(l, c, x).calls, terms) && AccountingOK(WithCall(l, c, x), terms)
  {
    hide GoodCall, Follows, Explains;
  }

  lemma LastOfHop(calls: seq<Call>, first: nat, count: nat, hop: nat, target: string, began: nat)
    requires HopCalls(calls, first, count, hop, target, began) && count > 0
    ensures calls[first + count - 1].hop == hop && calls[first + count - 1].target == target
  {
  }

  lemma HopCallAdded(calls: seq<Call>, first: nat, count: nat, hop: nat, target: string, began: nat, c: Call)
    requires HopCalls(calls, first, count, hop, target, began) && first + count == |calls|
    requires c.hop == hop && c.target == target && Numbered(c, count) && (count == 0 ==> began <= c.start)
    ensures HopCalls(calls + [c], first, count + 1, hop, target, began)
  {
  }

  lemma ProgressExtends(l0: Log, l: Log, c: Call, x: Exchange, terms: Terms, hop: nat, target: string, n: nat, began: nat)
    requires Progress(l0, l.(retries := l0.retries + (if n == 0 then 0 else n - 1)), terms, hop, target, n, began)
    requires l.retries == l0.retries + n
    requires GoodCall(c, terms) && (l.calls != [] ==> Follows(l.calls[|l.calls| - 1], c, terms)) && c.hop == hop && c.target == target
    requires Numbered(c, n) && (n == 0 ==> began <= c.start)
    requires Explains(x, c, terms)
    ensures Progressed(l0, WithCall(l, c, x), terms, hop, target, n + 1, began)
    ensures c.fate.Failed? ==> Progress(l0, WithCall(l, c, x), terms, hop, target, n + 1, began)
  {
    hide CallsOK, GoodCall, Follows, Explains, HopCalls, Numbered;
    var l1 := WithCall(l, c, x);
    CallAdded(l, c, x, terms);
    HopCallAdded(l.calls, |l0.calls|, n, hop, target, began, c);
    assert l1.calls[..|l0.calls|] == l.calls[..|l0.calls|];
    if c.fate.Failed? {
      assert l1 == l1.(usages := l0.usages, deadlines := l0.deadlines, dropped := l0.dropped);
    }
  }

  lemma ExitBeforeCall(l0: Log, l: Log, l1: Log, terms: Terms, hop: nat, target: string, n: nat, maxRetries: nat, exit: Exit,
                       waiting: Option<Pause>, began: nat, ended: nat)
    requires Progress(l0, l, terms, hop, target, n, began) && n <= maxRetries && !exit.Ok?
    requires l1 == l.(deadlines := l.deadlines + (if TimedOut(exit) then 1 else 0), dropped := l.dropped || exit.Cancelled?)
    requires Fails(exit) ==> n > 0 && FailedAs(l.calls[|l.calls| - 1], exit.error) && CannotFit(exit.error, terms.deadline, ended)
    requires n > 0 ==> l.calls[|l.calls| - 1].over <= ended
    requires EndOK(exit, l.calls, |l0.calls|, n, waiting, maxRetries + 1, terms, ended)
    ensures AttemptsRun(l0, l1, terms, hop, target, maxRetries, exit, true, waiting, began, ended)
  {
    hide CallsOK, AccountingOK, HopCalls, EndOK;
    AccountingStays(l, l1, terms);
  }

  lemma ExitAfterCall(l0: Log, l1: Log, terms: Terms, hop: nat, target: string, n: nat, maxRetries: nat, exit: Exit, began: nat, ended: nat)
    requires Progressed(l0, l1, terms, hop, target, n + 1, began) && n <= maxRetries
    requires l1.usages == l0.usages + (if exit.Ok? then [target] else [])
    requires l1.deadlines == l0.deadlines + (if TimedOut(exit) then 1 else 0)
    requires l1.dropped == (l0.dropped || exit.Cancelled?)
    requires exit.Ok? ==> SucceededAs(l1.calls[|l1.calls| - 1], exit)
    requires Fails(exit) ==> FailedAs(l1.calls[|l1.calls| - 1], exit.error)
    requires Fails(exit) ==> Justified(exit.error, n + 1, maxRetries + 1, |l1.calls|, terms, ended)
    requires TimedOut(exit) ==> terms.deadline <= ended
    requires EndsAs(l1.calls[|l1.calls| - 1], exit)
    requires l1.calls[|l1.calls| - 1].over <= ended
    ensures AttemptsRun(l0, l1, terms, hop, target, maxRetries, exit, true, None, began, ended)
  {
    hide CallsOK, AccountingOK, HopCalls, Justified;
    AccountingStays(l1.(usages := l0.usages, deadlines := l0.deadlines, dropped := l0.dropped), l1, terms);
  }

  lemma AccountingStays(l0: Log, l1: Log, terms: Terms)
    requires AccountingOK(l0, terms)
    requires l1.calls == l0.calls && l1.outcomes == l0.outcomes && l1.exchanges == l0.exchanges
    ensures AccountingOK(l1, terms)
  {
  }

  lemma NoAttempts(l: Log, terms: Terms, hop: nat, target: string, began: nat)
    requires CallsOK(l.calls, terms) && AccountingOK(l, terms)
    ensures Progress(l, l, terms, hop, target, 0, began)
  {
    hide CallsOK, AccountingOK;
  }

  lemma HadBudgetOrNot(l0: Log, l1: Log, terms: Terms, hop: nat, target: string, maxRetries: nat, exit: Exit, hadBudget: bool,
                       waiting: Option<Pause>, began: nat, ended: nat)
    requires AttemptsRun(l0, l1, terms, hop, target, maxRetries, exit, true, waiting, began, ended)
    ensures AttemptsRun(l0, l1, terms, hop, target, maxRetries, exit, hadBudget, waiting, began, ended)
  {
    hide CallsOK, AccountingOK, HopCalls, EndOK;
  }

  /** The attempts or the budget are used up: the hop ends with its last error. */
  lemma GivesUp(l0: Log, l: Log, terms: Terms, hop: nat, target: string, n: nat, maxRetries: nat, lastError: Option<ExecutorError>,
                retryAfterMs: Option<nat>, hadBudget: bool, began: nat, ended: nat)
    requires Progress(l0, l, terms, hop, target, n, began) && n <= maxRetries + 1
    requires n == 0 ==> lastError.None? && !hadBudget
    requires n > 0 ==> Pending(l.calls, lastError, retryAfterMs, ended) && (n == maxRetries + 1 || |l.calls| >= terms.maxTotal)
    ensures AttemptsRun(l0, l, terms, hop, target, maxRetries, Err(if lastError.Some? then lastError.value else BUDGET_EXHAUSTED), hadBudget,
                        None, began, ended)
  {
    hide CallsOK, AccountingOK, HopCalls;
  }

  // ----- hops --------------------------------------------------------------------------

  /** What the executor does with a permit when its hop ends. */
  function SettlementFor(kind: Circuit.PermitKind, exit: Exit): Settlement {
    match exit
    case Ok(_) => Settled(Circuit.Success)
    case Cancelled => Dropped
    case Err(e) =>
      if e.DeadlineExceeded? then Dropped
      else if IsCircuitFailure(e) then Settled(Circuit.TransientFailure)
      else if kind.ProbePermit? then Settled(Circuit.Permanent)
      else Dropped
  }

  lemma SettlementByCases(kind: Circuit.PermitKind, exit: Exit, s: Settlement)
    requires s.Settled? || s.Dropped?
    requires exit.Ok? <==> s == Settled(Circuit.Success)
    requires Fails(exit) && IsCircuitFailure(exit.error) <==> s == Settled(Circuit.TransientFailure)
    requires Fails(exit) && !IsCircuitFailure(exit.error) && kind.ProbePermit? <==> s == Settled(Circuit.Permanent)
    ensures s == SettlementFor(kind, exit)
  {
    if s.Settled? {
      match s.outcome
      case Success =>
      case TransientFailure =>
      case Permanent =>
    }
  }

  function Allowance(kind: Circuit.PermitKind, maxRetries: nat): nat {
    if kind.ProbePermit? then 1 else maxRetries + 1
  }

  /** An admitted hop ends as its last call did, and gives up only for a reason; a refused one
      makes no call. */
  ghost predicate HopOK(h: Hop, index: nat, calls: seq<Call>, terms: Terms) {
    && HopCalls(calls, h.first, h.count, index, h.target, h.began)
    && h.first < terms.maxTotal && h.began <= h.ended && (h.count > 0 ==> calls[h.first + h.count - 1].over <= h.ended)
    && match h.admission
       case Refused(ms) =>
         && h.count == 0 && h.waiting.None? && h.settlement == NoPermit
         && h.exit.Err? && h.exit.error.CircuitOpen? && h.exit.error.openForMs == ms
       case Granted(kind, _) =>
         && h.count <= Allowance(kind, terms.maxRetries)
         && EndOK(h.exit, calls, h.first, h.count, h.waiting, Allowance(kind, terms.maxRetries), terms, h.ended)
         && h.settlement == SettlementFor(kind, h.exit)
         && (h.exit.Ok? ==> h.count > 0 && SucceededAs(calls[h.first + h.count - 1], h.exit))
         && (Fails(h.exit) ==>
               && h.count > 0 && FailedAs(calls[h.first + h.count - 1], h.exit.error)
               && Justified(h.exit.error, h.count, Allowance(kind, terms.maxRetries), h.first + h.count, terms, h.ended))
  }

  /** When `b` may be the next admission after `a`. */
  predicate HopFollows(a: Hop, b: Hop) {
    && b.first == a.first + a.count && a.position < b.position && a.ended <= b.began
    && a.exit.Err? && IsFallbackEligible(a.exit.error)
  }

  function Covered(hops: seq<Hop>): nat {
    if hops == [] then 0 else hops[|hops| - 1].first + hops[|hops| - 1].count
  }

  ghost predicate HopsOK(hops: seq<Hop>, calls: seq<Call>, terms: Terms) {
    && (forall i :: 0 <= i < |hops| ==> HopOK(hops[i], i, calls, terms))
    && (forall i, j :: 0 <= i < j < |hops| && j == i + 1 ==> HopFollows(hops[i], hops[j]))
    && (hops != [] ==> hops[0].first == 0)
    && Covered(hops) == |calls|
  }

  /** Each hop is one answer of the circuits, for its own target. */
  ghost predicate AdmissionsOK(hops: seq<Hop>, admissions: seq<(string, Admission)>) {
    && |admissions| == |hops|
    && (forall i :: 0 <= i < |hops| ==> admissions[i] == (hops[i].target, hops[i].admission))
  }

  /** What one hop does to the circuits: it asks, and ends a granted permit by settling or dropping
      it, if it does. */
  function HopActs(h: Hop): seq<Act> {
    match h.admission
    case Refused(_) => [Ask(h.target, No)]
    case Granted(kind, ticket) =>
      [Ask(h.target, Yes(kind, ticket))] +
      match h.settlement
      case NoPermit => []
      case Settled(outcome) => [End(ticket, Some(outcome))]
      case Dropped => [End(ticket, None)]
  }

  function ActsOf(hops: seq<Hop>): seq<Act> {
    if hops == [] then [] else ActsOf(hops[..|hops| - 1]) + HopActs(hops[|hops| - 1])
  }

  lemma ActsExtend(hops: seq<Hop>, h: Hop)
    ensures ActsOf(hops + [h]) == ActsOf(hops) + HopActs(h)
  {
    assert (hops + [h])[..|hops|] == hops;
  }

  /** What was done to the circuits before a hop and in it. */
  lemma HopActed(before: seq<Act>, acts: seq<Act>, hops: seq<Hop>, h: Hop)
    requires acts == before + ActsOf(hops) + HopActs(h)
    ensures acts == before + ActsOf(hops + [h])
  {
    hide HopActs;
    ActsExtend(hops, h);
    assert before + ActsOf(hops) + HopActs(h) == before + (ActsOf(hops) + HopActs(h));
  }

  lemma GrantedActed(before: seq<Act>, acts: seq<Act>, hops: seq<Hop>, h: Hop)
    requires h.admission.Granted? && (h.settlement.Settled? || h.settlement.Dropped?)
    requires acts == before + ActsOf(hops) + [Ask(h.target, Yes(h.admission.kind, h.admission.ticket))]
                     + [End(h.admission.ticket, if h.settlement.Settled? then Some(h.settlement.outcome) else None)]
    ensures acts == before + ActsOf(hops + [h])
  {
    hide ActsOf;
    var past := before + ActsOf(hops);
    var ask := Ask(h.target, Yes(h.admission.kind, h.admission.ticket));
    var end := End(h.admission.ticket, if h.settlement.Settled? then Some(h.settlement.outcome) else None);
    assert HopActs(h) == [ask] + [end];
    assert past + [ask] + [end] == past + ([ask] + [end]);
    HopActed(before, acts, hops, h);
  }

  lemma RefusedActed(before: seq<Act>, acts: seq<Act>, hops: seq<Hop>, h: Hop)
    requires h.admission.Refused? && acts == before + ActsOf(hops) + [Ask(h.target, No)]
    ensures acts == before + ActsOf(hops + [h])
  {
    HopActed(before, acts, hops, h);
  }

  /** Number of hops that started at least one call. */
  function ActiveHops(hops: seq<Hop>): nat {
    if hops == [] then 0
    else ActiveHops(hops[..|hops| - 1]) + (if hops[|hops| - 1].count > 0 then 1 else 0)
  }

  /** Retries are the calls after the first of each hop; usage and cancellation tell how the last
      hop ended. */
  predicate CountersOK(log: Log) {
    && log.retries + ActiveHops(log.hops) == |log.calls|
    && log.usages == (if log.hops != [] && log.hops[|log.hops| - 1].exit.Ok? then [log.hops[|log.hops| - 1].target] else [])
    && (log.dropped <==> log.hops != [] && log.hops[|log.hops| - 1].exit.Cancelled?)
  }

  /** The history of a request between two hops. */
  ghost predicate HistoryOK(log: Log, terms: Terms) {
    && CallsOK(log.calls, terms) && AccountingOK(log, terms)
    && HopsOK(log.hops, log.calls, terms) && AdmissionsOK(log.hops, log.admissions)
    && CountersOK(log)
  }

  lemma CountersMove(l0: Log, l1: Log, h: Hop)
    requires CountersOK(l0) && l0.usages == [] && !l0.dropped
    requires l1.hops == l0.hops + [h] && |l1.calls| == |l0.calls| + h.count
    requires l1.retries == l0.retries + (if h.count > 0 then h.count - 1 else 0)
    requires l1.usages == (if h.exit.Ok? then [h.target] else []) && l1.dropped == h.exit.Cancelled?
    ensures CountersOK(l1)
  {
    assert l1.hops[..|l0.hops|] == l0.hops;
  }

  /** A further hop may be tried at `position`: the last one failed in a way that allows it. */
  predicate MayTry(log: Log, position: nat, clock: nat) {
    && MayContinue(log.calls, |log.hops|, clock)
    && log.usages == [] && !log.dropped
    && (log.hops != [] ==>
          var last := log.hops[|log.hops| - 1];
          last.position < position && last.ended <= clock && last.exit.Err? && IsFallbackEligible(last.exit.error))
  }

  /** One hop with this exit was added to the history, and only the counters it explains moved. */
  ghost predicate HopAdded(l0: Log, l1: Log, terms: Terms, position: nat, target: string, exit: Exit, clock: nat) {
    && |l1.hops| == |l0.hops| + 1 && l1.hops[..|l0.hops|] == l0.hops
    && l1.hops[|l0.hops|].position == position
    && l1.hops[|l0.hops|].target == target
    && l1.hops[|l0.hops|].exit == exit
    && l1.hops[|l0.hops|].ended <= clock
    && HistoryOK(l1, terms)
    && |l0.calls| <= |l1.calls|
    && l1.deadlines == l0.deadlines + (if TimedOut(exit) then 1 else 0)
    && l1.fallbacks == l0.fallbacks && l1.considered == l0.considered && l1.judged == l0.judged
    && (Fails(exit) && IsFallbackEligible(exit.error) ==> MayContinue(l1.calls, |l1.hops|, clock))
  }

  lemma HopStays(h: Hop, index: nat, calls: seq<Call>, calls': seq<Call>, terms: Terms)
    requires HopOK(h, index, calls, terms) && |calls| <= |calls'| && calls'[..|calls|] == calls
    ensures HopOK(h, index, calls', terms)
  {
    hide Fits, Justified, SettlementFor, Allowance, Numbered;
    forall k | 0 <= k < |calls|
      ensures calls'[k] == calls[k]
    {
      assert calls'[..|calls|][k] == calls[k];
    }
  }

  lemma HopsExtend(hops: seq<Hop>, calls: seq<Call>, calls': seq<Call>, h: Hop, terms: Terms)
    requires HopsOK(hops, calls, terms)
    requires |calls| <= |calls'| && calls'[..|calls|] == calls
    requires h.first == |calls| && h.first + h.count == |calls'|
    requires HopOK(h, |hops|, calls', terms)
    requires hops != [] ==> HopFollows(hops[|hops| - 1], h)
    ensures HopsOK(hops + [h], calls', terms)
  {
    hide HopOK, HopFollows;
    var hops' := hops + [h];
    forall i | 0 <= i < |hops|
      ensures HopOK(hops'[i], i, calls', terms)
    {
      HopStays(hops[i], i, calls, calls', terms);
    }
  }

  lemma AttemptsGiveHopOK(l0: Log, l1: Log, h: Hop, terms: Terms)
    requires h.admission.Granted? && h.first == |l0.calls| && h.first + h.count == |l1.calls|
    requires AttemptsRun(l0, l1, terms, |l0.hops|, h.target, Allowance(h.admission.kind, terms.maxRetries) - 1, h.exit, true, h.waiting, h.began, h.ended)
    requires h.settlement == SettlementFor(h.admission.kind, h.exit) && h.began <= h.ended && h.first < terms.maxTotal
    ensures HopOK(h, |l0.hops|, l1.calls, terms)
  {
    hide CallsOK, AccountingOK, HopCalls, EndOK, Justified, SettlementFor;
  }

  lemma AttemptsMakeAHop(l0: Log, l1: Log, h: Hop, terms: Terms)
    requires HopsOK(l0.hops, l0.calls, terms) && MayTry(l0, h.position, h.began)
    requires h.admission.Granted? && h.first == |l0.calls| && h.first + h.count == |l1.calls|
    requires AttemptsRun(l0, l1, terms, |l0.hops|, h.target, Allowance(h.admission.kind, terms.maxRetries) - 1, h.exit, true, h.waiting, h.began, h.ended)
    requires h.settlement == SettlementFor(h.admission.kind, h.exit) && h.began <= h.ended && h.first < terms.maxTotal
    ensures HopsOK(l0.hops + [h], l1.calls, terms)
  {
    hide HopOK, HopsOK, CallsOK, AccountingOK;
    AttemptsGiveHopOK(l0, l1, h, terms);
    LastCovers(l0.hops, l0.calls, terms);
    HopsExtend(l0.hops, l0.calls, l1.calls, h, terms);
  }

  /** An answer of the circuits for one more target. */
  function WithAdmission(l: Log, target: string, admission: Admission): Log {
    l.(admissions := l.admissions + [(target, admission)])
  }

  lemma AdmissionsExtend(hops: seq<Hop>, admissions: seq<(string, Admission)>, h: Hop)
    requires AdmissionsOK(hops, admissions)
    ensures AdmissionsOK(hops + [h], admissions + [(h.target, h.admission)])
  {
  }

  lemma AttemptsKeepHistory(l0: Log, l1: Log, h: Hop, terms: Terms)
    requires HistoryOK(l0, terms) && MayTry(l0, h.position, h.began)
    requires h.admission.Granted? && h.first == |l0.calls| && h.first + h.count == |l1.calls|
    requires AttemptsRun(WithAdmission(l0, h.target, h.admission), l1, terms, |l0.hops|, h.target,
                         Allowance(h.admission.kind, terms.maxRetries) - 1, h.exit, true, h.waiting, h.began, h.ended)
    requires h.settlement == SettlementFor(h.admission.kind, h.exit) && h.began <= h.ended && h.first < terms.maxTotal
    ensures HistoryOK(l1.(hops := l1.hops + [h]), terms)
  {
    hide HopsOK, CallsOK, AccountingOK, AdmissionsOK, CountersOK, Justified, SettlementFor, MayContinue;
    var l2 := l1.(hops := l1.hops + [h]);
    AttemptsMakeAHop(WithAdmission(l0, h.target, h.admission), l1, h, terms);
    AdmissionsExtend(l0.hops, l0.admissions, h);
    AccountingStays(l1, l2, terms);
    CountersMove(l0, l2, h);
  }

  /** The attempts of one admitted hop, recorded as a hop, extend the history. */
  lemma HistoryExtends(l0: Log, l1: Log, h: Hop, terms: Terms)
    requires HistoryOK(l0, terms) && MayTry(l0, h.position, h.began)
    requires h.admission.Granted? && h.first == |l0.calls| && h.first + h.count == |l1.calls|
    requires AttemptsRun(WithAdmission(l0, h.target, h.admission), l1, terms, |l0.hops|, h.target,
                         Allowance(h.admission.kind, terms.maxRetries) - 1, h.exit, true, h.waiting, h.began, h.ended)
    requires h.settlement == SettlementFor(h.admission.kind, h.exit) && h.began <= h.ended && h.first < terms.maxTotal
    ensures HopAdded(l0, l1.(hops := l1.hops + [h]), terms, h.position, h.target, h.exit, h.ended)
  {
    hide HistoryOK, HopAdded, CallsOK, AccountingOK, Justified, SettlementFor, Allowance;
    AttemptsKeepHistory(l0, l1, h, terms);
    HopRecorded(l0, l1.(hops := l1.hops + [h]), h, terms);
  }

  lemma HopRecorded(l0: Log, l1: Log, h: Hop, terms: Terms)
    requires HistoryOK(l1, terms) && l1.hops == l0.hops + [h]
    requires |l0.calls| <= |l1.calls| && l1.fallbacks == l0.fallbacks && l1.considered == l0.considered && l1.judged == l0.judged
    requires l1.deadlines == l0.deadlines + (if TimedOut(h.exit) then 1 else 0)
    requires Fails(h.exit) && IsFallbackEligible(h.exit.error) ==> MayContinue(l1.calls, |l1.hops|, h.ended)
    ensures HopAdded(l0, l1, terms, h.position, h.target, h.exit, h.ended)
  {
    hide HistoryOK, MayContinue;
    assert l1.hops[..|l0.hops|] == l0.hops;
  }

  lemma MayTryContinues(log: Log, position: nat, clock: nat)
    requires MayTry(log, position, clock)
    ensures MayContinue(log.calls, |log.hops|, clock)
  {
  }

  /** Time passes after a hop. */
  lemma HopEnds(l0: Log, l1: Log, terms: Terms, h: Hop, clock: nat)
    requires HopAdded(l0, l1, terms, h.position, h.target, h.exit, h.ended) && h.ended <= clock
    ensures HopAdded(l0, l1, terms, h.position, h.target, h.exit, clock)
  {
    hide HistoryOK;
  }

  lemma HistoryGivesCalls(l0: Log, l1: Log, terms: Terms)
    requires HistoryOK(l0, terms) && l1.calls == l0.calls && l1.outcomes == l0.outcomes && l1.exchanges == l0.exchanges
    ensures CallsOK(l1.calls, terms) && AccountingOK(l1, terms)
  {
    hide CallsOK, HopsOK, AdmissionsOK, CountersOK;
  }

  lemma AttemptsGrow(l0: Log, l1: Log, terms: Terms, hop: nat, target: string, maxRetries: nat, exit: Exit, hadBudget: bool,
                     waiting: Option<Pause>, began: nat, ended: nat)
    requires AttemptsRun(l0, l1, terms, hop, target, maxRetries, exit, hadBudget, waiting, began, ended)
    ensures |l0.calls| <= |l1.calls| && l1.hops == l0.hops
  {
  }

  lemma RefusedMakesNoCall(h: Hop, index: nat, calls: seq<Call>, terms: Terms)
    requires HopOK(h, index, calls, terms) && h.admission.Refused?
    ensures h.count == 0 && h.exit.Err? && h.exit.error.CircuitOpen? && h.began <= h.ended
  {
  }

  lemma RefusalKeepsHistory(l0: Log, h: Hop, terms: Terms)
    requires HistoryOK(l0, terms) && MayTry(l0, h.position, h.began)
    requires h.first == |l0.calls| && HopOK(h, |l0.hops|, l0.calls, terms) && h.admission.Refused?
    ensures HistoryOK(WithAdmission(l0, h.target, h.admission).(hops := l0.hops + [h]), terms)
  {
    hide HopOK, HopsOK, CallsOK, AccountingOK, AdmissionsOK, CountersOK, MayContinue;
    var l1 := WithAdmission(l0, h.target, h.admission).(hops := l0.hops + [h]);
    RefusedMakesNoCall(h, |l0.hops|, l0.calls, terms);
    assert l0.calls[..|l0.calls|] == l0.calls;
    LastCovers(l0.hops, l0.calls, terms);
    HopsExtend(l0.hops, l0.calls, l0.calls, h, terms);
    AdmissionsExtend(l0.hops, l0.admissions, h);
    AccountingStays(l0, l1, terms);
    CountersMove(l0, l1, h);
  }

  lemma LastCovers(hops: seq<Hop>, calls: seq<Call>, terms: Terms)
    requires HopsOK(hops, calls, terms)
    ensures Covered(hops) == |calls|
  {
  }

  lemma RefusalExtends(l0: Log, h: Hop, terms: Terms)
    requires HistoryOK(l0, terms) && MayTry(l0, h.position, h.began)
    requires h.first == |l0.calls| && HopOK(h, |l0.hops|, l0.calls, terms) && h.admission.Refused?
    ensures HopAdded(l0, WithAdmission(l0, h.target, h.admission).(hops := l0.hops + [h]), terms, h.position, h.target, h.exit, h.ended)
  {
    hide HistoryOK, HopAdded, HopOK;
    RefusedMakesNoCall(h, |l0.hops|, l0.calls, terms);
    RefusalKeepsHistory(l0, h, terms);
    HopRecorded(l0, WithAdmission(l0, h.target, h.admission).(hops := l0.hops + [h]), h, terms);
  }

  /** The hop of a target that was refused at `clock`. */
  function RefusedHop(position: nat, plan: RoutePlan, openForMs: nat, first: nat, clock: nat): Hop {
    Hop(position, plan.targetId, Refused(openForMs), clock, first, 0, Err(CircuitOpen(plan.vendorId, openForMs)), None, NoPermit, clock)
  }

  lemma RefusalAdded(l0: Log, position: nat, plan: RoutePlan, openForMs: nat, clock: nat, terms: Terms)
    requires HistoryOK(l0, terms) && MayTry(l0, position, clock) && |l0.calls| < terms.maxTotal
    ensures var h := RefusedHop(position, plan, openForMs, |l0.calls|, clock);
            HopAdded(l0, WithAdmission(l0, plan.targetId, Refused(openForMs)).(hops := l0.hops + [h]), terms, position, plan.targetId, h.exit, clock)
  {
    hide HistoryOK, HopAdded, MayTry;
    RefusalExtends(l0, RefusedHop(position, plan, openForMs, |l0.calls|, clock), terms);
  }

  // ----- whole requests ----------------------------------------------------------------

  /** Admissions go to chain targets in order, the primary first; a fallback that cannot serve the
      requested tokens is never admitted, and a refusal names the target's vendor. */
  ghost predicate Placed(hops: seq<Hop>, chain: seq<RoutePlan>, maxTokens: Option<int>) {
    && (hops != [] ==> hops[0].position == 0)
    && (forall i :: 0 <= i < |hops| ==>
          && hops[i].position < |chain| && hops[i].target == chain[hops[i].position].targetId
          && RefusalNames(hops[i], chain[hops[i].position])
          && (hops[i].position > 0 ==> SupportsTokens(chain[hops[i].position], maxTokens)))
  }

  predicate RefusalNames(h: Hop, plan: RoutePlan) {
    h.admission.Refused? ==> h.exit == Err(CircuitOpen(plan.vendorId, h.admission.openForMs))
  }

  predicate TriedAt(hops: seq<Hop>, q: nat) {
    exists i :: 0 <= i < |hops| && hops[i].position == q
  }

  /** Before a target is asked for, every earlier fallback that can serve the tokens was. */
  ghost predicate NoneSkipped(hops: seq<Hop>, chain: seq<RoutePlan>, maxTokens: Option<int>) {
    forall i, q :: 0 <= i < |hops| && 1 <= q < hops[i].position && q < |chain| && SupportsTokens(chain[q], maxTokens) ==> TriedAt(hops[..i], q)
  }

  /** Where the latest recorded switch ended. */
  function LastTarget(fallbacks: seq<(string, string)>, primary: string): string {
    if fallbacks == [] then primary else fallbacks[|fallbacks| - 1].1
  }

  /** The switches announced for the first `n` fallbacks: one for each that can serve the tokens,
      from the target tried last. */
  function Switches(plan: RoutePlan, maxTokens: Option<int>, n: nat): seq<(string, string)>
    requires n <= |plan.fallbackPlans|
  {
    if n == 0 then []
    else
      var before, fallback := Switches(plan, maxTokens, n - 1), plan.fallbackPlans[n - 1];
      if SupportsTokens(fallback, maxTokens) then before + [(LastTarget(before, plan.targetId), fallback.targetId)] else before
  }

  /** Chain position `q` needs no further attempt: it cannot serve the tokens, it was admitted, or
      the attempt budget is spent. */
  ghost predicate DealtWith(log: Log, chain: seq<RoutePlan>, terms: Terms, q: nat)
    requires q < |chain|
  {
    || !SupportsTokens(chain[q], terms.maxTokens)
    || TriedAt(log.hops, q)
    || |log.calls| >= terms.maxTotal
  }

  ghost predicate Tried(log: Log, chain: seq<RoutePlan>, terms: Terms, n: nat) {
    n <= |chain| && forall q :: 1 <= q < n ==> DealtWith(log, chain, terms, q)
  }

  const INVALID_MESSAGES := InvalidPayload("Missing or invalid 'messages' field")

  /** Where a non-deadline error comes from: the payload, the primary hop, or a fallback hop that
      was throttled beyond the deadline. */
  predicate ErrorSource(log: Log, payload: Payload, deadline: nat, clock: nat, e: ExecutorError) {
    || (log.hops == [] && payload.messages.None? && e == INVALID_MESSAGES)
    || (log.hops != [] && log.hops[0].exit == Err(e))
    || (|log.hops| > 1 && log.hops[|log.hops| - 1].exit == Err(e) && CannotFit(e, deadline, clock))
  }

  /** Fallbacks are looked at up to the last one tried, and further only when its error allows it. */
  predicate LastConsidered(log: Log) {
    if log.hops == [] then log.considered == 0
    else
      var last := log.hops[|log.hops| - 1];
      last.position <= log.considered && (last.position == log.considered || (Fails(last.exit) && IsFallbackEligible(last.exit.error)))
  }

  /** The history of a request that may end with `exit` now. */
  ghost predicate RunCore(config: Config, plan: RoutePlan, payload: Payload, deadline: nat, log: Log, exit: Exit, clock: nat) {
    && HistoryOK(log, TermsOf(config, plan, payload, deadline))
    && |log.calls| <= Max(config.maxTotalAttempts, 1)
    && log.deadlines == (if TimedOut(exit) then 1 else 0)
    && Placed(log.hops, Chain(plan), payload.maxTokens)
    && log.considered <= |plan.fallbackPlans| && log.fallbacks == Switches(plan, payload.maxTokens, log.considered)
    && LastConsidered(log)
    && Tried(log, Chain(plan), TermsOf(config, plan, payload, deadline), log.considered)
    && NoneSkipped(log.hops, Chain(plan), payload.maxTokens)
    && (log.hops != [] ==> payload.messages.Some?)
    && (exit.Ok? <==> log.hops != [] && log.hops[|log.hops| - 1].exit.Ok?)
    && (exit.Cancelled? <==> log.dropped)
    && (exit.Ok? || exit.Cancelled? ==> log.hops != [] && log.hops[|log.hops| - 1].exit == exit)
    && (Fails(exit) ==> ErrorSource(log, payload, deadline, clock, exit.error))
    && (Fails(exit) && log.hops != [] ==> Fails(log.hops[|log.hops| - 1].exit))
    && (log.hops != [] ==> log.hops[|log.hops| - 1].ended <= clock)
    && (TimedOut(exit) ==> deadline <= clock || (log.hops != [] && log.hops[|log.hops| - 1].exit == exit))
    && (log.hops != [] && TimedOut(log.hops[|log.hops| - 1].exit) ==> TimedOut(exit))
  }

  /** A request fails after an error that allows fallback only when every fallback has been looked at
      and dealt with. */
  ghost predicate Complete(log: Log, plan: RoutePlan, terms: Terms, exit: Exit) {
    Fails(exit) && log.hops != [] && Fails(log.hops[|log.hops| - 1].exit) && IsFallbackEligible(log.hops[|log.hops| - 1].exit.error) ==>
      log.considered == |plan.fallbackPlans| && Tried(log, Chain(plan), terms, |Chain(plan)|)
  }

  /** When a throttled fallback ends the request's switching, its minimum wait was compared with the
      time left, and its error is returned exactly when the wait did not fit. */
  predicate Judged(log: Log, deadline: nat, exit: Exit, clock: nat) {
    Fails(exit) && |log.hops| > 1 && Fails(log.hops[|log.hops| - 1].exit) && Hint(log.hops[|log.hops| - 1].exit.error) > 0 ==>
      var last := log.hops[|log.hops| - 1];
      && last.ended <= log.judged <= clock
      && (exit == last.exit <==> deadline < log.judged + Hint(last.exit.error))
  }

  /** The history of a finished request. */
  ghost predicate RunOK(config: Config, plan: RoutePlan, payload: Payload, deadline: nat, log: Log, exit: Exit, clock: nat) {
    && RunCore(config, plan, payload, deadline, log, exit, clock)
    && Complete(log, plan, TermsOf(config, plan, payload, deadline), exit)
    && Judged(log, deadline, exit, clock)
  }

  /** The primary hop was admitted or refused, and failed with this error. */
  predicate OwnError(log: Log, e: ExecutorError) {
    log.hops != [] && log.hops[0].exit == Err(e) && !e.DeadlineExceeded?
  }

  lemma EmptyHistory(log: Log, exit: Exit, terms: Terms)
    requires log == NO_HISTORY.(deadlines := if TimedOut(exit) then 1 else 0)
    ensures HistoryOK(log, terms)
  {
  }

  lemma NothingDone(config: Config, plan: RoutePlan, payload: Payload, deadline: nat, log: Log, exit: Exit, clock: nat)
    requires log == NO_HISTORY.(deadlines := if TimedOut(exit) then 1 else 0)
    requires (TimedOut(exit) && deadline <= clock) || (payload.messages.None? && exit == Err(INVALID_MESSAGES))
    ensures RunOK(config, plan, payload, deadline, log, exit, clock)
  {
    hide HistoryOK;
    EmptyHistory(log, exit, TermsOf(config, plan, payload, deadline));
  }

  /** The primary hop makes the history that of a request ending as the hop did. */
  lemma PrimaryTried(config: Config, plan: RoutePlan, payload: Payload, deadline: nat, log: Log, exit: Exit, clock: nat)
    requires HopAdded(NO_HISTORY, log, TermsOf(config, plan, payload, deadline), 0, plan.targetId, exit, clock)
    requires |log.calls| <= Max(config.maxTotalAttempts, 1) && payload.messages.Some?
    requires log.hops != [] ==> RefusalNames(log.hops[|log.hops| - 1], plan)
    ensures RunCore(config, plan, payload, deadline, log, exit, clock)
    ensures !(Fails(exit) && IsFallbackEligible(exit.error)) ==> RunOK(config, plan, payload, deadline, log, exit, clock)
    ensures |log.hops| == 1
    ensures Fails(exit) ==> OwnError(log, exit.error) && log.considered == 0 && log.fallbacks == []
    ensures Fails(exit) && IsFallbackEligible(exit.error) ==> MayTry(log, 1, clock) && Tried(log, Chain(plan), TermsOf(config, plan, payload, deadline), 1)
  {
    assert |log.hops| == 1;
  }

  /** Only the deadline and fallback metrics moved. */
  lemma HistoryStays(l0: Log, l1: Log, terms: Terms)
    requires HistoryOK(l0, terms) && l1 == l0.(deadlines := l1.deadlines, fallbacks := l1.fallbacks, considered := l1.considered, judged := l1.judged)
    ensures HistoryOK(l1, terms)
  {
    hide CallsOK, AccountingOK, HopsOK, AdmissionsOK;
    AccountingStays(l0, l1, terms);
  }

  /** What was dealt with stays so. */
  lemma TriedLater(l0: Log, l1: Log, chain: seq<RoutePlan>, terms: Terms, n: nat)
    requires Tried(l0, chain, terms, n) && |l0.calls| <= |l1.calls|
    requires |l0.hops| <= |l1.hops| && l1.hops[..|l0.hops|] == l0.hops
    ensures Tried(l1, chain, terms, n)
  {
    forall q | 1 <= q < n
      ensures DealtWith(l1, chain, terms, q)
    {
      assert DealtWith(l0, chain, terms, q);
      if TriedAt(l0.hops, q) {
        var i :| 0 <= i < |l0.hops| && l0.hops[i].position == q;
        assert l1.hops[..|l0.hops|][i].position == q;
      }
    }
  }

  lemma PlacedExtends(hops: seq<Hop>, h: Hop, chain: seq<RoutePlan>, maxTokens: Option<int>)
    requires Placed(hops, chain, maxTokens) && (hops == [] ==> h.position == 0)
    requires h.position < |chain| && h.target == chain[h.position].targetId && RefusalNames(h, chain[h.position])
    requires h.position > 0 ==> SupportsTokens(chain[h.position], maxTokens)
    ensures Placed(hops + [h], chain, maxTokens)
  {
    hide RefusalNames, SupportsTokens;
  }

  /** With attempts left, every able fallback before the next one tried has been asked for. */
  lemma NoneSkippedExtends(log: Log, h: Hop, chain: seq<RoutePlan>, terms: Terms)
    requires NoneSkipped(log.hops, chain, terms.maxTokens) && Tried(log, chain, terms, h.position) && |log.calls| < terms.maxTotal
    ensures NoneSkipped(log.hops + [h], chain, terms.maxTokens)
  {
    hide SupportsTokens, TriedAt;
    var hops := log.hops + [h];
    forall i, q | 0 <= i < |hops| && 1 <= q < hops[i].position && q < |chain| && SupportsTokens(chain[q], terms.maxTokens)
      ensures TriedAt(hops[..i], q)
    {
      if i < |log.hops| {
        assert hops[..i] == log.hops[..i] && hops[i] == log.hops[i];
      } else {
        assert hops[..i] == log.hops;
        assert DealtWith(log, chain, terms, q);
      }
    }
  }

  /** The next fallback is looked at, and announced if it can serve the tokens. */
  lemma FallbackConsidered(config: Config, plan: RoutePlan, payload: Payload, deadline: nat, l0: Log, l1: Log, primary: ExecutorError, clock: nat, n: nat)
    requires RunCore(config, plan, payload, deadline, l0, Err(primary), clock) && l0.considered < |plan.fallbackPlans| && n == l0.considered + 1
    requires MayTry(l0, n, clock) && l0.hops != []
    requires l1 == l0.(considered := l0.considered + 1,
                       fallbacks := l0.fallbacks +
                         (if SupportsTokens(plan.fallbackPlans[l0.considered], payload.maxTokens)
                          then [(LastTarget(l0.fallbacks, plan.targetId), plan.fallbackPlans[l0.considered].targetId)] else []))
    requires Tried(l0, Chain(plan), TermsOf(config, plan, payload, deadline), n)
    ensures RunCore(config, plan, payload, deadline, l1, Err(primary), clock)
    ensures Tried(l1, Chain(plan), TermsOf(config, plan, payload, deadline), n)
  {
    hide HistoryOK, Tried, NoneSkipped;
    var terms := TermsOf(config, plan, payload, deadline);
    HistoryStays(l0, l1, terms);
    TriedLater(l0, l1, Chain(plan), terms, n);
  }

  lemma RunGivesHistory(config: Config, plan: RoutePlan, payload: Payload, deadline: nat, log: Log, exit: Exit, clock: nat)
    requires RunCore(config, plan, payload, deadline, log, exit, clock)
    ensures HistoryOK(log, TermsOf(config, plan, payload, deadline))
    ensures |log.calls| <= Max(config.maxTotalAttempts, 1)
  {
  }

  lemma ClockPasses(config: Config, plan: RoutePlan, payload: Payload, deadline: nat, log: Log, exit: Exit, before: nat, after: nat)
    requires RunCore(config, plan, payload, deadline, log, exit, before) && before <= after
    ensures RunCore(config, plan, payload, deadline, log, exit, after)
  {
    hide HistoryOK;
  }

  lemma OwnErrorEnds(config: Config, plan: RoutePlan, payload: Payload, deadline: nat, log: Log, e: ExecutorError, clock: nat)
    requires RunCore(config, plan, payload, deadline, log, Err(e), clock) && !IsFallbackEligible(e) && |log.hops| == 1
    ensures RunOK(config, plan, payload, deadline, log, Err(e), clock)
  {
    hide HistoryOK;
  }

  /** With every fallback dealt with, or none allowed after a last one whose minimum wait, if any, did
      fit, the primary's error ends the request. */
  lemma PrimaryErrorEnds(config: Config, plan: RoutePlan, payload: Payload, deadline: nat, log: Log, e: ExecutorError, clock: nat)
    requires RunCore(config, plan, payload, deadline, log, Err(e), clock) && log.hops != []
    requires var last := log.hops[|log.hops| - 1];
             if Fails(last.exit) && IsFallbackEligible(last.exit.error)
             then log.considered == |plan.fallbackPlans| && Tried(log, Chain(plan), TermsOf(config, plan, payload, deadline), |Chain(plan)|)
             else Judged(log, deadline, Err(e), clock)
    ensures RunOK(config, plan, payload, deadline, log, Err(e), clock)
  {
    hide HistoryOK;
  }

  lemma MayTryLater(log: Log, position: nat, later: nat, before: nat, after: nat)
    requires MayTry(log, position, before) && before <= after && position <= later
    ensures MayTry(log, later, after)
  {
  }

  lemma MayTryStays(l0: Log, l1: Log, position: nat, later: nat, clock: nat)
    requires MayTry(l0, position, clock) && position <= later && l1 == l0.(fallbacks := l1.fallbacks, considered := l1.considered)
    ensures MayTry(l1, later, clock)
  {
  }

  lemma MayTryJudged(l0: Log, l1: Log, position: nat, before: nat, after: nat)
    requires MayTry(l0, position, before) && before <= after && l1 == l0.(judged := l1.judged)
    ensures MayTry(l1, position, after)
  {
  }

  lemma TriedJudged(l0: Log, l1: Log, plan: RoutePlan, terms: Terms, n: nat)
    requires Tried(l0, Chain(plan), terms, n) && l1 == l0.(judged := l1.judged)
    ensures Tried(l1, Chain(plan), terms, n)
  {
    TriedLater(l0, l1, Chain(plan), terms, n);
  }

  lemma MayTryLast(log: Log, position: nat, clock: nat)
    requires MayTry(log, position, clock) && log.hops != []
    ensures var exit := log.hops[|log.hops| - 1].exit;
            Fails(exit) && IsFallbackEligible(exit.error)
  {
  }

  /** Comparing a minimum wait with the time left changes nothing else. */
  lemma JudgedNow(config: Config, plan: RoutePlan, payload: Payload, deadline: nat, l0: Log, l1: Log, exit: Exit, clock: nat)
    requires RunCore(config, plan, payload, deadline, l0, exit, clock) && l1 == l0.(judged := l1.judged)
    ensures RunCore(config, plan, payload, deadline, l1, exit, clock)
  {
    hide HistoryOK, Tried, NoneSkipped;
    HistoryStays(l0, l1, TermsOf(config, plan, payload, deadline));
    TriedLater(l0, l1, Chain(plan), TermsOf(config, plan, payload, deadline), l0.considered);
  }

  lemma LastEnded(config: Config, plan: RoutePlan, payload: Payload, deadline: nat, log: Log, exit: Exit, clock: nat)
    requires RunCore(config, plan, payload, deadline, log, exit, clock) && log.hops != []
    ensures log.hops[|log.hops| - 1].ended <= clock
  {
  }

  /** A request about to fail may instead find the deadline passed. */
  lemma DeadlineEnds(config: Config, plan: RoutePlan, payload: Payload, deadline: nat, l0: Log, l1: Log, e: ExecutorError, before: nat, after: nat)
    requires RunCore(config, plan, payload, deadline, l0, Err(e), before) && before <= after && deadline <= after
    requires Fails(Err(e)) && l1 == l0.(deadlines := l0.deadlines + 1)
    ensures RunOK(config, plan, payload, deadline, l1, Err(DeadlineExceeded), after)
  {
    hide HistoryOK, Tried, NoneSkipped;
    HistoryStays(l0, l1, TermsOf(config, plan, payload, deadline));
    TriedLater(l0, l1, Chain(plan), TermsOf(config, plan, payload, deadline), l0.considered);
  }

  /** A fallback throttled beyond the deadline ends the request with its own error. */
  lemma ThrottledOut(config: Config, plan: RoutePlan, payload: Payload, deadline: nat, log: Log, primary: ExecutorError, e: ExecutorError, clock: nat)
    requires RunCore(config, plan, payload, deadline, log, Err(primary), clock) && Fails(Err(primary))
    requires |log.hops| > 1 && log.hops[|log.hops| - 1].exit == Err(e) && Fails(Err(e)) && Hint(e) > 0
    requires log.hops[|log.hops| - 1].ended <= log.judged <= clock && deadline < log.judged + Hint(e)
    ensures RunOK(config, plan, payload, deadline, log, Err(e), clock)
  {
    hide HistoryOK;
  }

  lemma HistoryEnds(log: Log, terms: Terms)
    requires HistoryOK(log, terms) && log.hops != []
    ensures log.usages == (if log.hops[|log.hops| - 1].exit.Ok? then [log.hops[|log.hops| - 1].target] else [])
    ensures log.dropped <==> log.hops[|log.hops| - 1].exit.Cancelled?
  {
  }

  /** A fallback hop keeps the history that of a request failing with the primary's error, unless
      the hop itself ends the request. */
  lemma HopTried(config: Config, plan: RoutePlan, payload: Payload, deadline: nat, l0: Log, l1: Log, primary: ExecutorError,
                 position: nat, exit: Exit, before: nat, after: nat)
    requires RunCore(config, plan, payload, deadline, l0, Err(primary), before) && OwnError(l0, primary)
    requires 1 <= position < |Chain(plan)| && SupportsTokens(Chain(plan)[position], payload.maxTokens)
    requires HopAdded(l0, l1, TermsOf(config, plan, payload, deadline), position, Chain(plan)[position].targetId, exit, after)
    requires |l1.calls| <= Max(config.maxTotalAttempts, 1) && |l0.calls| < Max(config.maxTotalAttempts, 1)
    requires |l1.hops| > 0 ==> RefusalNames(l1.hops[|l1.hops| - 1], Chain(plan)[position])
    requires position == l0.considered && Tried(l0, Chain(plan), TermsOf(config, plan, payload, deadline), position)
    ensures !Fails(exit) ==> RunOK(config, plan, payload, deadline, l1, exit, after)
    ensures Fails(exit) ==> RunCore(config, plan, payload, deadline, l1, Err(primary), after) && OwnError(l1, primary)
    ensures |l1.hops| > 1 && l1.hops[|l1.hops| - 1].exit == exit
    ensures Fails(exit) && IsFallbackEligible(exit.error) ==> MayTry(l1, position + 1, after)
  {
    hide HistoryOK, Tried, NoneSkipped, Placed, SupportsTokens, RefusalNames;
    var terms := TermsOf(config, plan, payload, deadline);
    var h := l1.hops[|l0.hops|];
    assert l1.hops == l0.hops + [h];
    PlacedExtends(l0.hops, h, Chain(plan), payload.maxTokens);
    NoneSkippedExtends(l0, h, Chain(plan), terms);
    TriedLater(l0, l1, Chain(plan), terms, position);
    HistoryEnds(l1, terms);
  }

  /** After a hop at `position`, the chain is dealt with one position further. */
  lemma TriedGrows(l0: Log, l1: Log, plan: RoutePlan, terms: Terms, position: nat, exit: Exit, after: nat)
    requires Tried(l0, Chain(plan), terms, position) && 1 <= position < |Chain(plan)|
    requires HopAdded(l0, l1, terms, position, Chain(plan)[position].targetId, exit, after)
    ensures Tried(l1, Chain(plan), terms, position + 1)
  {
    hide HistoryOK;
    TriedLater(l0, l1, Chain(plan), terms, position);
    assert l1.hops[|l0.hops|].position == position;
    assert TriedAt(l1.hops, position);
  }

  lemma TriedSkips(log: Log, plan: RoutePlan, terms: Terms, position: nat)
    requires Tried(log, Chain(plan), terms, position) && 1 <= position < |Chain(plan)|
    requires !SupportsTokens(Chain(plan)[position], terms.maxTokens) || |log.calls| >= terms.maxTotal
    ensures Tried(log, Chain(plan), terms, position + 1)
  {
    forall q | 1 <= q < position + 1
      ensures DealtWith(log, Chain(plan), terms, q)
    {
    }
  }
}
