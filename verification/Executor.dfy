/** The request executor: bounded retries inside one target, circuit admission around them, and
    ordered fallback, all against one absolute deadline.

    The provider, the clock, the jitter and cancellation are the environment: each answers
    arbitrarily within the guarantee its method states, and time may pass between any two readings.
    With `punctual`, timers fire on time and only awaiting takes time.  The circuits are shared:
    other owners may call them whenever this request does not. */
module Executor {
  import opened Prelude
  import opened ExecutorModel
  import opened Retry
  import opened CircuitActs
  import opened CircuitRegistry
  import Circuit

  /** `RequestDeadline::attempt_cutoff` at a clock reading. */
  function AttemptCutoff(deadline: nat, maxAttempt: nat, now: nat): (cutoff: Option<nat>)
    ensures cutoff.None? <==> deadline <= now || maxAttempt == 0
    ensures cutoff.Some? ==> now < cutoff.value == Min(now + maxAttempt, deadline)
  {
    if now >= deadline then None
    else
      var maxCutoff := now + maxAttempt;
      var cutoff := if deadline < maxCutoff then deadline else maxCutoff;
      if now >= cutoff then None else Some(cutoff)
  }

  const BODY_REFINEMENT_CAP := Millis(100)

  /** Cutoff of one attempt and the classified error last observed during it. */
  class AttemptContext {
    const cutoff: nat
    var observed: Option<VendorError>

    constructor (cutoff: nat)
      ensures this.cutoff == cutoff && observed == None
    {
      this.cutoff := cutoff;
      observed := None;
    }

    method Observe(error: VendorError)
      modifies this`observed
      ensures observed == Some(error)
    {
      observed := Some(error);
    }

    /** The window for refining a 429 body leaves at least half of the attempt's remaining time. */
    function BodyRefinementWindow(now: nat): (window: nat)
      ensures window <= Millis(100) && window + window <= Since(cutoff, now)
      ensures window < Millis(100) ==> Since(cutoff, now) <= window + window + 1
    {
      var remaining := Since(cutoff, now);
      Min(Min(remaining, BODY_REFINEMENT_CAP), remaining / 2)
    }
  }

  /** What precedes a provider call: an exit, an exhausted budget, or leave to start. */
  datatype Gate = Stop(exit: Exit) | NoBudget | Start(start: nat, cutoff: nat)

  /** One turn of the retry loop: leave the hop, break for want of budget, or retry. */
  datatype Iteration = Exited(exit: Exit) | Broken | Again(error: VendorError)

  /** One turn of the fallback loop: leave the request, stop switching targets, or go on. */
  datatype FallbackStep = Leave(exit: Exit) | Halt | Next

  datatype Attempted = Finished(exit: Exit) | FailedWith(error: VendorError)

  class ExecutorService {
    const config: Config
    const registry: TargetCircuitRegistry
    /** Names the request among the owners of permits. */
    const owner: nat
    const punctual: bool
    var clock: nat
    ghost var log: Log
    /** What this owner had done to the circuits before the request. */
    ghost var earlier: seq<Act>

    constructor (config: Config, registry: TargetCircuitRegistry, owner: nat, punctual: bool, clock: nat)
      ensures this.config == config && this.registry == registry && this.owner == owner && this.punctual == punctual
      ensures this.clock == clock && log == NO_HISTORY
    {
      this.config, this.registry, this.owner, this.punctual := config, registry, owner, punctual;
      this.clock, log, earlier := clock, NO_HISTORY, [];
    }

    /** The circuits have been called with readings no later than the clock. */
    ghost predicate Sound()
      reads this`clock, registry
    {
      registry.Valid() && registry.history.clock <= clock
    }

    /** What this owner has done to the circuits. */
    ghost function Acts(): seq<Act>
      reads registry
    {
      ActsBy(registry.policy, registry.events, owner)
    }

    /** Permits of this owner that can still act. */
    ghost function Live(): set<Circuit.Permit>
      reads registry
    {
      OwnLive(registry.history, owner)
    }

    /** Between two hops the request owns no permit, and its hops tell what it did to the circuits. */
    ghost predicate InStep()
      reads this`clock, this`log, this`earlier, registry
    {
      Sound() && Live() == {} && Acts() == earlier + ActsOf(log.hops)
    }

    // ----- environment -----------------------------------------------------------------

    method Now() returns (now: nat)
      modifies this`clock
      ensures now == clock && old(clock) <= clock
      ensures punctual ==> clock == old(clock)
    {
      if !punctual {
        var passed: nat :| true;
        clock := clock + passed;
      }
      now := clock;
    }

    /** Polls the provider until it replies, the attempt's cutoff passes or the request is
        dropped; meanwhile it may observe classified errors. */
    method CallLlm(context: AttemptContext, plan: RoutePlan, params: Params) returns (answer: Answer, ghost exchange: Exchange)
      modifies this`clock, this`log, context`observed
      ensures old(clock) <= exchange.began <= exchange.ended == clock
      ensures punctual ==> clock <= Max(old(clock), context.cutoff)
      ensures exchange == Exchange(plan, params.messages, params.maxTokens, context.cutoff, exchange.began, clock, answer)
      ensures answer.Elapsed? ==> context.cutoff <= clock && context.observed == answer.observed
      ensures VendorAnswer(answer)
      ensures log == old(log).(exchanges := old(log).exchanges + [exchange], dropped := old(log).dropped || answer.Interrupted?)
    {
      ghost var began := clock;
      var observations: nat :| true;
      while observations > 0
        invariant clock == old(clock) && log == old(log)
      {
        var error: VendorError :| true;
        context.Observe(error);
        observations := observations - 1;
      }
      var passed: nat :| true;
      clock := if punctual then Min(clock + passed, Max(clock, context.cutoff)) else clock + passed;
      var response: Option<string>, error: VendorError, dropped: bool, ready: bool :| true;
      if dropped {
        answer := Interrupted;
      } else if clock >= context.cutoff && !ready {
        answer := Elapsed(context.observed);
      } else {
        answer := Replied(if response.Some? then Ok(response.value) else Err(error));
      }
      exchange := Exchange(plan, params.messages, params.maxTokens, context.cutoff, began, clock, answer);
      log := log.(exchanges := log.exchanges + [exchange], dropped := log.dropped || answer.Interrupted?);
    }

    /** `timeout_at(deadline, sleep(wait))`: true when the sleep finished, false when the deadline
        came first, none when the request was dropped. */
    method SleepUntil(wait: nat, deadline: nat) returns (slept: Option<bool>)
      modifies this`clock, this`log
      ensures old(clock) <= clock
      ensures log == old(log).(dropped := old(log).dropped || slept.None?)
      ensures slept == Some(true) ==> old(clock) + wait <= clock
      ensures slept == Some(false) ==> deadline <= clock
      ensures punctual ==> clock <= Max(old(clock), deadline)
    {
      var passed: nat :| true;
      var dropped: bool :| true;
      var wake := clock + wait;
      if dropped {
        clock := if punctual then Min(clock + passed, Max(clock, deadline)) else clock + passed;
        slept := None;
        log := log.(dropped := true);
      } else if wake <= deadline {
        clock := if punctual then wake else wake + passed;
        slept := Some(true);
      } else {
        clock := if punctual then Max(clock, deadline) else Max(clock, deadline) + passed;
        var late: bool :| true;
        slept := Some(late && wake <= clock);
      }
    }

    method Sample() returns (raw: Option<nat>)
    {
      raw :| true;
    }

    // ----- circuits --------------------------------------------------------------------

    /** Asks the circuits for a target, after whatever other owners did. */
    method Admit(target: string) returns (admission: CircuitAdmission, ghost answer: Admission)
      requires Sound() && Live() == {}
      modifies this`clock, this`log, registry
      ensures old(clock) <= clock && (punctual ==> clock == old(clock))
      ensures log == WithAdmission(old(log), target, answer)
      ensures Sound()
      ensures match admission
              case Reject(ms) => answer == Refused(ms) && Live() == {} && Acts() == old(Acts()) + [Ask(target, No)]
              case Allow(p) => fresh(p) && Owns(p, answer, Circuit.ClosedPermit) && Acts() == old(Acts()) + [Ask(target, Yes(Circuit.ClosedPermit, p.token.id))]
              case Probe(p) => fresh(p) && Owns(p, answer, Circuit.ProbePermit) && Acts() == old(Acts()) + [Ask(target, Yes(Circuit.ProbePermit, p.token.id))]
    {
      hide Circuit.ValidRun, Circuit.Exec, ActsBy;
      var limit := Now();
      registry.Others(owner, limit);
      var now := Now();
      var later := Now();
      RunAppends(registry.policy, registry.events, Circuit.Admit(owner, target, now));
      ghost var decision := Circuit.Decide(registry.history, owner, target, now);
      admission := registry.Admit(owner, target, now, later);
      match admission {
        case Reject(ms) => answer := Refused(ms);
        case Allow(p) => answer := Granted(Circuit.ClosedPermit, p.token.id);
        case Probe(p) => answer := Granted(Circuit.ProbePermit, p.token.id);
      }
      log := WithAdmission(log, target, answer);
    }

    /** The permit is the answer's, is this owner's only live one and can still act. */
    ghost predicate Owns(p: CircuitPermit, answer: Admission, kind: Circuit.PermitKind)
      reads p, registry, p.registry
    {
      && p.Held(registry, p.token) && p.kind == kind && Live() == {p.token}
      && answer == Granted(kind, p.token.id)
    }

    /** Ends the permit of an ended hop: a success or a circuit failure is reported, another error
        only by a probe, and on the deadline or cancellation the permit is just dropped. */
    method SettlePermit(permit: CircuitPermit, exit: Exit) returns (ghost settlement: Settlement)
      requires Sound() && permit.Held(registry, permit.token) && Live() == {permit.token}
      modifies this`clock, registry, permit
      ensures old(clock) <= clock && (punctual ==> clock == old(clock))
      ensures Sound() && permit.gone && Live() == {}
      ensures Acts() == old(Acts()) + [End(permit.token.id, if settlement.Settled? then Some(settlement.outcome) else None)]
      ensures settlement.Settled? || settlement.Dropped?
      ensures exit.Ok? <==> settlement == Settled(Circuit.Success)
      ensures settlement == Settled(Circuit.TransientFailure) <==>
                exit.Err? && (exit.error.NetworkError? || exit.error.TimeoutError? || exit.error.ApiCallFailed?)
      ensures settlement == Settled(Circuit.Permanent) <==>
                && exit.Err? && permit.kind.ProbePermit? && !exit.error.DeadlineExceeded?
                && !exit.error.NetworkError? && !exit.error.TimeoutError? && !exit.error.ApiCallFailed?
    {
      hide Circuit.ValidRun, Circuit.Exec, ActsBy;
      var limit := Now();
      registry.Others(owner, limit);
      var now := Now();
      var reported: Option<Circuit.Completion> := None;
      match exit {
        case Ok(_) =>
          reported := Some(Circuit.Success);
        case Err(error) =>
          if error.DeadlineExceeded? {
          } else if IsCircuitFailure(error) {
            reported := Some(Circuit.TransientFailure);
          } else if permit.kind.ProbePermit? {
            reported := Some(Circuit.Permanent);
          }
        case Cancelled =>
      }
      if reported.Some? {
        RunAppends(registry.policy, registry.events, Circuit.Complete(permit.token, reported.value, now));
        permit.Consume(reported.value, now);
        settlement := Settled(reported.value);
      } else {
        RunAppends(registry.policy, registry.events, Circuit.Drop(permit.token));
        permit.Drop();
        settlement := Dropped;
      }
    }

    // ----- deadline and metrics --------------------------------------------------------

    method IsExpired(deadline: nat) returns (expired: bool)
      modifies this`clock
      ensures old(clock) <= clock && (expired <==> deadline <= clock)
      ensures punctual ==> clock == old(clock)
    {
      var now := Now();
      expired := now >= deadline;
    }

    method Remaining(deadline: nat) returns (remaining: nat)
      modifies this`clock
      ensures old(clock) <= clock && remaining == Since(deadline, clock)
      ensures punctual ==> clock == old(clock)
    {
      var now := Now();
      remaining := Since(deadline, now);
    }

    method DeadlineError() returns (exit: Exit)
      modifies this`log
      ensures TimedOut(exit) && log == old(log).(deadlines := old(log).deadlines + 1)
    {
      log := log.(deadlines := log.deadlines + 1);
      exit := Err(DeadlineExceeded);
    }

    /** Terminates the whole request when a Retry-After minimum, compared with the time left at
        `judged`, cannot fit any more. */
    method TerminateForProviderMinimum(error: ExecutorError, deadline: nat) returns (terminal: Option<ExecutorError>, ghost judged: nat)
      modifies this`clock
      ensures old(clock) <= judged <= clock
      ensures punctual ==> clock == old(clock)
      ensures deadline <= old(clock) ==> terminal == Some(DeadlineExceeded)
      ensures terminal == Some(DeadlineExceeded) && !error.DeadlineExceeded? ==> deadline <= clock
      ensures punctual && terminal != Some(DeadlineExceeded) ==> clock < deadline
      ensures terminal != Some(DeadlineExceeded) ==>
                terminal == (if error.RateLimitExceeded? && error.retryAfterMs.Some? && 0 < error.retryAfterMs.value
                                && deadline < judged + Millis(error.retryAfterMs.value)
                             then Some(error) else None)
    {
      var expired := IsExpired(deadline);
      judged := clock;
      if expired {
        return Some(DeadlineExceeded), judged;
      }
      if !error.RateLimitExceeded? || error.retryAfterMs.None? {
        return None, judged;
      }
      var remaining := Remaining(deadline);
      judged := clock;
      if ProviderMinimumCannotFit(Some(Millis(error.retryAfterMs.value)), remaining) {
        return Some(error), judged;
      }
      return None, judged;
    }

    method ObserveTerminal(error: ExecutorError) returns (exit: Exit)
      modifies this`log
      ensures exit == Err(error)
      ensures log == old(log).(deadlines := old(log).deadlines + (if error.DeadlineExceeded? then 1 else 0))
    {
      if error.DeadlineExceeded? {
        log := log.(deadlines := log.deadlines + 1);
      }
      exit := Err(error);
    }

    // ----- one attempt -----------------------------------------------------------------

    /** The error of a call that did not succeed, recorded with its own class. */
    method FailureOf(answer: Answer, context: AttemptContext, attemptTimeoutMs: nat, guard: StartedAttempt) returns (error: VendorError)
      requires guard.service == this && !guard.recorded
      requires match answer
               case Replied(reply) => reply.Err? && !reply.error.DeadlineExceeded? && !reply.error.CircuitOpen?
               case Elapsed(observed) => context.observed == observed
               case Interrupted => false
      modifies guard, this`log, this`clock
      ensures clock == old(clock) && Classified(answer, Failed(error))
      ensures answer == Elapsed(None) ==> error == TimeoutError(attemptTimeoutMs)
      ensures log == old(log).(outcomes := old(log).outcomes + [(guard.target, OutcomeOfError(error))])
    {
      match answer {
        case Replied(reply) =>
          error := reply.error;
          guard.Complete(OutcomeOfError(error));
        case Elapsed(_) =>
          match context.observed {
            case Some(observed) =>
              error := observed;
              guard.Complete(OutcomeOfError(observed));
            case None =>
              error := TimeoutError(attemptTimeoutMs);
              guard.Complete(TimeoutOutcome);
          }
      }
    }

    /** Classifies how a call ended and records it.  The overall deadline wins over every ready
        outcome, including success. */
    method Conclude(answer: Answer, context: AttemptContext, attemptTimeoutMs: nat, guard: StartedAttempt, deadline: nat)
      returns (attempted: Attempted, ghost fate: Fate)
      requires guard.service == this && guard.deadline == deadline && !guard.recorded
      requires VendorAnswer(answer)
      requires answer.Elapsed? ==> context.observed == answer.observed
      modifies guard, this`log, this`clock
      ensures old(clock) <= clock && (punctual ==> clock == old(clock))
      ensures Classified(answer, fate)
      ensures answer == Elapsed(None) && fate.Failed? ==> fate.error == TimeoutError(attemptTimeoutMs)
      ensures match fate
              case Succeeded(_) => clock < deadline
              case Failed(_) => clock < deadline
              case Overran => deadline <= clock
              case Abandoned(expired) => expired <==> deadline <= clock
      ensures match attempted
              case FailedWith(e) => fate == Failed(e)
              case Finished(Ok(response)) => fate == Succeeded(response)
              case Finished(Err(e)) => e.DeadlineExceeded? && fate == Overran
              case Finished(Cancelled) => fate.Abandoned?
      ensures log == old(log).(outcomes := old(log).outcomes + [(guard.target, OutcomeOf(fate))],
                               usages := old(log).usages + (if fate.Succeeded? then [guard.target] else []),
                               deadlines := old(log).deadlines + (if fate.Overran? then 1 else 0))
    {
      if answer.Interrupted? {
        ghost var late := guard.Drop();
        return Finished(Cancelled), Abandoned(late);
      }
      var expired := IsExpired(deadline);
      if expired {
        guard.Complete(DeadlineOutcome);
        var exit := DeadlineError();
        return Finished(exit), Overran;
      }
      if answer.Replied? && answer.reply.Ok? {
        guard.Complete(SuccessOutcome);
        log := log.(usages := log.usages + [guard.target]);
        return Finished(answer.reply), Succeeded(answer.reply.response);
      }
      var error := FailureOf(answer, context, attemptTimeoutMs, guard);
      return FailedWith(error), Failed(error);
    }

    /** Makes one provider call whose cutoff was computed at `start`, and classifies its end. */
    method RunAttempt(ghost route: RoutePlan, ghost hop: nat, ghost waited: Option<Pause>, ghost start: nat, plan: RoutePlan, params: Params, deadline: nat, cutoff: nat)
      returns (attempted: Attempted, ghost call: Call, ghost exchange: Exchange)
      requires plan in Chain(route)
      requires start < cutoff == Min(start + Millis(config.timeoutMs), deadline) && start <= clock
      modifies this`clock, this`log
      ensures old(clock) <= call.over <= clock
      ensures punctual ==> clock <= Max(old(clock), deadline)
      ensures punctual && attempted.Finished? && attempted.exit.Ok? ==> clock < deadline
      ensures GoodCall(call, RequestTerms(route, params, deadline)) && Explains(exchange, call, RequestTerms(route, params, deadline))
      ensures call.hop == hop && call.target == plan.targetId && call.start == start && call.waited == waited
      ensures match attempted
              case FailedWith(e) => FailedAs(call, e)
              case Finished(Ok(response)) => call.fate == Succeeded(response)
              case Finished(Err(e)) => e.DeadlineExceeded? && call.fate == Overran && deadline <= clock
              case Finished(Cancelled) => call.fate.Abandoned?
      ensures log == WithCall(old(log), call, exchange)
    {
      hide GoodCall, Explains, Classified;
      var dispatch := Now();
      var attemptTimeoutMs := WholeMillis(Since(cutoff, dispatch));
      var context := new AttemptContext(cutoff);
      var guard := new StartedAttempt(this, plan.targetId, deadline);
      var answer;
      answer, exchange := CallLlm(context, plan, params);
      ghost var fate;
      attempted, fate := Conclude(answer, context, attemptTimeoutMs, guard, deadline);
      call := Call(hop, plan.targetId, waited, start, cutoff, clock, fate);
      WholeMillisMonotone(Since(cutoff, exchange.began), Since(cutoff, dispatch));
      WholeMillisMonotone(Since(cutoff, dispatch), Since(cutoff, start));
      CallEnded(call, exchange, RequestTerms(route, params, deadline));
      log := log.(calls := log.calls + [call]);
    }

    /** Waits before retry number `attempt`, with jitter sample `raw`.  A wait that fits is slept in
        full unless the deadline or cancellation comes first; one that does not fit stops the hop,
        with the deadline when it is backoff and with throttling when it is the provider's. */
    method WaitBeforeRetry(attempt: nat, plan: RoutePlan, retryAfterMs: Option<nat>, lastError: Option<ExecutorError>, raw: Option<nat>, deadline: nat)
      returns (stop: Option<Exit>, ghost pause: Pause)
      requires 1 <= attempt
      modifies this`clock, this`log
      ensures old(clock) <= pause.readAt <= clock && pause.number == attempt && pause.raw == raw
      ensures punctual ==> clock <= Max(old(clock), deadline)
      ensures var wait, left := PlannedWait(attempt, retryAfterMs, raw), Since(deadline, pause.readAt);
              if wait <= left then
                && (stop.None? ==> pause.readAt + wait <= clock < deadline)
                && (stop.Some? ==> (stop.value.Cancelled? && wait > 0) || (TimedOut(stop.value) && deadline <= clock))
              else if retryAfterMs.None? then
                stop == Some(Err(DeadlineExceeded))
              else
                && stop.Some? && Fails(stop.value) && deadline < clock + Millis(retryAfterMs.value)
                && (lastError.Some? && lastError.value.RateLimitExceeded? ==> stop.value.error == lastError.value)
      ensures log == old(log).(deadlines := old(log).deadlines + (if stop.Some? && TimedOut(stop.value) then 1 else 0),
                               dropped := old(log).dropped || (stop.Some? && stop.value.Cancelled?))
    {
      var provider := if retryAfterMs.Some? then Some(Millis(retryAfterMs.value)) else None;
      var planned := PlanRetryDelay(attempt, Millis(config.backoffCapMs), provider, raw);
      var remaining := Remaining(deadline);
      pause := Pause(attempt, raw, clock);
      var verdict := EvaluateRetryDelay(planned, remaining);
      match verdict {
        case Wait(duration) =>
          if duration > 0 {
            var slept := SleepUntil(duration, deadline);
            if slept.None? {
              return Some(Cancelled), pause;
            }
            if !slept.value {
              var exit := DeadlineError();
              return Some(exit), pause;
            }
          }
        case NoWait(ProviderDelayCannotFit(retryAfter)) =>
          if lastError.Some? && lastError.value.RateLimitExceeded? {
            return Some(Err(lastError.value)), pause;
          }
          return Some(Err(RateLimitExceeded(plan.vendorId, Some(WholeMillis(retryAfter))))), pause;
        case NoWait(DelayPastDeadline) =>
          var exit := DeadlineError();
          return Some(exit), pause;
      }
      var expired := IsExpired(deadline);
      if expired {
        var exit := DeadlineError();
        return Some(exit), pause;
      }
      return None, pause;
    }

    /** The wait a retry owes: the provider's minimum, else the sampled backoff. */
    function PlannedWait(attempt: nat, retryAfterMs: Option<nat>, raw: Option<nat>): nat {
      match retryAfterMs
      case Some(ms) => Millis(ms)
      case None => Millis(JitteredBackoffMs(attempt, WholeMillis(Millis(config.backoffCapMs)), raw))
    }

    // ----- attempts inside one hop -----------------------------------------------------

    ghost function RequestTerms(route: RoutePlan, params: Params, deadline: nat): Terms {
      TermsOf(config, route, Payload(Some(params.messages), params.maxTokens), deadline)
    }

    /** The part of a loop iteration before the provider call: deadline, budget, retry wait,
        cutoff and the budget slot.  `waiting` is the pause of a retry. */
    method OpenAttempt(attempt: nat, plan: RoutePlan, deadline: nat, budget: AttemptBudget, retryAfterMs: Option<nat>, lastError: Option<ExecutorError>)
      returns (gate: Gate, ghost waiting: Option<Pause>)
      modifies this`clock, this`log, budget
      ensures old(clock) <= clock
      ensures punctual ==> clock <= Max(old(clock), deadline)
      ensures budget.started == old(budget.started) + (if gate.Start? then 1 else 0)
      ensures waiting.Some? ==>
                && attempt > 0 && waiting.value.number == attempt && old(clock) <= waiting.value.readAt <= clock
                && old(budget.Remaining()) > 0
      ensures match gate
              case Stop(exit) =>
                && !exit.Ok?
                && log == old(log).(deadlines := old(log).deadlines + (if TimedOut(exit) then 1 else 0),
                                    dropped := old(log).dropped || exit.Cancelled?)
                && (match waiting
                    case None => TimedOut(exit) && deadline <= clock
                    case Some(p) =>
                      if PlannedWait(attempt, retryAfterMs, p.raw) <= Since(deadline, p.readAt) then
                        || (exit.Cancelled? && PlannedWait(attempt, retryAfterMs, p.raw) > 0)
                        || (TimedOut(exit) && deadline <= clock)
                      else if retryAfterMs.None? then TimedOut(exit)
                      else
                        && Fails(exit) && deadline < clock + Millis(retryAfterMs.value)
                        && (lastError.Some? && lastError.value.RateLimitExceeded? ==> exit.error == lastError.value))
              case NoBudget =>
                log == old(log) && old(budget.Remaining()) == 0 && waiting.None?
              case Start(start, cutoff) =>
                && old(clock) <= start <= clock
                && (attempt == 0 <==> waiting.None?)
                && (waiting.Some? ==>
                      && PlannedWait(attempt, retryAfterMs, waiting.value.raw) <= Since(deadline, waiting.value.readAt)
                      && waiting.value.readAt + PlannedWait(attempt, retryAfterMs, waiting.value.raw) <= start)
                && start < cutoff == Min(start + Millis(config.timeoutMs), deadline)
                && log == old(log).(retries := old(log).retries + (if attempt > 0 then 1 else 0))
                && budget.started <= budget.maxTotal
    {
      waiting := None;
      var expired := IsExpired(deadline);
      if expired {
        var exit := DeadlineError();
        return Stop(exit), None;
      }
      if budget.Remaining() == 0 {
        return NoBudget, None;
      }
      if attempt > 0 {
        var raw := Sample();
        var stop, pause := WaitBeforeRetry(attempt, plan, retryAfterMs, lastError, raw, deadline);
        waiting := Some(pause);
        if stop.Some? {
          return Stop(stop.value), waiting;
        }
      }
      var now := Now();
      var cutoff := AttemptCutoff(deadline, Millis(config.timeoutMs), now);
      if cutoff.None? {
        var exit := DeadlineError();
        return Stop(exit), waiting;
      }
      var started := budget.TryStart();
      if !started {
        return NoBudget, waiting;
      }
      if attempt > 0 {
        log := log.(retries := log.retries + 1);
      }
      gate := Start(now, cutoff.value);
    }

    /** The part of a loop iteration after a failed call: stop, or try again. */
    method JudgeFailure(error: VendorError, deadline: nat) returns (stop: Option<Exit>)
      modifies this`clock, this`log
      ensures old(clock) <= clock && (punctual ==> clock == old(clock))
      ensures stop.None? ==> IsRetryable(error)
      ensures !IsRetryable(error) ==> stop == Some(Err(error))
      ensures stop.Some? ==> TimedOut(stop.value) || (stop.value == Err(error) && (IsRetryable(error) ==> CannotFit(error, deadline, clock)))
      ensures stop.Some? && TimedOut(stop.value) ==> deadline <= clock
      ensures log == old(log).(deadlines := old(log).deadlines + (if stop.Some? && TimedOut(stop.value) then 1 else 0))
    {
      if !IsRetryable(error) {
        return Some(Err(error));
      }
      var terminal, _ := TerminateForProviderMinimum(error, deadline);
      if terminal.Some? {
        var exit := ObserveTerminal(terminal.value);
        return Some(exit);
      }
      return None;
    }

    /** The budget counts this request's calls. */
    predicate Counts(budget: AttemptBudget, calls: nat)
      reads budget
    {
      budget.started == calls && budget.maxTotal == Max(config.maxTotalAttempts, 1)
    }

    /** A retry's call follows the failed one. */
    lemma RetryFollows(route: RoutePlan, a: Call, b: Call, hop: nat, retryAfterMs: Option<nat>, params: Params, deadline: nat)
      requires a.fate.Failed? && IsRetryable(a.fate.error) && retryAfterMs == HintMs(a.fate.error)
      requires a.hop == hop == b.hop && a.target == b.target && b.waited.Some? && a.over <= b.waited.value.readAt
      requires var p := b.waited.value;
               var wait := PlannedWait(p.number, retryAfterMs, p.raw);
               wait <= Since(deadline, p.readAt) && p.readAt + wait <= b.start
      ensures Follows(a, b, RequestTerms(route, params, deadline))
    {
    }

    /** How a hop ends that is stopped before another call. */
    lemma StopEnds(route: RoutePlan, exit: Exit, calls: seq<Call>, first: nat, count: nat, waiting: Option<Pause>, retryAfterMs: Option<nat>, maxRetries: nat,
                   params: Params, deadline: nat, started: nat, ended: nat)
      requires first + count == |calls| && count <= maxRetries && !exit.Ok?
      requires count > 0 ==> calls[|calls| - 1].fate.Failed? && IsRetryable(calls[|calls| - 1].fate.error)
      requires match waiting
               case None => TimedOut(exit) && deadline <= ended
               case Some(p) =>
                 && count > 0 && p.number == count && started <= p.readAt <= ended && |calls| < Max(config.maxTotalAttempts, 1)
                 && var last := calls[|calls| - 1];
                    && last.fate.Failed? && IsRetryable(last.fate.error) && retryAfterMs == HintMs(last.fate.error) && last.over <= started
                    && (if PlannedWait(count, retryAfterMs, p.raw) <= Since(deadline, p.readAt) then
                          || (exit.Cancelled? && PlannedWait(count, retryAfterMs, p.raw) > 0)
                          || (TimedOut(exit) && deadline <= ended)
                        else if retryAfterMs.None? then TimedOut(exit)
                        else Fails(exit))
      ensures EndOK(exit, calls, first, count, waiting, maxRetries + 1, RequestTerms(route, params, deadline), ended)
    {
    }

    /** What the pause before an attempt must have been, for the call after `calls` to follow. */
    ghost predicate Waited(calls: seq<Call>, hop: nat, attempt: nat, waiting: Option<Pause>, start: nat, deadline: nat) {
      if attempt == 0 then waiting.None? && MayContinue(calls, hop, start)
      else
        && calls != [] && waiting.Some? && waiting.value.number == attempt
        && var last, p := calls[|calls| - 1], waiting.value;
           && last.fate.Failed? && IsRetryable(last.fate.error) && last.over <= p.readAt
           && var wait := PlannedWait(attempt, HintMs(last.fate.error), p.raw);
              wait <= Since(deadline, p.readAt) && p.readAt + wait <= start
    }

    lemma AttemptFollows(route: RoutePlan, calls: seq<Call>, first: nat, hop: nat, target: string, began: nat, attempt: nat, call: Call, params: Params, deadline: nat)
      requires HopCalls(calls, first, attempt, hop, target, began) && first + attempt == |calls|
      requires call.hop == hop && call.target == target && Waited(calls, hop, attempt, call.waited, call.start, deadline)
      ensures Numbered(call, attempt)
      ensures calls != [] ==> Follows(calls[|calls| - 1], call, RequestTerms(route, params, deadline))
    {
      hide HopCalls;
      if attempt > 0 {
        LastOfHop(calls, first, attempt, hop, target, began);
        var last := calls[|calls| - 1];
        RetryFollows(route, last, call, hop, HintMs(last.fate.error), params, deadline);
      } else if calls != [] {
        FirstFollows(calls[|calls| - 1], call, RequestTerms(route, params, deadline));
      }
    }

    /** The part of an iteration from the provider call on; `log.retries` already counts it. */
    method MakeAttempt(ghost route: RoutePlan, ghost l0: Log, ghost hop: nat, ghost maxRetries: nat, ghost began: nat, ghost attempt: nat, ghost waiting: Option<Pause>,
                       ghost start: nat, cutoff: nat, plan: RoutePlan, params: Params, deadline: nat, ghost budget: AttemptBudget)
      returns (next: Iteration)
      requires plan in Chain(route)
      requires attempt <= maxRetries && began <= start <= clock
      requires start < cutoff == Min(start + Millis(config.timeoutMs), deadline)
      requires Progress(l0, log.(retries := l0.retries + (if attempt == 0 then 0 else attempt - 1)), RequestTerms(route, params, deadline), hop, plan.targetId, attempt, began)
      requires log.retries == l0.retries + attempt
      requires Waited(log.calls, hop, attempt, waiting, start, deadline)
      requires Counts(budget, |log.calls| + 1) && budget.started <= budget.maxTotal
      modifies this`clock, this`log
      ensures old(clock) <= clock && (punctual ==> clock <= Max(old(clock), deadline))
      ensures punctual && next.Exited? && next.exit.Ok? ==> clock < deadline
      ensures Counts(budget, |log.calls|)
      ensures match next
              case Exited(exit) =>
                AttemptsRun(l0, log, RequestTerms(route, params, deadline), hop, plan.targetId, maxRetries, exit, true, None, began, clock)
              case Broken => false
              case Again(error) =>
                && Progress(l0, log, RequestTerms(route, params, deadline), hop, plan.targetId, attempt + 1, began)
                && Pending(log.calls, Some(error), HintMs(error), clock)
    {
      hide CallsOK, AccountingOK, AttemptsRun, Explains, HopCalls, Follows, EndOK, GoodCall, Waited, Numbered;
      ghost var before := log;
      var attempted, call, exchange := RunAttempt(route, hop, waiting, start, plan, params, deadline, cutoff);
      AttemptFollows(route, before.calls, |l0.calls|, hop, plan.targetId, began, attempt, call, params, deadline);
      ProgressExtends(l0, before, call, exchange, RequestTerms(route, params, deadline), hop, plan.targetId, attempt, began);
      match attempted {
        case Finished(finished) =>
          ExitAfterCall(l0, log, RequestTerms(route, params, deadline), hop, plan.targetId, attempt, maxRetries, finished, began, clock);
          return Exited(finished);
        case FailedWith(error) =>
          var stop := JudgeFailure(error, deadline);
          if stop.Some? {
            ExitAfterCall(l0, log, RequestTerms(route, params, deadline), hop, plan.targetId, attempt, maxRetries, stop.value, began, clock);
            return Exited(stop.value);
          }
          return Again(error);
      }
    }

    /** One iteration of the retry loop, after `attempt` calls of this hop. */
    method Iterate(ghost route: RoutePlan, ghost l0: Log, ghost hop: nat, ghost maxRetries: nat, ghost began: nat, attempt: nat, plan: RoutePlan, params: Params, deadline: nat,
                   budget: AttemptBudget, retryAfterMs: Option<nat>, lastError: Option<ExecutorError>)
      returns (next: Iteration, ghost waiting: Option<Pause>)
      requires plan in Chain(route)
      requires attempt <= maxRetries && began <= clock
      requires Progress(l0, log, RequestTerms(route, params, deadline), hop, plan.targetId, attempt, began)
      requires attempt == 0 ==> MayContinue(log.calls, hop, clock)
      requires attempt > 0 ==> Pending(log.calls, lastError, retryAfterMs, clock)
      requires Counts(budget, |log.calls|)
      modifies this`clock, this`log, budget
      ensures old(clock) <= clock && (punctual ==> clock <= Max(old(clock), deadline))
      ensures punctual && next.Exited? && next.exit.Ok? ==> clock < deadline
      ensures Counts(budget, |log.calls|)
      ensures log.calls != old(log).calls ==> |log.calls| <= budget.maxTotal
      ensures match next
              case Exited(exit) =>
                AttemptsRun(l0, log, RequestTerms(route, params, deadline), hop, plan.targetId, maxRetries, exit, true, waiting, began, clock)
              case Broken =>
                log == old(log) && budget.Remaining() == 0
              case Again(error) =>
                && Progress(l0, log, RequestTerms(route, params, deadline), hop, plan.targetId, attempt + 1, began)
                && Pending(log.calls, Some(error), HintMs(error), clock)
    {
      hide CallsOK, AccountingOK, AttemptsRun, HopCalls, EndOK;
      var gate;
      gate, waiting := OpenAttempt(attempt, plan, deadline, budget, retryAfterMs, lastError);
      match gate {
        case Stop(stopped) =>
          StopEnds(route, stopped, log.calls, |l0.calls|, attempt, waiting, retryAfterMs, maxRetries, params, deadline, old(clock), clock);
          ExitBeforeCall(l0, old(log), log, RequestTerms(route, params, deadline), hop, plan.targetId, attempt, maxRetries, stopped, waiting, began, clock);
          return Exited(stopped), waiting;
        case NoBudget =>
          return Broken, None;
        case Start(start, cutoff) =>
          next := MakeAttempt(route, l0, hop, maxRetries, began, attempt, waiting, start, cutoff, plan, params, deadline, budget);
          waiting := None;
      }
    }

    method ExecuteAttempts(ghost route: RoutePlan, ghost hop: nat, ghost began: nat, plan: RoutePlan, params: Params, deadline: nat, budget: AttemptBudget, maxRetries: nat)
      returns (exit: Exit, ghost waiting: Option<Pause>)
      requires plan in Chain(route)
      requires CallsOK(log.calls, RequestTerms(route, params, deadline)) && AccountingOK(log, RequestTerms(route, params, deadline))
      requires MayContinue(log.calls, hop, clock) && began <= clock
      requires Counts(budget, |log.calls|)
      modifies this`clock, this`log, budget
      ensures old(clock) <= clock && (punctual ==> clock <= Max(old(clock), deadline))
      ensures punctual && exit.Ok? ==> clock < deadline
      ensures AttemptsRun(old(log), log, RequestTerms(route, params, deadline), hop, plan.targetId, maxRetries, exit, old(budget.Remaining()) > 0, waiting, began, clock)
      ensures Counts(budget, |log.calls|)
      ensures |log.calls| > |old(log).calls| ==> |log.calls| <= budget.maxTotal
    {
      hide CallsOK, AccountingOK, HopCalls, AttemptsRun;
      waiting := None;
      var lastError: Option<ExecutorError> := None;
      var retryAfterMs: Option<nat> := None;
      ghost var l0 := log;
      NoAttempts(log, RequestTerms(route, params, deadline), hop, plan.targetId, began);
      var attempt := 0;
      while attempt <= maxRetries
        invariant attempt <= maxRetries + 1
        invariant Progress(l0, log, RequestTerms(route, params, deadline), hop, plan.targetId, attempt, began)
        invariant Counts(budget, |log.calls|)
        invariant old(clock) <= clock && (punctual ==> clock <= Max(old(clock), deadline))
        invariant attempt == 0 ==> lastError == None && MayContinue(log.calls, hop, clock)
        invariant attempt > 0 ==> Pending(log.calls, lastError, retryAfterMs, clock) && |log.calls| <= budget.maxTotal
      {
        var next;
        next, waiting := Iterate(route, l0, hop, maxRetries, began, attempt, plan, params, deadline, budget, retryAfterMs, lastError);
        match next {
          case Exited(exited) =>
            HadBudgetOrNot(l0, log, RequestTerms(route, params, deadline), hop, plan.targetId, maxRetries, exited, old(budget.Remaining()) > 0, waiting, began, clock);
            return exited, waiting;
          case Broken =>
            break;
          case Again(error) =>
            lastError := Some(error);
            retryAfterMs := HintMs(error);
        }
        attempt := attempt + 1;
      }
      waiting := None;
      GivesUp(l0, log, RequestTerms(route, params, deadline), hop, plan.targetId, attempt, maxRetries, lastError, retryAfterMs,
              old(budget.Remaining()) > 0, began, clock);
      exit := Err(if lastError.Some? then lastError.value else BUDGET_EXHAUSTED);
    }

    // ----- one hop ---------------------------------------------------------------------

    /** Runs an admitted hop and ends its permit by how it ended; a probe gets one attempt. */
    method RunAdmitted(ghost route: RoutePlan, ghost l0: Log, ghost position: nat, permit: CircuitPermit, plan: RoutePlan, params: Params, deadline: nat, budget: AttemptBudget)
      returns (exit: Exit)
      requires plan in Chain(route)
      requires HistoryOK(l0, RequestTerms(route, params, deadline)) && MayTry(l0, position, clock)
      requires log == WithAdmission(l0, plan.targetId, Granted(permit.kind, permit.token.id))
      requires Sound() && permit.Held(registry, permit.token) && Live() == {permit.token}
      requires Acts() == earlier + ActsOf(l0.hops) + [Ask(plan.targetId, Yes(permit.kind, permit.token.id))]
      requires Counts(budget, |log.calls|) && budget.Remaining() > 0
      modifies this`clock, this`log, budget, registry, permit
      ensures old(clock) <= clock && (punctual ==> clock <= Max(old(clock), deadline))
      ensures punctual && exit.Ok? ==> clock < deadline
      ensures InStep()
      ensures Counts(budget, |log.calls|)
      ensures |log.calls| > |l0.calls| ==> |log.calls| <= budget.maxTotal
      ensures |log.hops| == |l0.hops| + 1 && log.hops[|l0.hops|].admission.Granted?
      ensures HopAdded(l0, log, RequestTerms(route, params, deadline), position, plan.targetId, exit, clock)
    {
      hide HistoryOK, HopAdded, CallsOK, AccountingOK, AttemptsRun, SettlementFor, ActsBy, ActsOf, OwnLive, Circuit.ValidRun, Circuit.Exec, MayTry;
      ghost var terms := RequestTerms(route, params, deadline);
      ghost var asked, began := log, clock;
      HistoryGivesCalls(l0, log, terms);
      MayTryContinues(l0, position, clock);
      ghost var waiting;
      exit, waiting := ExecuteAttempts(route, |l0.hops|, began, plan, params, deadline, budget, if permit.kind.ProbePermit? then 0 else config.maxRetries);
      AttemptsGrow(asked, log, terms, |l0.hops|, plan.targetId, Allowance(permit.kind, config.maxRetries) - 1, exit, true, waiting, began, clock);
      ghost var l1, ended := log, clock;
      ghost var settlement := SettlePermit(permit, exit);
      SettlementByCases(permit.kind, exit, settlement);
      ghost var hop := Hop(position, plan.targetId, Granted(permit.kind, permit.token.id), began, |l0.calls|, |l1.calls| - |l0.calls|, exit, waiting, settlement, ended);
      log := log.(hops := log.hops + [hop]);
      HistoryExtends(l0, l1, hop, terms);
      HopEnds(l0, log, terms, hop, clock);
      GrantedActed(earlier, Acts(), l0.hops, hop);
    }

    /** Runs one target through circuit admission; `position` is its place in the chain. */
    method ExecuteHop(ghost route: RoutePlan, ghost position: nat, plan: RoutePlan, params: Params, deadline: nat, budget: AttemptBudget)
      returns (exit: Exit)
      requires plan in Chain(route)
      requires HistoryOK(log, RequestTerms(route, params, deadline)) && MayTry(log, position, clock)
      requires InStep() && Counts(budget, |log.calls|)
      modifies this`clock, this`log, budget, registry
      ensures old(clock) <= clock && (punctual ==> clock <= Max(old(clock), deadline))
      ensures punctual && exit.Ok? ==> clock < deadline
      ensures InStep() && Counts(budget, |log.calls|)
      ensures |log.calls| > |old(log).calls| ==> |log.calls| <= budget.maxTotal
      ensures if log.hops == old(log).hops
              then
                && (if TimedOut(exit) then deadline <= clock else old(budget.Remaining()) == 0 && exit == Err(BUDGET_EXHAUSTED))
                && log == old(log).(deadlines := old(log).deadlines + (if TimedOut(exit) then 1 else 0))
              else
                && HopAdded(old(log), log, RequestTerms(route, params, deadline), position, plan.targetId, exit, clock)
                && |old(log).calls| < budget.maxTotal && |log.hops| > 0 && RefusalNames(log.hops[|log.hops| - 1], plan)
    {
      hide HistoryOK, HopAdded, HopActs, ActsBy, ActsOf, OwnLive, Circuit.ValidRun, Circuit.Exec, MayTry;
      var expired := IsExpired(deadline);
      if expired {
        exit := DeadlineError();
        return;
      }
      if budget.Remaining() == 0 {
        return Err(BUDGET_EXHAUSTED);
      }
      ghost var l0, asked := log, clock;
      var admission, answer := Admit(plan.targetId);
      MayTryLater(l0, position, position, old(clock), clock);
      match admission {
        case Reject(openForMs) =>
          exit := Err(CircuitOpen(plan.vendorId, openForMs));
          ghost var hop := RefusedHop(position, plan, openForMs, |log.calls|, clock);
          log := log.(hops := log.hops + [hop]);
          RefusalAdded(l0, position, plan, openForMs, clock, RequestTerms(route, params, deadline));
          RefusedActed(earlier, Acts(), l0.hops, hop);
        case Allow(permit) =>
          exit := RunAdmitted(route, l0, position, permit, plan, params, deadline, budget);
        case Probe(permit) =>
          exit := RunAdmitted(route, l0, position, permit, plan, params, deadline, budget);
      }
    }

    // ----- the whole request -----------------------------------------------------------

    /** A fallback's error ends the request when its minimum wait, or any wait, no longer fits. */
    method EndIfThrottled(ghost plan: RoutePlan, ghost payload: Payload, ghost primaryError: ExecutorError, error: ExecutorError, deadline: nat)
      returns (ended: Option<Exit>)
      requires RunCore(config, plan, payload, deadline, log, Err(primaryError), clock) && OwnError(log, primaryError)
      requires !error.DeadlineExceeded? && IsFallbackEligible(primaryError)
      requires Hint(error) > 0 || !IsFallbackEligible(error) ==> |log.hops| > 1 && log.hops[|log.hops| - 1].exit == Err(error)
      requires InStep()
      modifies this`clock, this`log
      ensures InStep()
      ensures old(clock) <= clock && (punctual ==> clock == old(clock))
      ensures punctual && (ended.None? || Fails(ended.value)) ==> clock < deadline
      ensures log.calls == old(log).calls && log.hops == old(log).hops
      ensures ended.Some? ==> !ended.value.Ok? && !ended.value.Cancelled?
      ensures ended.Some? ==> RunOK(config, plan, payload, deadline, log, ended.value, clock)
      ensures ended.None? ==>
                && log == old(log).(judged := log.judged) && RunCore(config, plan, payload, deadline, log, Err(primaryError), clock)
                && (!IsFallbackEligible(error) ==> Judged(log, deadline, Err(primaryError), clock))
    {
      hide RunCore, RunOK, ActsBy, ActsOf, OwnLive, Circuit.ValidRun, Circuit.Exec;
      ghost var l0 := log;
      if log.hops != [] {
        LastEnded(config, plan, payload, deadline, log, Err(primaryError), clock);
      }
      var terminal, judged := TerminateForProviderMinimum(error, deadline);
      ClockPasses(config, plan, payload, deadline, log, Err(primaryError), old(clock), clock);
      log := log.(judged := judged);
      JudgedNow(config, plan, payload, deadline, l0, log, Err(primaryError), clock);
      if terminal.None? {
        return None;
      }
      ghost var l1 := log;
      var exit := ObserveTerminal(terminal.value);
      if terminal.value.DeadlineExceeded? {
        DeadlineEnds(config, plan, payload, deadline, l1, log, primaryError, clock, clock);
      } else {
        ThrottledOut(config, plan, payload, deadline, log, primaryError, error, clock);
      }
      return Some(exit);
    }

    /** The hop of a fallback, with what it means for a request about to fail with `primaryError`. */
    method ExecuteFallbackHop(ghost plan: RoutePlan, ghost position: nat, fallback: RoutePlan, params: Params, ghost payload: Payload,
                              ghost primaryError: ExecutorError, deadline: nat, budget: AttemptBudget)
      returns (exit: Exit)
      requires payload == Payload(Some(params.messages), params.maxTokens) && SupportsTokens(fallback, params.maxTokens)
      requires 1 <= position < |Chain(plan)| && Chain(plan)[position] == fallback
      requires RunCore(config, plan, payload, deadline, log, Err(primaryError), clock) && OwnError(log, primaryError)
      requires position == log.considered
      requires MayTry(log, position, clock) && Tried(log, Chain(plan), RequestTerms(plan, params, deadline), position)
      requires InStep() && Counts(budget, |log.calls|)
      modifies this`clock, this`log, budget, registry
      ensures old(clock) <= clock && (punctual ==> clock <= Max(old(clock), deadline))
      ensures punctual && exit.Ok? ==> clock < deadline
      ensures InStep() && Counts(budget, |log.calls|)
      ensures log.fallbacks == old(log).fallbacks && log.considered == old(log).considered
      ensures !Fails(exit) ==> RunOK(config, plan, payload, deadline, log, exit, clock)
      ensures Fails(exit) ==>
                && RunCore(config, plan, payload, deadline, log, Err(primaryError), clock) && OwnError(log, primaryError)
                && Tried(log, Chain(plan), RequestTerms(plan, params, deadline), position + 1)
                && (IsFallbackEligible(exit.error) ==> MayTry(log, position + 1, clock))
                && (Hint(exit.error) > 0 || !IsFallbackEligible(exit.error) ==> |log.hops| > 1 && log.hops[|log.hops| - 1].exit == exit)
    {
      hide RunOK, RunCore, HistoryOK, Tried, MayTry, InStep;
      ghost var l0 := log;
      RunGivesHistory(config, plan, payload, deadline, log, Err(primaryError), clock);
      exit := ExecuteHop(plan, position, fallback, params, deadline, budget);
      if log.hops != l0.hops {
        HopTried(config, plan, payload, deadline, l0, log, primaryError, position, exit, old(clock), clock);
        TriedGrows(l0, log, plan, RequestTerms(plan, params, deadline), position, exit, clock);
      } else if TimedOut(exit) {
        DeadlineEnds(config, plan, payload, deadline, l0, log, primaryError, old(clock), clock);
      } else {
        ClockPasses(config, plan, payload, deadline, log, Err(primaryError), old(clock), clock);
        TriedSkips(log, plan, RequestTerms(plan, params, deadline), position);
        MayTryLater(log, position, position + 1, old(clock), clock);
      }
    }

    /** One turn of the fallback loop for the target at `position`. */
    method TryFallback(plan: RoutePlan, ghost position: nat, fallback: RoutePlan, fromTarget: string, params: Params, ghost payload: Payload,
                       ghost primaryError: ExecutorError, deadline: nat, budget: AttemptBudget)
      returns (step: FallbackStep)
      requires payload == Payload(Some(params.messages), params.maxTokens) && SupportsTokens(fallback, params.maxTokens)
      requires 1 <= position < |Chain(plan)| && Chain(plan)[position] == fallback
      requires fromTarget == LastTarget(log.fallbacks, plan.targetId) && log.considered == position - 1 && IsFallbackEligible(primaryError)
      requires RunCore(config, plan, payload, deadline, log, Err(primaryError), clock) && OwnError(log, primaryError)
      requires MayTry(log, position, clock) && Tried(log, Chain(plan), RequestTerms(plan, params, deadline), position)
      requires InStep() && Counts(budget, |log.calls|)
      modifies this`clock, this`log, budget, registry
      ensures old(clock) <= clock && (punctual ==> clock <= Max(old(clock), deadline))
      ensures punctual && step.Leave? && (step.exit.Ok? || Fails(step.exit)) ==> clock < deadline
      ensures InStep() && Counts(budget, |log.calls|)
      ensures match step
              case Leave(exit) =>
                RunOK(config, plan, payload, deadline, log, exit, clock)
              case Halt =>
                && RunCore(config, plan, payload, deadline, log, Err(primaryError), clock) && OwnError(log, primaryError)
                && Fails(log.hops[|log.hops| - 1].exit) && !IsFallbackEligible(log.hops[|log.hops| - 1].exit.error)
                && Judged(log, deadline, Err(primaryError), clock)
              case Next =>
                && RunCore(config, plan, payload, deadline, log, Err(primaryError), clock) && OwnError(log, primaryError)
                && MayTry(log, position + 1, clock) && Tried(log, Chain(plan), RequestTerms(plan, params, deadline), position + 1)
                && LastTarget(log.fallbacks, plan.targetId) == fallback.targetId && log.considered == position
    {
      hide RunOK, RunCore, Tried, MayTry, InStep;
      AnnounceFallback(plan, position, fallback, fromTarget, params, payload, primaryError, deadline);
      var exit := ExecuteFallbackHop(plan, position, fallback, params, payload, primaryError, deadline, budget);
      if !Fails(exit) {
        return Leave(exit);
      }
      ghost var tried, triedLog := clock, log;
      var ended := EndIfThrottled(plan, payload, primaryError, exit.error, deadline);
      if ended.Some? {
        return Leave(ended.value);
      }
      if IsFallbackEligible(exit.error) {
        MayTryJudged(triedLog, log, position + 1, tried, clock);
        TriedJudged(triedLog, log, plan, RequestTerms(plan, params, deadline), position + 1);
        return Next;
      }
      return Halt;
    }

    /** The switch to a fallback that can serve the tokens is recorded. */
    method AnnounceFallback(ghost plan: RoutePlan, ghost position: nat, fallback: RoutePlan, fromTarget: string, ghost params: Params, ghost payload: Payload,
                            ghost primaryError: ExecutorError, ghost deadline: nat)
      requires payload == Payload(Some(params.messages), params.maxTokens) && 1 <= position < |Chain(plan)| && Chain(plan)[position] == fallback
      requires SupportsTokens(fallback, params.maxTokens)
      requires RunCore(config, plan, payload, deadline, log, Err(primaryError), clock) && OwnError(log, primaryError)
      requires MayTry(log, position, clock) && Tried(log, Chain(plan), RequestTerms(plan, params, deadline), position)
      requires InStep() && fromTarget == LastTarget(log.fallbacks, plan.targetId) && log.considered == position - 1
      modifies this`log
      ensures RunCore(config, plan, payload, deadline, log, Err(primaryError), clock) && OwnError(log, primaryError)
      ensures MayTry(log, position, clock) && Tried(log, Chain(plan), RequestTerms(plan, params, deadline), position)
      ensures InStep()
      ensures log == old(log).(fallbacks := old(log).fallbacks + [(fromTarget, fallback.targetId)], considered := position)
    {
      hide RunCore, Tried, HistoryOK, MayTry, SupportsTokens, ActsBy, ActsOf, OwnLive, Circuit.ValidRun, Circuit.Exec;
      ghost var l0 := log;
      log := log.(fallbacks := log.fallbacks + [(fromTarget, fallback.targetId)], considered := log.considered + 1);
      FallbackConsidered(config, plan, payload, deadline, l0, log, primaryError, clock, position);
      MayTryStays(l0, log, position, position, clock);
    }

    /** A fallback that cannot serve the tokens is passed over. */
    ghost method SkipFallback(plan: RoutePlan, position: nat, params: Params, payload: Payload, primaryError: ExecutorError, deadline: nat)
      requires payload == Payload(Some(params.messages), params.maxTokens) && 1 <= position < |Chain(plan)| && !SupportsTokens(Chain(plan)[position], params.maxTokens)
      requires RunCore(config, plan, payload, deadline, log, Err(primaryError), clock) && OwnError(log, primaryError)
      requires MayTry(log, position, clock) && Tried(log, Chain(plan), RequestTerms(plan, params, deadline), position)
      requires InStep() && log.considered == position - 1
      modifies this`log
      ensures RunCore(config, plan, payload, deadline, log, Err(primaryError), clock) && OwnError(log, primaryError)
      ensures MayTry(log, position + 1, clock) && Tried(log, Chain(plan), RequestTerms(plan, params, deadline), position + 1)
      ensures InStep() && log == old(log).(considered := position)
    {
      hide RunCore, Tried, HistoryOK, MayTry, SupportsTokens, ActsBy, ActsOf, OwnLive, Circuit.ValidRun, Circuit.Exec;
      var l0 := log;
      log := log.(considered := log.considered + 1);
      FallbackConsidered(config, plan, payload, deadline, l0, log, primaryError, clock, position);
      MayTryStays(l0, log, position, position + 1, clock);
      TriedSkips(log, plan, RequestTerms(plan, params, deadline), position);
    }

    /** The deadline check between two steps of a request about to fail with `primaryError`. */
    method EndIfExpired(ghost plan: RoutePlan, ghost payload: Payload, ghost primaryError: ExecutorError, deadline: nat) returns (ended: Option<Exit>)
      requires RunCore(config, plan, payload, deadline, log, Err(primaryError), clock) && OwnError(log, primaryError)
      requires InStep()
      modifies this`clock, this`log
      ensures InStep()
      ensures old(clock) <= clock && (punctual ==> clock == old(clock))
      ensures ended.Some? <==> deadline <= clock
      ensures log.hops == old(log).hops
      ensures ended.Some? ==> TimedOut(ended.value)
      ensures ended.Some? ==> RunOK(config, plan, payload, deadline, log, ended.value, clock)
      ensures ended.None? ==> log == old(log) && RunCore(config, plan, payload, deadline, log, Err(primaryError), clock)
    {
      hide RunCore, RunOK, ActsBy, OwnLive, Circuit.ValidRun, Circuit.Exec;
      ghost var l0 := log;
      var expired := IsExpired(deadline);
      if expired {
        var exit := DeadlineError();
        DeadlineEnds(config, plan, payload, deadline, l0, log, primaryError, old(clock), clock);
        return Some(exit);
      }
      ClockPasses(config, plan, payload, deadline, log, Err(primaryError), old(clock), clock);
      ended := None;
    }

    method ExecuteFallbacks(plan: RoutePlan, params: Params, ghost payload: Payload, primaryError: ExecutorError, deadline: nat, budget: AttemptBudget)
      returns (exit: Exit)
      requires payload == Payload(Some(params.messages), params.maxTokens)
      requires RunCore(config, plan, payload, deadline, log, Err(primaryError), clock) && OwnError(log, primaryError)
      requires MayTry(log, 1, clock) && Tried(log, Chain(plan), RequestTerms(plan, params, deadline), 1) && log.considered == 0 && log.fallbacks == [] && IsFallbackEligible(primaryError)
      requires InStep() && Counts(budget, |log.calls|)
      modifies this`clock, this`log, budget, registry
      ensures old(clock) <= clock && (punctual ==> clock <= Max(old(clock), deadline))
      ensures punctual && (exit.Ok? || Fails(exit)) ==> clock < deadline
      ensures InStep()
      ensures RunOK(config, plan, payload, deadline, log, exit, clock)
    {
      hide RunCore, RunOK, Tried, MayTry, InStep;
      var ended := EndIfExpired(plan, payload, primaryError, deadline);
      if ended.Some? {
        return ended.value;
      }
      var fallbackPlans := plan.fallbackPlans;
      if fallbackPlans == [] {
        MayTryLast(log, 1, old(clock));
        PrimaryErrorEnds(config, plan, payload, deadline, log, primaryError, clock);
        return Err(primaryError);
      }
      MayTryLater(log, 1, 1, old(clock), clock);
      var fromTarget := plan.targetId;
      var index := 0;
      ghost var halted := false;
      while index < |fallbackPlans|
        invariant index <= |fallbackPlans|
        invariant old(clock) <= clock && (punctual ==> clock <= Max(old(clock), deadline))
        invariant RunCore(config, plan, payload, deadline, log, Err(primaryError), clock) && OwnError(log, primaryError)
        invariant MayTry(log, index + 1, clock) && Tried(log, Chain(plan), RequestTerms(plan, params, deadline), index + 1)
        invariant InStep() && Counts(budget, |log.calls|)
        invariant fromTarget == LastTarget(log.fallbacks, plan.targetId) && log.considered == index && !halted
      {
        ghost var top := clock;
        ended := EndIfExpired(plan, payload, primaryError, deadline);
        if ended.Some? {
          return ended.value;
        }
        var fallback := fallbackPlans[index];
        index := index + 1;
        MayTryLater(log, index, index, top, clock);
        if !SupportsTokens(fallback, params.maxTokens) {
          SkipFallback(plan, index, params, payload, primaryError, deadline);
          continue;
        }
        var step := TryFallback(plan, index, fallback, fromTarget, params, payload, primaryError, deadline, budget);
        match step {
          case Leave(left) =>
            return left;
          case Halt =>
            halted := true;
            break;
          case Next =>
            fromTarget := fallback.targetId;
        }
      }
      if !halted {
        MayTryLast(log, index + 1, clock);
      }
      ended := EndIfExpired(plan, payload, primaryError, deadline);
      if ended.Some? {
        return ended.value;
      }
      PrimaryErrorEnds(config, plan, payload, deadline, log, primaryError, clock);
      exit := Err(primaryError);
    }

    /** The primary's error ends the request when its minimum wait no longer fits or it does not
        allow fallback. */
    method EndAfterPrimary(ghost plan: RoutePlan, ghost payload: Payload, primaryError: ExecutorError, deadline: nat) returns (ended: Option<Exit>)
      requires RunCore(config, plan, payload, deadline, log, Err(primaryError), clock) && !primaryError.DeadlineExceeded?
      requires InStep() && |log.hops| == 1 && OwnError(log, primaryError)
      modifies this`clock, this`log
      ensures InStep()
      ensures old(clock) <= clock && (punctual ==> clock == old(clock))
      ensures punctual && (ended.None? || Fails(ended.value)) ==> clock < deadline
      ensures ended.Some? ==> !ended.value.Ok? && !ended.value.Cancelled?
      ensures log.hops == old(log).hops
      ensures ended.Some? ==> RunOK(config, plan, payload, deadline, log, ended.value, clock)
      ensures ended.None? ==>
                && log == old(log) && RunCore(config, plan, payload, deadline, log, Err(primaryError), clock) && IsFallbackEligible(primaryError)
    {
      hide RunCore, RunOK, ActsBy, OwnLive, Circuit.ValidRun, Circuit.Exec;
      ghost var l0 := log;
      var terminal, _ := TerminateForProviderMinimum(primaryError, deadline);
      ClockPasses(config, plan, payload, deadline, log, Err(primaryError), old(clock), clock);
      if terminal.Some? {
        var exit := ObserveTerminal(terminal.value);
        if terminal.value.DeadlineExceeded? {
          DeadlineEnds(config, plan, payload, deadline, l0, log, primaryError, old(clock), clock);
        } else {
          OwnErrorEnds(config, plan, payload, deadline, log, primaryError, clock);
        }
        return Some(exit);
      }
      if !IsFallbackEligible(primaryError) {
        OwnErrorEnds(config, plan, payload, deadline, log, primaryError, clock);
        return Some(Err(primaryError));
      }
      return None;
    }

    /** Every exit leaves a legal history and no permit, and what the owner did to the circuits is
        what the history's hops say. */
    method Execute(plan: RoutePlan, payload: Payload, deadline: nat) returns (exit: Exit)
      requires log == NO_HISTORY && Sound() && Live() == {}
      modifies this`clock, this`log, this`earlier, registry
      ensures old(clock) <= clock && (punctual ==> clock <= Max(old(clock), deadline))
      ensures punctual && (exit.Ok? || Fails(exit)) ==> clock < deadline
      ensures earlier == old(Acts()) && InStep()
      ensures forall p :: p in registry.history.live ==> p.owner != owner
      ensures RunOK(config, plan, payload, deadline, log, exit, clock)
    {
      hide RunOK, RunCore, HopAdded, HistoryOK, Tried, Complete, ActsBy, OwnLive, Circuit.ValidRun, Circuit.Exec;
      earlier := Acts();
      OwnsNone(registry.history, owner);
      assert ActsOf([]) == [] && Acts() == earlier + ActsOf([]);
      var expired := IsExpired(deadline);
      if expired {
        exit := DeadlineError();
        NothingDone(config, plan, payload, deadline, log, exit, clock);
        return;
      }
      if payload.messages.None? {
        NothingDone(config, plan, payload, deadline, log, Err(INVALID_MESSAGES), clock);
        return Err(INVALID_MESSAGES);
      }
      exit := ExecuteValid(plan, Params(payload.messages.value, payload.maxTokens), payload, deadline);
      OwnsNone(registry.history, owner);
    }

    /** The request once its payload is known to be valid. */
    method ExecuteValid(plan: RoutePlan, params: Params, ghost payload: Payload, deadline: nat) returns (exit: Exit)
      requires log == NO_HISTORY && InStep() && payload == Payload(Some(params.messages), params.maxTokens)
      modifies this`clock, this`log, registry
      ensures old(clock) <= clock && (punctual ==> clock <= Max(old(clock), deadline))
      ensures punctual && (exit.Ok? || Fails(exit)) ==> clock < deadline
      ensures InStep()
      ensures RunOK(config, plan, payload, deadline, log, exit, clock)
    {
      hide RunOK, RunCore, HopAdded, HistoryOK, Tried, Complete, InStep;
      var budget := new AttemptBudget(config.maxTotalAttempts);
      EmptyHistory(log, Cancelled, RequestTerms(plan, params, deadline));
      exit := ExecuteHop(plan, 0, plan, params, deadline, budget);
      if log.hops == [] {
        NothingDone(config, plan, payload, deadline, log, exit, clock);
      } else {
        PrimaryTried(config, plan, payload, deadline, log, exit, clock);
      }
      if !Fails(exit) {
        return;
      }
      var primaryError := exit.error;
      ghost var tried := clock;
      var ended := EndAfterPrimary(plan, payload, primaryError, deadline);
      if ended.Some? {
        return ended.value;
      }
      MayTryLater(log, 1, 1, tried, clock);
      exit := ExecuteFallbacks(plan, params, payload, primaryError, deadline, budget);
    }
  }

  /** Records the outcome of one started attempt exactly once, on completion or on drop. */
  class StartedAttempt {
    const service: ExecutorService
    const target: string
    const deadline: nat
    var recorded: bool

    constructor (service: ExecutorService, target: string, deadline: nat)
      ensures this.service == service && this.target == target && this.deadline == deadline && !recorded
    {
      this.service := service;
      this.target := target;
      this.deadline := deadline;
      recorded := false;
    }

    method Record(outcome: AttemptOutcome)
      modifies this, service`log
      ensures recorded
      ensures service.log == if old(recorded) then old(service.log)
                             else old(service.log).(outcomes := old(service.log).outcomes + [(target, outcome)])
    {
      if recorded {
        return;
      }
      recorded := true;
      service.log := service.log.(outcomes := service.log.outcomes + [(target, outcome)]);
    }

    method Drop() returns (ghost expired: bool)
      modifies this, service`log, service`clock
      ensures recorded && old(service.clock) <= service.clock
      ensures service.punctual ==> service.clock == old(service.clock)
      ensures old(recorded) ==> service.clock == old(service.clock) && service.log == old(service.log)
      ensures !old(recorded) ==>
                && (expired <==> deadline <= service.clock)
                && service.log == old(service.log).(outcomes := old(service.log).outcomes + [(target, OutcomeOf(Abandoned(expired)))])
    {
      expired := false;
      if recorded {
        return;
      }
      var late := service.IsExpired(deadline);
      expired := late;
      Record(if late then DeadlineOutcome else CancelledOutcome);
    }

    method Complete(outcome: AttemptOutcome)
      requires !recorded
      modifies this, service`log, service`clock
      ensures service.clock == old(service.clock)
      ensures service.log == old(service.log).(outcomes := old(service.log).outcomes + [(target, outcome)])
    {
      Record(outcome);
      var _ := Drop();
    }
  }
}
