/** Generation admission and process drain: a counting limiter that closes for good, and a drain
    flag that is published only after the limiter is closed.

    Limiter and flag operations are atomic; marking the process as draining is two of them, so
    other operations may run in between. */
module Drain {
  import opened Prelude

  datatype AdmissionDenied = Closed | NoPermits

  /** `held` names the permits in use; `closers` are the callers of `mark_draining` that have
      closed the limiter and not yet published the flag. */
  datatype Process = Process(cap: nat, held: set<nat>, closed: bool, closers: set<nat>, draining: bool)

  datatype Event =
    | TryAcquire(permit: nat)
    | Release(permit: nat)
    | Close(caller: nat)
    | Publish(caller: nat)

  function Free(p: Process): int {
    p.cap - |p.held|
  }

  /** Why an acquisition is denied, if it is. */
  function Denial(p: Process): Option<AdmissionDenied> {
    if p.closed then Some(Closed) else if Free(p) <= 0 then Some(NoPermits) else None
  }

  /** A permit is acquired under a new name, released by its holder; a caller publishes after it
      has closed. */
  predicate Enabled(p: Process, e: Event) {
    match e
    case TryAcquire(permit) => permit !in p.held
    case Release(permit) => permit in p.held
    case Close(caller) => true
    case Publish(caller) => caller in p.closers
  }

  function Apply(p: Process, e: Event): Process {
    match e
    case TryAcquire(permit) => if Denial(p).Some? then p else p.(held := p.held + {permit})
    case Release(permit) => p.(held := p.held - {permit})
    case Close(caller) => p.(closed := true, closers := p.closers + {caller})
    case Publish(caller) => p.(draining := true, closers := p.closers - {caller})
  }

  predicate Inv(p: Process) {
    && |p.held| <= p.cap
    && (p.closed <==> p.draining || p.closers != {})
  }

  /** What no event undoes. */
  predicate After(earlier: Process, later: Process) {
    && later.cap == earlier.cap
    && (earlier.closed ==> later.closed && later.held <= earlier.held)
    && (earlier.draining ==> later.draining)
  }

  lemma {:induction false} StepKeepsInv(p: Process, e: Event)
    requires Inv(p) && Enabled(p, e)
    ensures Inv(Apply(p, e)) && After(p, Apply(p, e))
  {
    if e.TryAcquire? && Denial(p).None? {
      assert |p.held + {e.permit}| == |p.held| + 1;
    } else if e.Release? {
      assert |p.held - {e.permit}| == |p.held| - 1;
    }
  }

  function Exec(p: Process, es: seq<Event>): Process
    decreases |es|
  {
    if es == [] then p else Exec(Apply(p, es[0]), es[1..])
  }

  predicate ValidRun(p: Process, es: seq<Event>)
    decreases |es|
  {
    es == [] || (Enabled(p, es[0]) && ValidRun(Apply(p, es[0]), es[1..]))
  }

  function Running(cap: nat): Process {
    Process(cap, {}, false, {}, false)
  }

  lemma {:induction false} RunKeepsInv(p: Process, es: seq<Event>)
    requires Inv(p) && ValidRun(p, es)
    ensures Inv(Exec(p, es)) && After(p, Exec(p, es))
    decreases |es|
  {
    if es != [] {
      StepKeepsInv(p, es[0]);
      RunKeepsInv(Apply(p, es[0]), es[1..]);
    }
  }

  lemma {:induction false} RunSplits(p: Process, es: seq<Event>, k: nat)
    requires ValidRun(p, es) && k <= |es|
    ensures ValidRun(p, es[..k]) && ValidRun(Exec(p, es[..k]), es[k..])
    ensures Exec(Exec(p, es[..k]), es[k..]) == Exec(p, es)
    decreases k
  {
    if k == 0 {
      assert es[..0] == [] && es[0..] == es;
    } else {
      RunSplits(Apply(p, es[0]), es[1..], k - 1);
      assert es[1..][..k - 1] == es[..k][1..] && es[1..][k - 1..] == es[k..];
    }
  }

  /** Over every interleaving: free and held permits add up to the cap, and once anyone observes
      the drain flag no acquisition ever succeeds again, whatever is released meanwhile. */
  lemma {:induction false} NoAdmissionAfterDrain(cap: nat, es: seq<Event>, i: nat, j: nat)
    requires ValidRun(Running(cap), es) && i <= j <= |es|
    ensures var later := Exec(Running(cap), es[..j]);
            && 0 <= Free(later) && Free(later) + |later.held| == cap
            && (Exec(Running(cap), es[..i]).draining ==>
                  && later.closed && later.held <= Exec(Running(cap), es[..i]).held
                  && forall permit :: Apply(later, TryAcquire(permit)) == later)
  {
    RunSplits(Running(cap), es, j);
    RunSplits(Running(cap), es[..j], i);
    assert es[..j][..i] == es[..i];
    RunKeepsInv(Running(cap), es[..i]);
    RunKeepsInv(Exec(Running(cap), es[..i]), es[..j][i..]);
  }

  /** With the flag unset, admission is closed exactly while some caller of `mark_draining` has
      closed the limiter and not yet published. */
  lemma {:induction false} ClosedUnpublishedExactly(cap: nat, es: seq<Event>)
    requires ValidRun(Running(cap), es) && !Exec(Running(cap), es).draining
    ensures Denial(Exec(Running(cap), es)) == Some(Closed) <==> exists caller :: caller in Exec(Running(cap), es).closers
  {
    RunKeepsInv(Running(cap), es);
  }

  /** That happens: for every cap, right after the first of the two steps of any caller. */
  lemma {:induction false} CanBeClosedUnpublished(cap: nat, caller: nat)
    ensures ValidRun(Running(cap), [Close(caller)])
    ensures var p := Exec(Running(cap), [Close(caller)]);
            !p.draining && Denial(p) == Some(Closed) && caller in p.closers
  {
    var es := [Close(caller)];
    assert es[1..] == [] && Exec(Apply(Running(cap), es[0]), []) == Apply(Running(cap), es[0]);
  }

  // ----- the objects -------------------------------------------------------------------

  class AdmissionLimiter {
    const cap: nat
    var free: nat
    var closed: bool
    /** The holders of the slots, by name. */
    var process: Process

    ghost predicate Valid()
      reads this
    {
      Inv(process) && process.cap == cap && free == Free(process) && closed == process.closed
    }

    constructor (cap: nat)
      ensures Valid() && process == Running(cap)
    {
      this.cap := cap;
      free := cap;
      closed := false;
      process := Running(cap);
    }

    /** Never waits: a slot is taken at once or the reason for the denial is told. */
    method TryAcquire(permit: nat) returns (denied: Option<AdmissionDenied>)
      requires Valid() && Enabled(process, Event.TryAcquire(permit))
      modifies this
      ensures Valid() && process == Apply(old(process), Event.TryAcquire(permit))
      ensures denied == if old(process).closed then Some(Closed) else if |old(process).held| == old(process).cap then Some(NoPermits) else None
      ensures process == if denied.None? then old(process).(held := old(process).held + {permit}) else old(process)
    {
      StepKeepsInv(process, Event.TryAcquire(permit));
      if closed {
        return Some(Closed);
      }
      if free == 0 {
        return Some(NoPermits);
      }
      free := free - 1;
      process := Apply(process, Event.TryAcquire(permit));
      assert |old(process).held + {permit}| == |old(process).held| + 1;
      return None;
    }

    /** Dropping a permit returns its slot, and never reopens the limiter. */
    method Release(permit: nat)
      requires Valid() && Enabled(process, Event.Release(permit))
      modifies this
      ensures Valid() && process == Apply(old(process), Event.Release(permit))
      ensures free == old(free) + 1 && closed == old(closed) && process.held == old(process).held - {permit}
    {
      StepKeepsInv(process, Event.Release(permit));
      free := free + 1;
      process := Apply(process, Event.Release(permit));
      assert |old(process).held - {permit}| == |old(process).held| - 1;
    }

    method CloseAdmission(caller: nat)
      requires Valid()
      modifies this
      ensures Valid() && process == Apply(old(process), Close(caller))
      ensures closed && free == old(free) && process.held == old(process).held
    {
      StepKeepsInv(process, Close(caller));
      closed := true;
      process := Apply(process, Close(caller));
    }
  }

  /** The process's drain flag, wired to the limiter of the generation handlers. */
  class ShutdownState {
    const admission: AdmissionLimiter
    var draining: bool

    ghost predicate Valid()
      reads this, admission
    {
      admission.Valid() && draining == admission.process.draining
    }

    constructor (admission: AdmissionLimiter)
      requires admission.Valid() && !admission.process.draining
      ensures Valid() && this.admission == admission && !draining
    {
      this.admission := admission;
      draining := false;
    }

    method PublishFlag(caller: nat)
      requires Valid() && Enabled(admission.process, Publish(caller))
      modifies this`draining, admission`process
      ensures Valid() && admission.process == Apply(old(admission.process), Publish(caller))
    {
      StepKeepsInv(admission.process, Publish(caller));
      draining := true;
      admission.process := Apply(admission.process, Publish(caller));
    }

    /** Closes admission, then publishes the flag; anything else may happen in between. */
    method MarkDraining(caller: nat)
      requires Valid() && caller !in admission.process.closers
      modifies this, admission
      ensures Valid() && After(old(admission.process), admission.process)
      ensures draining && Denial(admission.process) == Some(Closed)
    {
      StepKeepsInv(admission.process, Close(caller));
      admission.CloseAdmission(caller);
      Others(caller);
      StepKeepsInv(admission.process, Publish(caller));
      PublishFlag(caller);
    }

    method IsDraining() returns (observed: bool)
      requires Valid()
      ensures observed <==> admission.process.draining
      ensures observed ==> Denial(admission.process) == Some(Closed)
    {
      observed := draining;
    }

    method Perform(e: Event)
      requires Valid() && Enabled(admission.process, e)
      modifies this`draining, admission
      ensures Valid() && admission.process == Apply(old(admission.process), e)
    {
      match e {
        case TryAcquire(permit) => var _ := admission.TryAcquire(permit);
        case Release(permit) => admission.Release(permit);
        case Close(other) => admission.CloseAdmission(other);
        case Publish(other) => PublishFlag(other);
      }
    }

    /** Other requests acquire and release, and other callers mark the process as draining. */
    method Others(caller: nat)
      requires Valid()
      modifies this, admission
      ensures Valid() && After(old(admission.process), admission.process)
      ensures caller in admission.process.closers <==> caller in old(admission.process).closers
    {
      var n: nat :| true;
      while n > 0
        invariant Valid() && After(old(admission.process), admission.process)
        invariant caller in admission.process.closers <==> caller in old(admission.process).closers
      {
        var e: Event :| true;
        if Enabled(admission.process, e) && (e.Close? || e.Publish? ==> e.caller != caller) {
          StepKeepsInv(admission.process, e);
          Perform(e);
        }
        n := n - 1;
      }
    }
  }
}
