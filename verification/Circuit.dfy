/** Target-scoped circuit breakers as a transition system.

    Every method of the registry holds one mutex from start to end, so any concurrent
    execution is a sequence of whole method calls.  `Event` is one such call, `Apply` its
    effect, and a sequence of events an interleaving of arbitrarily many requests. */
module Circuit {
  import opened Prelude

  /** Number of distinct values of a generation counter, which wraps. */
  const GENERATIONS: nat := 0x1_0000_0000_0000_0000

  datatype Phase =
    | Closed(failures: nat)
    | Open(until: nat)
    | HalfOpen(inFlight: bool)

  datatype CircuitState = CircuitState(generation: nat, phase: Phase)

  /** The state of a target that was never admitted. */
  const FRESH := CircuitState(0, Closed(0))

  datatype PermitKind = ClosedPermit | ProbePermit

  datatype Completion = Success | TransientFailure | Permanent

  /** Ownership of one admission.  `id` and `owner` name it in proofs only: the code compares
      the target, the generation and the kind. */
  datatype Permit = Permit(id: nat, owner: nat, target: string, generation: nat, kind: PermitKind)

  datatype RawPolicy = Policy(threshold: nat, cooldown: nat)

  /** Construction replaces a zero threshold by one; thresholds are u32. */
  type Policy = p: RawPolicy | 1 <= p.threshold <= U32_MAX witness Policy(1, 0)

  // ----- one circuit -------------------------------------------------------------------

  function NextGeneration(generation: nat): nat {
    (generation + 1) % GENERATIONS
  }

  function StartProbe(c: CircuitState): CircuitState {
    CircuitState(NextGeneration(c.generation), HalfOpen(true))
  }

  function SetOpen(policy: Policy, c: CircuitState, now: nat): CircuitState {
    CircuitState(NextGeneration(c.generation), Open(now + policy.cooldown))
  }

  function CloseCircuit(c: CircuitState): CircuitState {
    CircuitState(NextGeneration(c.generation), Closed(0))
  }

  /** Whether an admission at `now` is refused. */
  predicate Refuses(c: CircuitState, now: nat) {
    match c.phase
    case Closed(_) => false
    case Open(until) => now < until
    case HalfOpen(inFlight) => inFlight
  }

  function AfterAdmit(c: CircuitState, now: nat): CircuitState {
    if c.phase.Closed? || Refuses(c, now) then c else StartProbe(c)
  }

  function AfterCompletion(policy: Policy, c: CircuitState, kind: PermitKind, outcome: Completion, now: nat): CircuitState {
    match (kind, c.phase, outcome)
    case (ClosedPermit, Closed(_), Success) => c.(phase := Closed(0))
    case (ClosedPermit, Closed(failures), TransientFailure) =>
      var next := Min(failures + 1, U32_MAX);
      if policy.threshold <= next then SetOpen(policy, c, now) else c.(phase := Closed(next))
    case (ProbePermit, HalfOpen(_), TransientFailure) => SetOpen(policy, c, now)
    case (ProbePermit, HalfOpen(_), _) => CloseCircuit(c)
    case _ => c
  }

  function AfterRelease(c: CircuitState): CircuitState {
    if c.phase.HalfOpen? then c.(phase := HalfOpen(false)) else c
  }

  // ----- the registry ------------------------------------------------------------------

  /** A completion that reached a circuit still in the permit's generation. */
  datatype Applied = Applied(target: string, generation: nat, outcome: Completion)

  /** The map of the code, and the history the proofs speak about: permits ever issued, permits
      neither settled nor dropped, applied completions, the last clock reading and the number
      of events so far. */
  datatype Registry = Registry(
    circuits: map<string, CircuitState>,
    issued: set<Permit>,
    live: set<Permit>,
    log: seq<Applied>,
    clock: nat,
    steps: nat)

  const EMPTY := Registry(map[], {}, {}, [], 0, 0)

  datatype Event =
    | Admit(owner: nat, target: string, now: nat)
    | Complete(permit: Permit, outcome: Completion, now: nat)
    | Drop(permit: Permit)

  datatype Decision = Allowed(permit: Permit) | Rejected | Probing(permit: Permit)

  function At(r: Registry, target: string): CircuitState {
    if target in r.circuits then r.circuits[target] else FRESH
  }

  function Target(e: Event): string {
    match e
    case Admit(_, target, _) => target
    case Complete(permit, _, _) => permit.target
    case Drop(permit) => permit.target
  }

  /** The permit's generation is still the target's generation. */
  predicate Current(r: Registry, p: Permit) {
    p.target in r.circuits && r.circuits[p.target].generation == p.generation
  }

  function Decide(r: Registry, owner: nat, target: string, now: nat): Decision {
    var c := At(r, target);
    if Refuses(c, now) then Rejected
    else if c.phase.Closed? then Allowed(Permit(r.steps, owner, target, c.generation, ClosedPermit))
    else Probing(Permit(r.steps, owner, target, StartProbe(c).generation, ProbePermit))
  }

  function Issues(d: Decision): set<Permit> {
    if d.Rejected? then {} else {d.permit}
  }

  function Apply(policy: Policy, r: Registry, e: Event): Registry {
    match e
    case Admit(owner, target, now) =>
      var granted := Issues(Decide(r, owner, target, now));
      Registry(r.circuits[target := AfterAdmit(At(r, target), now)],
               r.issued + granted, r.live + granted, r.log, now, r.steps + 1)
    case Complete(p, outcome, now) =>
      if !Current(r, p) then r.(live := r.live - {p}, clock := now, steps := r.steps + 1)
      else r.(circuits := r.circuits[p.target := AfterCompletion(policy, r.circuits[p.target], p.kind, outcome, now)],
              live := r.live - {p},
              log := r.log + [Applied(p.target, p.generation, outcome)],
              clock := now, steps := r.steps + 1)
    case Drop(p) =>
      if p.kind.ProbePermit? && Current(r, p) then
        r.(circuits := r.circuits[p.target := AfterRelease(r.circuits[p.target])], live := r.live - {p}, steps := r.steps + 1)
      else r.(live := r.live - {p}, steps := r.steps + 1)
  }

  /** What the environment guarantees: the clock is read under the lock and never goes back, and
      a permit is settled or dropped at most once because settling consumes it. */
  predicate Enabled(r: Registry, e: Event) {
    match e
    case Admit(_, _, now) => r.clock <= now
    case Complete(p, _, now) => p in r.live && r.clock <= now
    case Drop(p) => p in r.live
  }

  function Exec(policy: Policy, r: Registry, es: seq<Event>): Registry
    decreases |es|
  {
    if es == [] then r else Exec(policy, Apply(policy, r, es[0]), es[1..])
  }

  predicate ValidRun(policy: Policy, r: Registry, es: seq<Event>)
    decreases |es|
  {
    es == [] || (Enabled(r, es[0]) && ValidRun(policy, Apply(policy, r, es[0]), es[1..]))
  }

  /** Length of the trailing run of transient failures that generation `generation` of `target`
      has seen; permanent errors neither extend nor break it. */
  function Streak(log: seq<Applied>, target: string, generation: nat): nat {
    if log == [] then 0
    else
      var last := log[|log| - 1];
      var rest := log[..|log| - 1];
      if last.target != target || last.generation != generation || last.outcome.Permanent? then
        Streak(rest, target, generation)
      else if last.outcome.Success? then 0
      else Streak(rest, target, generation) + 1
  }
}
