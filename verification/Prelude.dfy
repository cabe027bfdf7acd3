/** Small vocabulary shared by the models: options, machine bounds and time units. */
module Prelude {

  datatype Option<+T> = None | Some(value: T)

  /** Instants and durations are natural numbers of nanoseconds; configuration is in milliseconds. */
  const NANOS_PER_MS: nat := 1_000_000

  const U32_MAX: nat := 0xFFFF_FFFF
  const U64_MAX: nat := 0xFFFF_FFFF_FFFF_FFFF

  function Min(a: nat, b: nat): nat {
    if a <= b then a else b
  }

  function Max(a: nat, b: nat): nat {
    if a <= b then b else a
  }

  /** `Duration::from_millis`. */
  function Millis(ms: nat): nat {
    ms * NANOS_PER_MS
  }

  /** `Duration::as_millis`, which truncates, clamped to u64. */
  function WholeMillis(d: nat): nat {
    Min(d / NANOS_PER_MS, U64_MAX)
  }

  /** Duration from `earlier` to `later`, zero when `later` is not later. */
  function Since(later: nat, earlier: nat): nat {
    if earlier <= later then later - earlier else 0
  }

  lemma WholeMillisMonotone(a: nat, b: nat)
    requires a <= b
    ensures WholeMillis(a) <= WholeMillis(b)
  {
  }
}
