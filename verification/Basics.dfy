/** Small shared vocabulary: optional values, results and saturating instants. */
module Basics {

  datatype Option<+T> = None | Some(value: T)

  datatype Result<+T, +E> = Ok(value: T) | Err(error: E)

  const U64_LIMIT: nat := 0x1_0000_0000_0000_0000

  /** Milliseconds on the driver's monotonic clock, a `u64` in the source. */
  type Instant = n: int | 0 <= n < U64_LIMIT witness 0

  /** An instant moved forward, saturating at the end of the clock. */
  function SaturatingAdd(at: Instant, delay: nat): (r: Instant)
    ensures r >= at
    ensures r == at + delay || (r == U64_LIMIT - 1 && at + delay > r)
  {
    if at + delay >= U64_LIMIT then U64_LIMIT - 1 else at + delay
  }

  function RemoveAt<T>(s: seq<T>, i: nat): (r: seq<T>)
    requires i < |s|
    ensures |r| == |s| - 1
    ensures forall k :: 0 <= k < |r| ==> r[k] == s[if k < i then k else k + 1]
  {
    s[..i] + s[i + 1..]
  }
}
