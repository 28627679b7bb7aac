/** Machine widths, time and result types shared by every component of the model. */
module Prelude {

  // 2^64 - 1 and 2^256 - 1: the largest uint64 and the largest wei amount.
  const MAX_UINT64: nat := 0xffff_ffff_ffff_ffff
  const MAX_UINT256: nat :=
    0xffff_ffff_ffff_ffff_ffff_ffff_ffff_ffff_ffff_ffff_ffff_ffff_ffff_ffff_ffff_ffff

  type Uint64 = n: int | 0 <= n <= 0xffff_ffff_ffff_ffff
  type Wei = n: int | 0 <= n <= MAX_UINT256

  // Nanoseconds since the Unix epoch; the zero value of Go's time.Time is 0.
  type Time = int
  const UNSET: Time := 0
  const SECOND: Time := 1_000_000_000
  const MINUTE: Time := 60 * SECOND
  const HOUR: Time := 60 * MINUTE
  const DAY: Time := 24 * HOUR

  // 32-byte digests and 20-byte addresses, compared only for equality and order;
  // the all-zero value is 0.
  type Hash = nat
  type Address = nat
  type NetworkID = int
  type CandidateID = nat
  type IncidentID = nat

  // What was found on chain, or configured, to be rescued.
  datatype Kind = Token | Native | Periodic | Claim | FastToken

  const MAX_CONFIGURED_BOUND: nat := 1_000_000

  datatype Option<+T> = None | Some(value: T)
  datatype Result<+T, +E> = Ok(value: T) | Err(error: E)

  lemma MapRemoveSize<K, V>(m: map<K, V>, k: K)
    requires k in m
    ensures |m - {k}| == |m| - 1
  {
    assert (m - {k}).Keys == m.Keys - {k};
  }

  method Choose<T>(s: set<T>) returns (x: T)
    requires s != {}
    ensures x in s
  {
    x :| x in s;
  }
}
