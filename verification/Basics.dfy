/** Failure-carrying datatypes and the integer helpers shared by every module. */
module Basics {

  datatype Option<+T> = None | Some(value: T)

  datatype Result<+T, +E> = Ok(value: T) | Err(error: E)

  /** The storage errors that the modelled operations can raise themselves. */
  datatype StorageError = Unavailable | Timeout | InvalidData

  datatype ProviderId = Abuseipdb | Virustotal

  datatype IndicatorKind = Ip | Url | Hash

  const I64_MAX: int := 0x7fff_ffff_ffff_ffff
  const I64_MIN: int := -0x8000_0000_0000_0000
  const TWO_64: int := 0x1_0000_0000_0000_0000

  function Max(a: int, b: int): int {
    if a < b then b else a
  }

  function Min(a: int, b: int): int {
    if a < b then a else b
  }

  /** `u64::saturating_sub`. */
  function SaturatingSub(a: nat, b: nat): nat {
    if a < b then 0 else a - b
  }

  ghost predicate Sorted(s: seq<int>) {
    forall i, j :: 0 <= i < j < |s| ==> s[i] <= s[j]
  }

  /** One value for each of the two providers, which are also the two quota groups. */
  datatype PerProvider<T> = PerProvider(abuseipdb: T, virustotal: T) {
    function Get(p: ProviderId): T {
      match p
      case Abuseipdb => abuseipdb
      case Virustotal => virustotal
    }

    function Set(p: ProviderId, v: T): (r: PerProvider<T>)
      ensures forall q :: r.Get(q) == if q == p then v else Get(q)
    {
      match p
      case Abuseipdb => this.(abuseipdb := v)
      case Virustotal => this.(virustotal := v)
    }
  }
}
