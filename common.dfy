/** Small shared vocabulary: optional values, results, the two bet sides,
    and min/max over reals as Python's built-ins compute them. */
module Common {

  datatype Option<+T> = None | Some(value: T) {
    function GetOr(default: T): T {
      match this
      case Some(v) => v
      case None => default
    }
  }

  datatype Result<+T, +E> = Ok(value: T) | Err(error: E)

  /** The side of a binary market bet. */
  datatype Side = Yes | No

  /** A forecast `(probability, confidence, reasoning)`. */
  datatype Prediction = Prediction(probability: real, confidence: real, reasoning: string)

  /** The source's side token ("YES" / "NO"). */
  function SideName(s: Side): string {
    match s
    case Yes => "YES"
    case No => "NO"
  }

  function Min(a: real, b: real): real {
    if b < a then b else a
  }

  function Max(a: real, b: real): real {
    if b > a then b else a
  }

  function Abs(x: real): real {
    if x < 0.0 then -x else x
  }

  /** max(lo, min(hi, x)) */
  function Clamp(lo: real, hi: real, x: real): real {
    Max(lo, Min(hi, x))
  }

  function Truncate<T>(s: seq<T>, n: nat): (r: seq<T>)
    ensures |r| <= n && r <= s
    ensures |s| <= n ==> r == s
  {
    if |s| <= n then s else s[..n]
  }
}
