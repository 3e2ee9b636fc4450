/** Types shared by the miner visualiser and the mining simulator models. */
module Common {

  datatype Option<+T> = None | Some(value: T)

  /** The outcome of an operation whose Python original may raise. */
  datatype Result<+T, +E> = Ok(value: T) | Err(error: E)

  /** A block header hash: a hex digest, never the empty string. Because of this,
      Python's truthiness test on a parent hash is the same as "is not None". */
  type Hash = h: string | |h| > 0 witness "0"

  /** Python's `s[0:8]`: the first eight characters, or all of `s` when shorter. */
  function Prefix8(s: string): (r: string)
    ensures |r| == if |s| < 8 then |s| else 8
    ensures r <= s
  {
    if |s| <= 8 then s else s[..8]
  }

  /** Python's `s[1:-1]` on a string: drops the first and last characters. */
  function StripQuotes(s: string): (r: string)
    ensures |s| >= 2 ==> |r| == |s| - 2 && forall i :: 0 <= i < |r| ==> r[i] == s[i + 1]
    ensures |s| < 2 ==> r == ""
  {
    if |s| >= 2 then s[1..|s| - 1] else ""
  }
}
