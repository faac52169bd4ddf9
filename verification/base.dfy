/** Value types shared by every part of the model: optional values, results,
    octets, C integer ranges and the few `std::string` operations the
    program relies on (`find`, `tolower`, `toupper`). */
module Base {

  datatype Option<+T> = None | Some(value: T)

  datatype Result<+T, +E> = Ok(value: T) | Err(error: E) {
    predicate IsFailure() {
      Err?
    }

    function PropagateFailure<U>(): Result<U, E>
      requires Err?
    {
      Err(error)
    }

    function Extract(): T
      requires Ok?
    {
      value
    }
  }

  /** An unsigned octet, as read from an HCI event buffer or an AD structure. */
  type byte = x: int | 0 <= x < 256

  /** A signed octet (`int8_t`), the type of every RSSI and TX power reading. */
  type int8 = x: int | -128 <= x < 128

  const INT_MIN: int := -0x8000_0000
  const INT_MAX: int := 0x7fff_ffff

  /** The values of a 32-bit C `int`. */
  type int32 = x: int | INT_MIN <= x <= INT_MAX

  /** `(int8_t)b`: the octet read as a two's-complement signed value. */
  function SignedByte(b: byte): (r: int8)
    ensures (r + 256) % 256 == b
    ensures b < 128 <==> r >= 0
  {
    if b < 128 then b else b - 256
  }

  /** `std::string::find(pat)`: the first index at which `pat` occurs in `s`. */
  function Find(s: string, pat: string): (r: Option<nat>)
    ensures r.Some? ==> r.value + |pat| <= |s| && pat <= s[r.value..]
    ensures r.Some? ==> forall j :: 0 <= j < r.value ==> !(pat <= s[j..])
    ensures r.None? ==> forall j :: 0 <= j <= |s| ==> !(pat <= s[j..])
    decreases |s|
  {
    if pat <= s then Some(0)
    else if |s| == 0 then None
    else
      match Find(s[1..], pat)
      case Some(k) =>
        assert forall j :: 1 <= j <= |s| ==> s[j..] == s[1..][j - 1..];
        Some(k + 1)
      case None =>
        assert forall j :: 1 <= j <= |s| ==> s[j..] == s[1..][j - 1..];
        None
  }

  /** `s.find(pat) != std::string::npos`. */
  predicate Contains(s: string, pat: string)
  {
    Find(s, pat).Some?
  }

  /** `std::tolower` in the C locale: only 'A'..'Z' change. */
  function LowerChar(c: char): (r: char)
    ensures 'A' <= c <= 'Z' ==> 'a' <= r <= 'z' && r as int - c as int == 32
    ensures !('A' <= c <= 'Z') ==> r == c
  {
    if 'A' <= c <= 'Z' then (c as int + 32) as char else c
  }

  /** `std::toupper` in the C locale: only 'a'..'z' change. */
  function UpperChar(c: char): (r: char)
    ensures 'a' <= c <= 'z' ==> 'A' <= r <= 'Z' && c as int - r as int == 32
    ensures !('a' <= c <= 'z') ==> r == c
  {
    if 'a' <= c <= 'z' then (c as int - 32) as char else c
  }

  /** The characters of a byte string, one `char` per octet. */
  function BytesToString(bs: seq<byte>): (r: string)
    ensures |r| == |bs|
    ensures forall i :: 0 <= i < |bs| ==> r[i] as int == bs[i]
  {
    seq(|bs|, i requires 0 <= i < |bs| => bs[i] as char)
  }
}
