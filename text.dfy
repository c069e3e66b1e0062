/** Small value types and string helpers shared by every component of the model. */
module Text {

  datatype Option<+T> = None | Some(value: T) {
    function GetOr(default: T): T {
      match this
      case Some(v) => v
      case None => default
    }
  }

  datatype Result<+R, +E> = Success(value: R) | Failure(error: E)

  /** A byte of a `Data` payload. */
  newtype byte = x: int | 0 <= x < 256

  type Data = seq<byte>

  /** Concatenation of a list of strings, as `joined()` does. */
  function Concat(parts: seq<string>): string {
    if parts == [] then "" else parts[0] + Concat(parts[1..])
  }

  lemma {:induction false} ConcatAppend(a: seq<string>, b: seq<string>)
    ensures Concat(a + b) == Concat(a) + Concat(b)
  {
    if a == [] {
      assert a + b == b;
    } else {
      assert (a + b)[1..] == a[1..] + b;
      ConcatAppend(a[1..], b);
    }
  }

  /** `parts` joined with `sep` between consecutive elements, as `joined(separator:)` does. */
  function Join(parts: seq<string>, sep: string): string {
    if parts == [] then ""
    else if |parts| == 1 then parts[0]
    else parts[0] + sep + Join(parts[1..], sep)
  }

  predicate IsPrefix(p: string, s: string) {
    |p| <= |s| && s[..|p|] == p
  }

  predicate IsSuffix(p: string, s: string) {
    |p| <= |s| && s[|s| - |p|..] == p
  }

  /** `pattern` occurs in `s` starting at index `i`. */
  predicate OccursAt(s: string, pattern: string, i: int) {
    0 <= i && i + |pattern| <= |s| && s[i..i + |pattern|] == pattern
  }

  /** `pattern` occurs in `s` as a contiguous substring. */
  predicate Contains(s: string, pattern: string) {
    exists i :: 0 <= i <= |s| - |pattern| && OccursAt(s, pattern, i)
  }

  /** Some element of `patterns` occurs in `s`. */
  predicate ContainsAny(s: string, patterns: seq<string>) {
    exists k :: 0 <= k < |patterns| && Contains(s, patterns[k])
  }

  function DigitChar(d: nat): char
    requires d < 10
  {
    "0123456789"[d]
  }

  /** Decimal rendering of a natural number, as string interpolation prints it. */
  function NatToString(n: nat): (r: string)
    ensures |r| >= 1
    ensures forall i :: 0 <= i < |r| ==> '0' <= r[i] <= '9'
    decreases n
  {
    if n < 10 then [DigitChar(n)] else NatToString(n / 10) + [DigitChar(n % 10)]
  }

  /** Decimal rendering of an integer, with a leading '-' when negative. */
  function IntToString(n: int): string {
    if n < 0 then "-" + NatToString(-n) else NatToString(n)
  }
}
