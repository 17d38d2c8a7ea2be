/** Values shared by every part of the block reporter: optional values, block
    coordinates, the values an attribute map holds, Java's 32-bit integers and
    ASCII case mapping. */
module Common {

  datatype Option<+T> = None | Some(value: T)

  /** A block coordinate: the name of its world and integer x, y, z.
      Two locations are equal exactly when all four parts are. */
  datatype Location = Location(world: string, x: int, y: int, z: int)

  /** A value of a block attribute map: a string, an integer, a boolean or a
      list of strings (the kinds of object the plugin puts into its HashMap). */
  datatype Value = Str(s: string) | Int(i: int) | Bool(b: bool) | StrList(items: seq<string>)

  const INT_MIN: int := -0x8000_0000
  const INT_MAX: int := 0x7fff_ffff
  const TWO_32: int := 0x1_0000_0000

  predicate IsInt32(n: int) {
    INT_MIN <= n <= INT_MAX
  }

  /** Java's narrowing of a long (or any whole number) to int: keeps the low
      32 bits, read as two's complement. */
  function Wrap32(n: int): (r: int)
    ensures IsInt32(r)
    ensures (r - n) % TWO_32 == 0
    ensures IsInt32(n) ==> r == n
  {
    var m := n % TWO_32;
    if m > INT_MAX then m - TWO_32 else m
  }

  /** Java's (int) cast of a finite double: rounds toward zero and saturates
      at the int range. */
  function TruncToInt32(r: real): (n: int)
    ensures IsInt32(n)
    ensures r >= (INT_MAX + 1) as real ==> n == INT_MAX
    ensures r < INT_MIN as real ==> n == INT_MIN
    ensures INT_MIN as real <= r < (INT_MAX + 1) as real && r >= 0.0 ==> n as real <= r < (n + 1) as real
    ensures INT_MIN as real <= r < (INT_MAX + 1) as real && r < 0.0 ==> (n - 1) as real < r <= n as real
  {
    if r >= (INT_MAX + 1) as real then INT_MAX
    else if r <= INT_MIN as real then INT_MIN
    else if r >= 0.0 then r.Floor
    else -((-r).Floor)
  }

  predicate IsLowerAscii(c: char) {
    'a' <= c <= 'z'
  }

  function UpperChar(c: char): (u: char)
    ensures !IsLowerAscii(u)
    ensures IsLowerAscii(c) ==> u as int == c as int - 32
    ensures !IsLowerAscii(c) ==> u == c
  {
    if IsLowerAscii(c) then (c as int - 32) as char else c
  }

  function LowerChar(c: char): char {
    if 'A' <= c <= 'Z' then (c as int + 32) as char else c
  }

  /** String.toUpperCase restricted to ASCII letters. */
  function ToUpper(s: string): (r: string)
    ensures |r| == |s|
    ensures forall i :: 0 <= i < |s| ==> r[i] == UpperChar(s[i])
  {
    seq(|s|, i requires 0 <= i < |s| => UpperChar(s[i]))
  }

  /** Upper-casing twice is the same as upper-casing once, and the result has
      no lower-case ASCII letter. */
  lemma ToUpperIdempotent(s: string)
    ensures ToUpper(ToUpper(s)) == ToUpper(s)
    ensures forall i :: 0 <= i < |s| ==> !IsLowerAscii(ToUpper(s)[i])
  {
  }

  /** String.equalsIgnoreCase restricted to ASCII letters: same length and
      each pair of characters equal after folding. */
  predicate EqualsIgnoreCase(a: string, b: string) {
    |a| == |b| && forall i :: 0 <= i < |a| ==> LowerChar(UpperChar(a[i])) == LowerChar(UpperChar(b[i]))
  }
}
