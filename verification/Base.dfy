/** Shared vocabulary: optional values, JSON documents and the text rules of the source. */
module Base {

  datatype Option<+T> = None | Some(value: T)

  const WORD := 0x1_0000_0000_0000_0000

  /** Values of the source's 64-bit `usize`. */
  type Word = n: int | 0 <= n < WORD

  /** JSON integers are signed or unsigned 64-bit values. */
  type JsonInt = i: int | -0x8000_0000_0000_0000 <= i < WORD

  function Pow2(n: nat): (p: nat)
    ensures p >= 1
  {
    if n == 0 then 1 else 2 * Pow2(n - 1)
  }

  function Ratio(n: int, shift: nat): real {
    n as real / Pow2(shift) as real
  }

  ghost predicate Dyadic(r: real) {
    exists n: int, shift: nat :: r == Ratio(n, shift)
  }

  /** A finite float is modelled by its value, an integer divided by a power of two. */
  type Finite = r: real | Dyadic(r) witness (assert 0.0 == Ratio(0, 0); 0.0)

  /** JSON numbers. Integers are exact. */
  datatype Num = Int(i: JsonInt) | Float(r: Finite)

  datatype Json =
    | Null
    | Bool(b: bool)
    | Numeric(n: Num)
    | Str(s: string)
    | Arr(items: seq<Json>)
    | Obj(fields: map<string, Json>)

  predicate IsSpace(c: char) {
    var x := c as int;
    || 0x09 <= x <= 0x0D || x == 0x20 || x == 0x85 || x == 0xA0 || x == 0x1680
    || 0x2000 <= x <= 0x200A || x == 0x2028 || x == 0x2029 || x == 0x202F || x == 0x205F || x == 0x3000
  }

  /** `text.trim().is_empty()`. */
  predicate Blank(s: string) {
    forall i | 0 <= i < |s| :: IsSpace(s[i])
  }

  predicate IdChar(c: char) {
    'a' <= c <= 'z' || 'A' <= c <= 'Z' || '0' <= c <= '9' || c == '-' || c == '_'
  }

  /** Identifiers of authored artifacts: 1 to 160 ASCII letters, digits, hyphens or underscores. */
  predicate ValidId(s: string) {
    0 < |s| <= 160 && forall i | 0 <= i < |s| :: IdChar(s[i])
  }

  /** Length of one Unicode scalar value in UTF-8. */
  function Utf8Width(c: char): nat {
    var x := c as int;
    if x < 0x80 then 1 else if x < 0x800 then 2 else if x < 0x10000 then 3 else 4
  }

  /** Length of a text in UTF-8 bytes. */
  function Utf8Len(s: string): nat {
    if s == [] then 0 else Utf8Len(s[..|s| - 1]) + Utf8Width(s[|s| - 1])
  }

  lemma ValidIdNotBlank(s: string)
    requires ValidId(s)
    ensures !Blank(s)
  {
    assert IdChar(s[0]) && !IsSpace(s[0]);
  }
}
