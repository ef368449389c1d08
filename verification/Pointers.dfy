/** JSON Pointers as built and read by shared context values: sections 3 and 4 of RFC 6901, as
    `serde_json::Value::pointer` implements them. */
module Pointers {
  import opened Base

  /** `text.replace(c, put)` for a single character. */
  function ReplaceChar(s: string, c: char, put: string): string {
    if s == [] then []
    else (if s[0] == c then put else [s[0]]) + ReplaceChar(s[1..], c, put)
  }

  /** `text.replace([a, b], put)`: leftmost, non-overlapping. */
  function ReplacePair(s: string, a: char, b: char, put: char): string {
    if s == [] then []
    else if |s| >= 2 && s[0] == a && s[1] == b then [put] + ReplacePair(s[2..], a, b, put)
    else [s[0]] + ReplacePair(s[1..], a, b, put)
  }

  function Escape(name: string): string {
    ReplaceChar(ReplaceChar(name, '~', "~0"), '/', "~1")
  }

  function Unescape(token: string): string {
    ReplacePair(ReplacePair(token, '~', '1', '/'), '~', '0', '~')
  }

  /** `text.split('/')`. */
  function Split(s: string): (parts: seq<string>)
    ensures |parts| >= 1
  {
    if s == [] then [""]
    else
      var rest := Split(s[1..]);
      if s[0] == '/' then [""] + rest else [[s[0]] + rest[0]] + rest[1..]
  }

  function Digit(d: nat): char
    requires d < 10
  {
    "0123456789"[d]
  }

  predicate IsDigit(c: char) { '0' <= c <= '9' }

  function DigitOf(c: char): nat
    requires IsDigit(c)
  {
    c as int - '0' as int
  }

  function Decimal(n: nat): (s: string)
    ensures |s| >= 1 && forall i | 0 <= i < |s| :: IsDigit(s[i])
  {
    if n < 10 then [Digit(n)] else Decimal(n / 10) + [Digit(n % 10)]
  }

  function DecimalValue(s: string): nat
    requires forall i | 0 <= i < |s| :: IsDigit(s[i])
  {
    if s == [] then 0 else DecimalValue(s[..|s| - 1]) * 10 + DigitOf(s[|s| - 1])
  }

  /** Array indices: decimal digits without a leading zero. */
  function ParseIndex(s: string): Option<nat> {
    if s == "" || (s[0] == '0' && |s| != 1) then None
    else if forall i | 0 <= i < |s| :: IsDigit(s[i]) then Some(DecimalValue(s))
    else None
  }

  function Step(v: Json, token: string): Option<Json> {
    var name := Unescape(token);
    match v
    case Obj(fields) => if name in fields then Some(fields[name]) else None
    case Arr(items) =>
      var index := ParseIndex(name);
      if index.Some? && index.value < |items| then Some(items[index.value]) else None
    case _ => None
  }

  function Follow(v: Json, tokens: seq<string>): Option<Json> {
    if tokens == [] then Some(v)
    else
      var next := Step(v, tokens[0]);
      if next.None? then None else Follow(next.value, tokens[1..])
  }

  function Pointer(root: Json, pointer: string): Option<Json> {
    if pointer == "" then Some(root)
    else if pointer[0] != '/' then None
    else Follow(root, Split(pointer[1..]))
  }

  // ----- Round trips -----

  predicate Free(s: string, c: char) { forall i | 0 <= i < |s| :: s[i] != c }

  /** The escaped form one character at a time. */
  function Escaped(name: string): string {
    if name == [] then []
    else (if name[0] == '~' then "~0" else if name[0] == '/' then "~1" else [name[0]]) + Escaped(name[1..])
  }

  lemma {:induction false} ReplaceCharCat(s: string, t: string, c: char, put: string)
    ensures ReplaceChar(s + t, c, put) == ReplaceChar(s, c, put) + ReplaceChar(t, c, put)
  {
    if s == [] {
      assert s + t == t;
    } else {
      assert (s + t)[1..] == s[1..] + t;
      ReplaceCharCat(s[1..], t, c, put);
    }
  }

  lemma {:induction false} EscapeIsEscaped(name: string)
    ensures Escape(name) == Escaped(name) && Free(Escape(name), '/')
  {
    if name != [] {
      EscapeIsEscaped(name[1..]);
      var head := if name[0] == '~' then "~0" else [name[0]];
      assert ReplaceChar(name, '~', "~0") == head + ReplaceChar(name[1..], '~', "~0");
      ReplaceCharCat(head, ReplaceChar(name[1..], '~', "~0"), '/', "~1");
      if name[0] == '~' {
        assert ReplaceChar("~0"[1..], '/', "~1") == "0" + ReplaceChar("", '/', "~1");
        assert ReplaceChar(head, '/', "~1") == "~0";
      } else {
        assert ReplaceChar([name[0]][1..], '/', "~1") == [];
      }
    }
  }

  /** Undoing `~1` first leaves exactly the `~0` of the original tildes. */
  lemma {:induction false} UnescapeSlashes(name: string)
    ensures ReplacePair(Escaped(name), '~', '1', '/') == ReplaceChar(name, '~', "~0")
  {
    if name != [] {
      var rest := Escaped(name[1..]);
      UnescapeSlashes(name[1..]);
      if name[0] == '~' {
        assert Escaped(name) == ['~', '0'] + rest;
        assert Escaped(name)[1..] == ['0'] + rest;
        assert Escaped(name)[1..][1..] == rest;
      } else if name[0] == '/' {
        assert Escaped(name) == ['~', '1'] + rest;
        assert Escaped(name)[2..] == rest;
      } else {
        assert Escaped(name) == [name[0]] + rest;
        assert Escaped(name)[1..] == rest;
      }
    }
  }

  lemma {:induction false} UnescapeTildes(name: string)
    ensures ReplacePair(ReplaceChar(name, '~', "~0"), '~', '0', '~') == name
  {
    if name != [] {
      var rest := ReplaceChar(name[1..], '~', "~0");
      UnescapeTildes(name[1..]);
      if name[0] == '~' {
        assert ReplaceChar(name, '~', "~0") == ['~', '0'] + rest;
        assert ReplaceChar(name, '~', "~0")[2..] == rest;
      } else {
        assert ReplaceChar(name, '~', "~0") == [name[0]] + rest;
        assert ReplaceChar(name, '~', "~0")[1..] == rest;
      }
    }
  }

  /** Section 3 of RFC 6901: every field name survives escaping, and its token contains no slash. */
  lemma EscapeRoundTrip(name: string)
    ensures Unescape(Escape(name)) == name && Free(Escape(name), '/')
  {
    EscapeIsEscaped(name);
    UnescapeSlashes(name);
    UnescapeTildes(name);
  }

  lemma {:induction false} NothingToUnescape(token: string, b: char, put: char)
    requires Free(token, '~')
    ensures ReplacePair(token, '~', b, put) == token
  {
    if token != [] { NothingToUnescape(token[1..], b, put); }
  }

  lemma {:induction false} DecimalRoundTrip(n: nat)
    ensures DecimalValue(Decimal(n)) == n
    ensures Decimal(n)[0] == '0' ==> n == 0
  {
    if n >= 10 {
      DecimalRoundTrip(n / 10);
      var s := Decimal(n);
      assert s[..|s| - 1] == Decimal(n / 10);
      DigitValue(n % 10);
    } else {
      DigitValue(n);
      assert Decimal(n)[..0] == [];
    }
  }

  lemma DigitValue(d: nat)
    requires d < 10
    ensures IsDigit(Digit(d)) && DigitOf(Digit(d)) == d
  {
  }

  /** Section 4 of RFC 6901: an index token denotes that index. */
  lemma IndexRoundTrip(n: nat)
    ensures ParseIndex(Unescape(Decimal(n))) == Some(n) && Free(Decimal(n), '/')
  {
    NothingToUnescape(Decimal(n), '1', '/');
    NothingToUnescape(Decimal(n), '0', '~');
    DecimalRoundTrip(n);
  }

  lemma {:induction false} SplitExtends(s: string, token: string)
    requires Free(token, '/')
    ensures Split(s + "/" + token) == Split(s) + [token]
  {
    if s == [] {
      SplitWhole(token);
      assert s + "/" + token == "/" + token;
      assert ("/" + token)[1..] == token;
    } else {
      var t := s + "/" + token;
      assert t[1..] == s[1..] + "/" + token;
      SplitExtends(s[1..], token);
    }
  }

  lemma {:induction false} SplitWhole(token: string)
    requires Free(token, '/')
    ensures Split(token) == [token]
  {
    if token != [] {
      SplitWhole(token[1..]);
      assert [token[0]] + token[1..] == token;
    }
  }

  lemma {:induction false} FollowExtends(v: Json, tokens: seq<string>, token: string)
    ensures Follow(v, tokens + [token])
         == (var at := Follow(v, tokens); if at.None? then None else Step(at.value, token))
  {
    var more := tokens + [token];
    if tokens == [] {
      assert more[1..] == [];
    } else {
      assert more[1..] == tokens[1..] + [token];
      if Step(v, tokens[0]).Some? { FollowExtends(Step(v, tokens[0]).value, tokens[1..], token); }
    }
  }

  /** Appending one token to a pointer selects one step below what it denoted. */
  lemma PointerExtends(root: Json, pointer: string, token: string)
    requires Pointer(root, pointer).Some? && Free(token, '/')
    ensures Pointer(root, pointer + "/" + token) == Step(Pointer(root, pointer).value, token)
  {
    var longer := pointer + "/" + token;
    if pointer == "" {
      assert longer[1..] == token;
      SplitWhole(token);
      FollowExtends(root, [], token);
      assert [] + [token] == [token];
    } else {
      assert longer[1..] == pointer[1..] + "/" + token;
      SplitExtends(pointer[1..], token);
      FollowExtends(root, Split(pointer[1..]), token);
    }
  }

  /** A view extended by a field name, whatever its characters, denotes exactly that field. */
  lemma PointerField(root: Json, pointer: string, name: string)
    requires Pointer(root, pointer).Some? && Pointer(root, pointer).value.Obj?
    requires name in Pointer(root, pointer).value.fields
    ensures Pointer(root, pointer + "/" + Escape(name)) == Some(Pointer(root, pointer).value.fields[name])
  {
    EscapeRoundTrip(name);
    PointerExtends(root, pointer, Escape(name));
  }

  lemma PointerIndex(root: Json, pointer: string, index: nat)
    requires Pointer(root, pointer).Some? && Pointer(root, pointer).value.Arr?
    requires index < |Pointer(root, pointer).value.items|
    ensures Pointer(root, pointer + "/" + Decimal(index)) == Some(Pointer(root, pointer).value.items[index])
  {
    IndexRoundTrip(index);
    PointerExtends(root, pointer, Decimal(index));
  }
}
