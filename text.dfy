/** The string operations the gateway relies on: ASCII lower-casing, prefix and substring tests,
    JavaScript's `parseInt`, the pieces of `split`, and decimal formatting of ids. */
module Text {
  import opened Wrappers

  function LowerChar(c: char): char
  {
    if 'A' <= c <= 'Z' then (c as int + 32) as char else c
  }

  /** `s.toLowerCase()` on ASCII letters. */
  function ToLower(s: string): (r: string)
    ensures |r| == |s|
  {
    seq(|s|, i requires 0 <= i < |s| => LowerChar(s[i]))
  }

  /** Lower-casing twice is lower-casing once. */
  lemma ToLowerIdempotent(s: string)
    ensures ToLower(ToLower(s)) == ToLower(s)
  {
    assert forall i | 0 <= i < |s| :: LowerChar(LowerChar(s[i])) == LowerChar(s[i]);
  }

  /** `s.startsWith(p)`. */
  predicate StartsWith(s: string, p: string)
  {
    |p| <= |s| && s[..|p|] == p
  }

  /** `p` occurs in `s` at index `i`. */
  predicate OccursAt(s: string, p: string, i: nat)
  {
    i + |p| <= |s| && s[i..i + |p|] == p
  }

  /** `s.includes(p)`. */
  predicate Contains(s: string, p: string)
  {
    exists i | 0 <= i <= |s| - |p| :: OccursAt(s, p, i)
  }

  /** A string lacking one of the characters of `p` does not contain `p`. */
  lemma MissingChar(s: string, p: string, k: nat)
    requires k < |p| && forall j | 0 <= j < |s| :: s[j] != p[k]
    ensures !Contains(s, p)
  {
    forall i | 0 <= i <= |s| - |p|
      ensures !OccursAt(s, p, i)
    {
      if i + |p| <= |s| {
        assert s[i..i + |p|][k] == s[i + k] != p[k];
      }
    }
  }

  /** An occurrence at `i >= 1` in `s` is an occurrence at `i - 1` in the tail of `s`. */
  lemma OccursShift(s: string, p: string, i: nat)
    requires 1 <= i <= |s|
    ensures OccursAt(s, p, i) <==> OccursAt(s[1..], p, i - 1)
  {
    if i + |p| <= |s| {
      assert s[1..][i - 1..i - 1 + |p|] == s[i..i + |p|];
    }
  }

  /** The index of the first occurrence of `p` in `s`, if any. */
  function IndexOf(s: string, p: string): (r: Option<nat>)
    ensures r.Some? ==> OccursAt(s, p, r.value)
    ensures r.Some? ==> forall i :: 0 <= i < r.value ==> !OccursAt(s, p, i)
    ensures r.None? ==> !Contains(s, p)
    decreases |s|
  {
    if |s| < |p| then None
    else if s[..|p|] == p then Some(0)
    else
      assert forall i :: 1 <= i <= |s| - |p| ==> (OccursAt(s, p, i) <==> OccursAt(s[1..], p, i - 1)) by {
        forall i | 1 <= i <= |s| - |p|
          ensures OccursAt(s, p, i) <==> OccursAt(s[1..], p, i - 1)
        {
          OccursShift(s, p, i);
        }
      }
      match IndexOf(s[1..], p)
      case None => None
      case Some(k) => Some(k + 1)
  }

  /** `s.replace(p, q)` with a string pattern: only the first occurrence is replaced. */
  function ReplaceFirst(s: string, p: string, q: string): string
  {
    match IndexOf(s, p)
    case None => s
    case Some(k) => s[..k] + q + s[k + |p|..]
  }

  /** Replacing a prefix of `s` replaces exactly that prefix. */
  lemma ReplacePrefix(s: string, p: string, q: string)
    requires StartsWith(s, p)
    ensures ReplaceFirst(s, p, q) == q + s[|p|..]
  {
    assert OccursAt(s, p, 0);
  }

  /** The first occurrence of `c` in `s`, if any. */
  function Find(s: string, c: char): (r: Option<nat>)
    ensures r.Some? ==> r.value < |s| && s[r.value] == c && c !in s[..r.value]
    ensures r.None? ==> c !in s
  {
    if c !in s then None
    else if s[0] == c then Some(0)
    else
      var k := Find(s[1..], c).value;
      assert s[..k + 1] == [s[0]] + s[1..][..k];
      Some(k + 1)
  }

  /** `s.split(c)[0]`: the text before the first `c`. */
  function FieldBefore(s: string, c: char): string
  {
    match Find(s, c)
    case None => s
    case Some(k) => s[..k]
  }

  /** `s.split(c)[1]`: the text between the first and the second `c`, or `undefined`. */
  function SecondField(s: string, c: char): Option<string>
  {
    match Find(s, c)
    case None => None
    case Some(k) => Some(FieldBefore(s[k + 1..], c))
  }

  predicate IsDigit(c: char) { '0' <= c <= '9' }

  function DigitValue(c: char): nat
    requires IsDigit(c)
  {
    c as int - '0' as int
  }

  predicate IsHexDigit(c: char)
  {
    IsDigit(c) || 'a' <= c <= 'f' || 'A' <= c <= 'F'
  }

  function HexDigitValue(c: char): nat
    requires IsHexDigit(c)
  {
    if IsDigit(c) then DigitValue(c)
    else if 'a' <= c <= 'f' then c as int - 'a' as int + 10
    else c as int - 'A' as int + 10
  }

  /** The longest prefix of `s` whose characters satisfy `ok`. */
  function Span(s: string, ok: char -> bool): (r: string)
    ensures |r| <= |s| && r == s[..|r|]
    ensures forall i :: 0 <= i < |r| ==> ok(r[i])
    ensures |r| < |s| ==> !ok(s[|r|])
  {
    if s == [] || !ok(s[0]) then [] else [s[0]] + Span(s[1..], ok)
  }

  /** `Span` stops exactly where the first character failing the test begins. */
  lemma {:induction false} SpanStops(p: string, rest: string, ok: char -> bool)
    requires forall i :: 0 <= i < |p| ==> ok(p[i])
    requires rest == [] || !ok(rest[0])
    ensures Span(p + rest, ok) == p
  {
    if p == [] {
      assert p + rest == rest;
    } else {
      assert (p + rest)[1..] == p[1..] + rest;
      SpanStops(p[1..], rest, ok);
    }
  }

  /** The number a digit string denotes in base `radix`. */
  function Value(ds: string, radix: nat): nat
    requires forall i :: 0 <= i < |ds| ==> IsHexDigit(ds[i])
  {
    if ds == [] then 0
    else Value(ds[..|ds| - 1], radix) * radix + HexDigitValue(ds[|ds| - 1])
  }

  predicate IsSpace(c: char) { c == ' ' || c == '\t' || c == '\n' || c == '\r' }

  function TrimStart(s: string): (r: string)
    ensures r == [] || !IsSpace(r[0])
  {
    if s != [] && IsSpace(s[0]) then TrimStart(s[1..]) else s
  }

  /** JavaScript's `parseInt(s)` without a radix: leading white space, an optional sign, a
      `0x`/`0X` prefix selecting base 16, then the longest run of digits; `None` (NaN) when
      there are no digits. */
  function ParseInt(s: string): (r: Option<int>)
  {
    var t := TrimStart(s);
    var negative := t != [] && t[0] == '-';
    var u := if t != [] && (t[0] == '-' || t[0] == '+') then t[1..] else t;
    var hex := |u| >= 2 && u[0] == '0' && (u[1] == 'x' || u[1] == 'X');
    var ds := if hex then Span(u[2..], IsHexDigit) else Span(u, IsDigit);
    if ds == [] then None
    else
      var n: int := Value(ds, if hex then 16 else 10);
      Some(if negative then -n else n)
  }

  function DigitChar(d: nat): (c: char)
    requires d < 10
    ensures IsDigit(c) && DigitValue(c) == d
  {
    ('0' as int + d) as char
  }

  /** The decimal spelling of `n`, as a template literal prints an id. */
  function NatToString(n: nat): (s: string)
    ensures s != [] && forall i :: 0 <= i < |s| ==> IsDigit(s[i])
  {
    if n < 10 then [DigitChar(n)] else NatToString(n / 10) + [DigitChar(n % 10)]
  }

  /** The decimal spelling reads back as the number it spells. */
  lemma {:induction false} NatToStringValue(n: nat)
    ensures Value(NatToString(n), 10) == n
  {
    if n >= 10 {
      NatToStringValue(n / 10);
      var s := NatToString(n);
      assert s[..|s| - 1] == NatToString(n / 10);
    }
  }

  /** `parseInt` inverts the decimal spelling of a natural number. */
  lemma ParseIntOfNatToString(n: nat)
    ensures ParseInt(NatToString(n)) == Some(n)
  {
    var s := NatToString(n);
    assert TrimStart(s) == s;
    SpanAll(s, IsDigit);
    if |s| >= 2 {
      assert s[1] != 'x' && s[1] != 'X';
    }
    NatToStringValue(n);
  }

  lemma {:induction false} SpanAll(s: string, ok: char -> bool)
    requires forall i :: 0 <= i < |s| ==> ok(s[i])
    ensures Span(s, ok) == s
  {
    if s != [] {
      SpanAll(s[1..], ok);
    }
  }

  /** Decimal spelling is injective. */
  lemma NatToStringInjective(a: nat, b: nat)
    requires NatToString(a) == NatToString(b)
    ensures a == b
  {
    NatToStringValue(a);
    NatToStringValue(b);
  }
}
