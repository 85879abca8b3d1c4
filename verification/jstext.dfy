/**
  The JavaScript string primitives the crawler relies on: the white-space
  class shared by `String.prototype.trim` and `parseInt` (sections 12.2 and
  12.3 of ECMA-262), `trim`, decimal digits, and `parseInt(s, 10)` as
  section 19.2.5 of ECMA-262 defines it.
 */
module JsText {
  import opened Common

  /** WhiteSpace or LineTerminator code point in the sense of ECMA-262. */
  predicate IsJsSpace(c: char) {
    || c == '\t' || c == '\U{000B}' || c == '\U{000C}' || c == ' '
    || c == '\U{00A0}' || c == '\U{FEFF}' || c == '\U{1680}'
    || ('\U{2000}' <= c <= '\U{200A}')
    || c == '\U{202F}' || c == '\U{205F}' || c == '\U{3000}'
    || c == '\n' || c == '\r' || c == '\U{2028}' || c == '\U{2029}'
  }

  predicate AllSpace(s: string) {
    forall i :: 0 <= i < |s| ==> IsJsSpace(s[i])
  }

  /** Drops leading white space: what remains is a suffix of `s` that does not start with white space. */
  function TrimStart(s: string): (r: string)
    ensures |r| <= |s| && r == s[|s| - |r|..]
    ensures AllSpace(s[..|s| - |r|])
    ensures r == [] || !IsJsSpace(r[0])
    decreases |s|
  {
    if |s| > 0 && IsJsSpace(s[0]) then
      var r := TrimStart(s[1..]);
      assert s[|s| - |r|..] == s[1..][|s| - 1 - |r|..];
      assert forall i :: 1 <= i < |s| - |r| ==> s[i] == s[1..][..|s| - 1 - |r|][i - 1];
      r
    else s
  }

  /** Drops trailing white space: what remains is a prefix of `s` that does not end with white space. */
  function TrimEnd(s: string): (r: string)
    ensures |r| <= |s| && r == s[..|r|]
    ensures AllSpace(s[|r|..])
    ensures r == [] || !IsJsSpace(r[|r| - 1])
    decreases |s|
  {
    if |s| > 0 && IsJsSpace(s[|s| - 1]) then
      var p := s[..|s| - 1];
      var r := TrimEnd(p);
      assert p[..|r|] == s[..|r|];
      assert forall i :: |r| <= i < |p| ==> s[i] == p[|r|..][i - |r|];
      r
    else s
  }

  /** `s.trim()`: no white space is left at either end. */
  function Trim(s: string): (r: string)
    ensures r == [] || (!IsJsSpace(r[0]) && !IsJsSpace(r[|r| - 1]))
  {
    TrimEnd(TrimStart(s))
  }

  /** What `trim` keeps is an infix of its input with only white space around it. */
  lemma TrimInfix(s: string)
    ensures exists a, b :: 0 <= a <= b <= |s| && Trim(s) == s[a..b] && AllSpace(s[..a]) && AllSpace(s[b..])
  {
    var t := TrimStart(s);
    var r := TrimEnd(t);
    var a := |s| - |t|;
    assert s[a..a + |r|] == r;
    assert s[a + |r|..] == t[|r|..];
  }

  /** Leading white space in front of a part that does not start with white space is what `TrimStart` drops. */
  lemma {:induction false} TrimStartPadded(pre: string, x: string)
    requires AllSpace(pre)
    requires x == [] || !IsJsSpace(x[0])
    ensures TrimStart(pre + x) == x
    decreases |pre|
  {
    if pre == [] {
      assert pre + x == x;
    } else {
      assert (pre + x)[1..] == pre[1..] + x;
      TrimStartPadded(pre[1..], x);
    }
  }

  /** Trailing white space behind a part that does not end with white space is what `TrimEnd` drops. */
  lemma {:induction false} TrimEndPadded(x: string, post: string)
    requires AllSpace(post)
    requires x == [] || !IsJsSpace(x[|x| - 1])
    ensures TrimEnd(x + post) == x
    decreases |post|
  {
    if post == [] {
      assert x + post == x;
    } else {
      assert (x + post)[..|x + post| - 1] == x + post[..|post| - 1];
      TrimEndPadded(x, post[..|post| - 1]);
    }
  }

  /** White space around a trimmed core is exactly what `trim` removes. */
  lemma TrimPadded(pre: string, core: string, post: string)
    requires AllSpace(pre) && AllSpace(post)
    requires core == [] || (!IsJsSpace(core[0]) && !IsJsSpace(core[|core| - 1]))
    ensures Trim(pre + core + post) == core
  {
    assert pre + core + post == pre + (core + post);
    if core == [] {
      assert AllSpace(pre + post);
      TrimStartPadded(pre + post, []);
      assert pre + post + [] == pre + core + post;
      assert TrimEnd([]) == [];
    } else {
      TrimStartPadded(pre, core + post);
      TrimEndPadded(core, post);
    }
  }

  /** `trim` is idempotent. */
  lemma TrimIdempotent(s: string)
    ensures Trim(Trim(s)) == Trim(s)
  {
    var r := Trim(s);
    assert TrimStart(r) == r;
    assert TrimEnd(r) == r;
  }

  // ---------------------------------------------------------------------
  // Decimal digits

  predicate IsDigit(c: char) {
    '0' <= c <= '9'
  }

  predicate AllDigits(s: string) {
    forall i :: 0 <= i < |s| ==> IsDigit(s[i])
  }

  function DigitValue(c: char): (r: nat)
    requires IsDigit(c)
    ensures r < 10
  {
    (c as int) - ('0' as int)
  }

  function DigitChar(d: nat): (c: char)
    requires d < 10
    ensures IsDigit(c) && DigitValue(c) == d
  {
    (('0' as int) + d) as char
  }

  /** The value of a string of decimal digits, most significant first. */
  function DecimalValue(s: string): nat
    requires AllDigits(s)
    decreases |s|
  {
    if s == [] then 0 else 10 * DecimalValue(s[..|s| - 1]) + DigitValue(s[|s| - 1])
  }

  /** The canonical decimal spelling of a natural number, as `String(n)` writes it. */
  function NatToDecimal(n: nat): (r: string)
    ensures r != [] && AllDigits(r)
    ensures DecimalValue(r) == n
    ensures r[0] == '0' ==> n == 0
    decreases n
  {
    if n < 10 then [DigitChar(n)]
    else
      var p := NatToDecimal(n / 10);
      var r := p + [DigitChar(n % 10)];
      assert r[..|r| - 1] == p;
      r
  }

  /** The longest prefix of `s` made of decimal digits. */
  function DigitPrefix(s: string): (r: string)
    ensures |r| <= |s| && r == s[..|r|]
    ensures AllDigits(r)
    ensures |r| == |s| || !IsDigit(s[|r|])
    decreases |s|
  {
    if |s| > 0 && IsDigit(s[0]) then [s[0]] + DigitPrefix(s[1..]) else []
  }

  // ---------------------------------------------------------------------
  // parseInt(s, 10)

  /** The numeric result of `parseInt`: an integer, or `None` for NaN. */
  function ParseInt(s: string): Option<int> {
    ParseSigned(TrimStart(s))
  }

  /** `parseInt` after the white space: one optional sign, then the longest run of digits. */
  function ParseSigned(t: string): Option<int> {
    var body := if |t| > 0 && (t[0] == '-' || t[0] == '+') then t[1..] else t;
    var digits := DigitPrefix(body);
    if digits == [] then None
    else if |t| > 0 && t[0] == '-' then Some(-(DecimalValue(digits) as int))
    else Some(DecimalValue(digits))
  }

  /**
    After optional white space and one optional sign, `s` continues with a
    decimal digit: exactly the strings on which `parseInt(s, 10)` is not NaN.
   */
  predicate HasLeadingDigits(s: string) {
    exists k :: 0 <= k < |s| && AllSpace(s[..k]) && IsDigit(SignSkipped(s[k..]))
  }

  /** `parseInt` is NaN exactly when no digit follows the white space and the optional sign. */
  lemma ParseIntNaN(s: string)
    ensures ParseInt(s).None? <==> !HasLeadingDigits(s)
  {
    var t := TrimStart(s);
    var k := |s| - |t|;
    var body := if |t| > 0 && (t[0] == '-' || t[0] == '+') then t[1..] else t;
    if HasLeadingDigits(s) {
      var j :| 0 <= j < |s| && AllSpace(s[..j]) && IsDigit(SignSkipped(s[j..]));
      TrimStartUnique(s, j);
      assert body != [] && IsDigit(body[0]);
      assert DigitPrefix(body) != [];
    }
    if ParseInt(s).Some? {
      assert DigitPrefix(body) != [];
      assert body != [] && IsDigit(body[0]);
      assert s[k..] == t;
      assert IsDigit(SignSkipped(s[k..]));
    }
  }

  /** The character after one leading sign, or the first character. */
  function SignSkipped(t: string): char
    requires |t| > 0
  {
    if (t[0] == '-' || t[0] == '+') && |t| > 1 then t[1] else t[0]
  }

  /** The part after white space is where a leading-digits witness must start. */
  lemma TrimStartUnique(s: string, k: nat)
    requires k <= |s| && AllSpace(s[..k]) && (k == |s| || !IsJsSpace(s[k]))
    ensures TrimStart(s) == s[k..]
  {
    assert s == s[..k] + s[k..];
    TrimStartPadded(s[..k], s[k..]);
  }

  /** `parseInt` reads back the decimal spelling of any integer, whatever follows it. */
  lemma {:induction false} ParseIntDecimal(pre: string, negative: bool, n: nat, rest: string)
    requires AllSpace(pre)
    requires rest == [] || !IsDigit(rest[0])
    ensures ParseInt(pre + (if negative then "-" else "") + NatToDecimal(n) + rest)
         == Some(if negative then -(n as int) else n as int)
  {
    var sign := if negative then "-" else "";
    var d := NatToDecimal(n);
    var t := sign + (d + rest);
    assert pre + sign + d + rest == pre + t;
    assert t[0] == (if negative then '-' else d[0]);
    assert !IsJsSpace(t[0]);
    TrimStartPadded(pre, t);
    assert ParseInt(pre + t) == ParseSigned(t);
    DigitPrefixOf(d, rest);
    SignedDecimal(negative, d, rest);
  }

  /** `parseInt` reads back the canonical decimal spelling of a natural number. */
  lemma ParseIntCanonical(n: nat)
    ensures ParseInt(NatToDecimal(n)) == Some(n)
  {
    var d := NatToDecimal(n);
    assert [] + d == d;
    TrimStartPadded([], d);
    assert d + [] == d;
    DigitPrefixOf(d, []);
    SignedDecimal(false, d, []);
  }

  lemma SignedDecimal(negative: bool, d: string, rest: string)
    requires d != [] && AllDigits(d)
    requires DigitPrefix(d + rest) == d
    ensures ParseSigned((if negative then "-" else "") + (d + rest))
         == Some(if negative then -(DecimalValue(d) as int) else DecimalValue(d) as int)
  {
    var t := (if negative then "-" else "") + (d + rest);
    if negative {
      assert t[1..] == d + rest;
    } else {
      assert t == d + rest;
    }
  }

  lemma {:induction false} DigitPrefixOf(d: string, rest: string)
    requires AllDigits(d)
    requires rest == [] || !IsDigit(rest[0])
    ensures DigitPrefix(d + rest) == d
    decreases |d|
  {
    if d == [] {
      assert d + rest == rest;
    } else {
      assert (d + rest)[1..] == d[1..] + rest;
      DigitPrefixOf(d[1..], rest);
      assert [d[0]] + d[1..] == d;
    }
  }
}
