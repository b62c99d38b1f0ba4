/** The numeric fallback of the contact check (src/pages/Contact.jsx:42):
    `isNaN(contact)` on a string. ToNumber turns a string into NaN exactly when the
    string is not a StringNumericLiteral of the ECMAScript grammar (section 7.1.4.1.1
    of ECMA-262); every string the grammar accepts converts to a number, possibly an
    infinite one, but never to NaN. So isNaN is decided here by recognising that
    grammar, and no floating-point value is computed. */
module JsNumber {

  import opened JsText

  predicate AllWhitespace(s: string) {
    forall k :: 0 <= k < |s| ==> IsWhitespace(s[k])
  }

  /** s without its leading whitespace. */
  function TrimStart(s: string): string {
    if s != [] && IsWhitespace(s[0]) then TrimStart(s[1..]) else s
  }

  /** s without its trailing whitespace. */
  function TrimEnd(s: string): string {
    if s != [] && IsWhitespace(s[|s| - 1]) then TrimEnd(s[..|s| - 1]) else s
  }

  /** The literal part of a StringNumericLiteral, between the optional
      StrWhiteSpace on either side. */
  function Trim(s: string): string {
    TrimEnd(TrimStart(s))
  }

  predicate IsSign(c: char) {
    c == '+' || c == '-'
  }

  /** DecimalDigits: one or more decimal digits, with no numeric separators. */
  predicate DecimalDigits(s: string) {
    |s| > 0 && AllDigits(s)
  }

  /** SignedInteger: DecimalDigits with an optional sign. */
  predicate SignedInteger(s: string) {
    DecimalDigits(s) || (|s| > 0 && IsSign(s[0]) && DecimalDigits(s[1..]))
  }

  /** ExponentPart: `e` or `E` followed by a SignedInteger. */
  predicate ExponentPart(s: string) {
    |s| > 0 && (s[0] == 'e' || s[0] == 'E') && SignedInteger(s[1..])
  }

  /** The position of the first exponent indicator, or |s| when there is none. */
  function ExponentStart(s: string): (k: nat)
    ensures k <= |s|
    ensures k < |s| ==> s[k] == 'e' || s[k] == 'E'
    ensures forall m :: 0 <= m < k ==> s[m] != 'e' && s[m] != 'E'
  {
    if s == [] then 0
    else if s[0] == 'e' || s[0] == 'E' then 0
    else 1 + ExponentStart(s[1..])
  }

  /** The part before the exponent: `digits`, `digits.`, `digits.digits` or `.digits`. */
  predicate Mantissa(m: string) {
    var p := IndexOf(m, '.');
    if p == |m| then DecimalDigits(m)
    else AllDigits(m[..p]) && AllDigits(m[p + 1..]) && (p > 0 || p + 1 < |m|)
  }

  /** StrUnsignedDecimalLiteral: `Infinity`, or a mantissa with an optional exponent.
      The mantissa holds no exponent indicator, so the exponent starts at the first one. */
  predicate UnsignedDecimal(u: string) {
    || u == "Infinity"
    || (var e := ExponentStart(u);
        Mantissa(u[..e]) && (e == |u| || ExponentPart(u[e..])))
  }

  /** StrDecimalLiteral: an unsigned decimal literal with an optional sign. */
  predicate DecimalLiteral(t: string) {
    UnsignedDecimal(t) || (|t| > 0 && IsSign(t[0]) && UnsignedDecimal(t[1..]))
  }

  predicate IsHexDigit(c: char) {
    IsDigit(c) || 'a' <= c <= 'f' || 'A' <= c <= 'F'
  }

  predicate IsOctalDigit(c: char) {
    '0' <= c <= '7'
  }

  predicate IsBinaryDigit(c: char) {
    c == '0' || c == '1'
  }

  /** NonDecimalIntegerLiteral: `0x`, `0o` or `0b` (either case) and at least one
      digit of that base; no sign is allowed. */
  predicate NonDecimalInteger(t: string) {
    && |t| > 2 && t[0] == '0'
    && (|| ((t[1] == 'x' || t[1] == 'X') && forall k :: 2 <= k < |t| ==> IsHexDigit(t[k]))
        || ((t[1] == 'o' || t[1] == 'O') && forall k :: 2 <= k < |t| ==> IsOctalDigit(t[k]))
        || ((t[1] == 'b' || t[1] == 'B') && forall k :: 2 <= k < |t| ==> IsBinaryDigit(t[k])))
  }

  /** StringNumericLiteral: optional whitespace, then either nothing (the value 0) or
      a StrNumericLiteral, then optional whitespace. */
  predicate IsNumericString(s: string) {
    NumericLiteralOrNothing(Trim(s))
  }

  /** What may stand between the outer whitespace of a StringNumericLiteral. */
  predicate NumericLiteralOrNothing(t: string) {
    t == [] || DecimalLiteral(t) || NonDecimalInteger(t)
  }

  /** `isNaN(s)` for a string s. */
  predicate IsNaN(s: string) {
    !IsNumericString(s)
  }

  /** The characters a numeric literal can be written with. */
  predicate NumericChar(c: char) {
    || IsHexDigit(c)
    || c == '+' || c == '-' || c == '.'
    || c == 'x' || c == 'X' || c == 'o' || c == 'O'
    || c == 'E' || c == 'I' || c == 'n' || c == 'i' || c == 't' || c == 'y'
  }

  // ----- Trimming -----

  lemma {:induction false} TrimStartAt(s: string, a: nat)
    requires a <= |s| && AllWhitespace(s[..a])
    requires a < |s| ==> !IsWhitespace(s[a])
    ensures TrimStart(s) == s[a..]
    decreases a
  {
    if a > 0 {
      assert IsWhitespace(s[..a][0]);
      assert s[1..][..a - 1] == s[1..a];
      assert AllWhitespace(s[1..a]) by {
        assert forall k :: 0 <= k < a - 1 ==> s[1..a][k] == s[..a][k + 1];
      }
      TrimStartAt(s[1..], a - 1);
    }
  }

  lemma {:induction false} TrimEndAt(s: string, b: nat)
    requires b <= |s| && AllWhitespace(s[b..])
    requires 0 < b ==> !IsWhitespace(s[b - 1])
    ensures TrimEnd(s) == s[..b]
    decreases |s| - b
  {
    if b < |s| {
      assert IsWhitespace(s[b..][|s| - 1 - b]);
      var s' := s[..|s| - 1];
      assert s'[b..] == s[b..|s| - 1];
      assert AllWhitespace(s'[b..]) by {
        assert forall k :: 0 <= k < |s| - 1 - b ==> s'[b..][k] == s[b..][k];
      }
      TrimEndAt(s', b);
      assert s'[..b] == s[..b];
    }
  }

  /** Trim is determined by where the outer whitespace ends: whatever lies between
      two whitespace-only ends and starts and ends with a non-whitespace character. */
  lemma TrimBetween(s: string, a: int, b: int)
    requires 0 <= a <= b <= |s|
    requires AllWhitespace(s[..a]) && AllWhitespace(s[b..])
    requires a < b ==> !IsWhitespace(s[a]) && !IsWhitespace(s[b - 1])
    ensures Trim(s) == s[a..b]
  {
    if a < b {
      TrimStartAt(s, a);
      var r := s[a..];
      assert r[b - a..] == s[b..];
      TrimEndAt(r, b - a);
      assert r[..b - a] == s[a..b];
    } else {
      assert AllWhitespace(s) by {
        assert forall k :: 0 <= k < a ==> s[k] == s[..a][k];
        assert forall k :: b <= k < |s| ==> s[k] == s[b..][k - b];
      }
      assert s[..|s|] == s;
      TrimStartAt(s, |s|);
    }
  }

  /** TrimStart removes exactly the leading whitespace. */
  lemma {:induction false} TrimStartSplit(s: string) returns (a: nat)
    ensures a <= |s| && TrimStart(s) == s[a..]
    ensures AllWhitespace(s[..a]) && (a < |s| ==> !IsWhitespace(s[a]))
  {
    if s != [] && IsWhitespace(s[0]) {
      var a' := TrimStartSplit(s[1..]);
      a := a' + 1;
      assert s[1..][a'..] == s[a..];
      assert forall k :: 1 <= k < a ==> s[..a][k] == s[1..][..a'][k - 1];
    } else {
      a := 0;
    }
  }

  /** TrimEnd removes exactly the trailing whitespace. */
  lemma {:induction false} TrimEndSplit(s: string) returns (b: nat)
    ensures b <= |s| && TrimEnd(s) == s[..b]
    ensures AllWhitespace(s[b..]) && (0 < b ==> !IsWhitespace(s[b - 1]))
  {
    if s != [] && IsWhitespace(s[|s| - 1]) {
      var s' := s[..|s| - 1];
      b := TrimEndSplit(s');
      assert s'[..b] == s[..b];
      assert forall k :: 0 <= k < |s| - 1 - b ==> s[b..][k] == s'[b..][k];
    } else {
      b := |s|;
    }
  }

  /** The literal part Trim extracts, with the whitespace around it. */
  lemma TrimSplit(s: string) returns (a: nat, b: nat)
    ensures a <= b <= |s| && Trim(s) == s[a..b]
    ensures AllWhitespace(s[..a]) && AllWhitespace(s[b..])
    ensures a < b ==> !IsWhitespace(s[a]) && !IsWhitespace(s[b - 1])
  {
    a := TrimStartSplit(s);
    var r := s[a..];
    var c := TrimEndSplit(r);
    b := a + c;
    assert r[..c] == s[a..b];
    assert r[c..] == s[b..];
    if a < b {
      assert r[c - 1] == s[b - 1];
    }
  }

  lemma AllWhitespaceConcat(x: string, y: string)
    requires AllWhitespace(x) && AllWhitespace(y)
    ensures AllWhitespace(x + y)
  {
    assert forall k :: |x| <= k < |x + y| ==> (x + y)[k] == y[k - |x|];
  }

  /** Whitespace around a string does not change whether it is numeric. */
  lemma PaddingIgnored(w1: string, s: string, w2: string)
    requires AllWhitespace(w1) && AllWhitespace(w2)
    ensures Trim(w1 + s + w2) == Trim(s)
    ensures IsNumericString(w1 + s + w2) == IsNumericString(s)
  {
    var a, b := TrimSplit(s);
    var p := w1 + s + w2;
    assert p[..|w1| + a] == w1 + s[..a];
    assert p[|w1| + b..] == s[b..] + w2;
    assert p[|w1| + a..|w1| + b] == s[a..b];
    AllWhitespaceConcat(w1, s[..a]);
    AllWhitespaceConcat(s[b..], w2);
    if a < b {
      assert p[|w1| + a] == s[a] && p[|w1| + b - 1] == s[b - 1];
    }
    TrimBetween(p, |w1| + a, |w1| + b);
    assert Trim(p) == Trim(s);
  }

  /** A blank string is numeric: `Number("")` and `Number("  ")` are 0. */
  lemma BlankIsNumeric(w: string)
    requires AllWhitespace(w)
    ensures IsNumericString(w)
  {
    assert w[..0] == [] && w[0..] == w;
    TrimBetween(w, 0, 0);
  }

  // ----- Which strings are numbers -----

  /** A non-empty string of decimal digits, such as a phone number written without
      separators, is numeric, and so is the same string after a `+` or `-`. */
  lemma DigitStringIsNumeric(d: string)
    requires DecimalDigits(d)
    ensures IsNumericString(d)
    ensures IsNumericString("+" + d) && IsNumericString("-" + d)
  {
    assert ExponentStart(d) == |d| && IndexOf(d, '.') == |d| by {
      assert forall m :: 0 <= m < |d| ==> IsDigit(d[m]);
    }
    assert d[..|d|] == d;
    TrimBetween(d, 0, |d|);
    var signed := ['+'] + d;
    assert signed[1..] == d;
    TrimBetween(signed, 0, |signed|);
    var minus := ['-'] + d;
    assert minus[1..] == d;
    TrimBetween(minus, 0, |minus|);
  }

  /** The characters of a StrUnsignedDecimalLiteral. */
  lemma UnsignedDecimalChars(u: string)
    requires UnsignedDecimal(u)
    ensures forall k :: 0 <= k < |u| ==> NumericChar(u[k])
  {
    if u != "Infinity" {
      var e := ExponentStart(u);
      var m := u[..e];
      var p := IndexOf(m, '.');
      forall k | 0 <= k < e ensures NumericChar(u[k]) {
        assert u[k] == m[k];
        if p < |m| {
          if k < p {
            assert m[k] == m[..p][k];
          } else if k > p {
            assert m[k] == m[p + 1..][k - p - 1];
          }
        }
      }
      forall k | e <= k < |u| ensures NumericChar(u[k]) {
        var x := u[e..];
        assert u[k] == x[k - e];
        if k > e + 1 {
          assert x[k - e] == x[1..][k - e - 1];
          assert x[1..][k - e - 1] == x[1..][1..][k - e - 2];
        } else if k == e + 1 {
          assert x[k - e] == x[1..][0];
        }
      }
    }
  }

  /** The characters of a StrNumericLiteral. */
  lemma LiteralChars(t: string)
    requires DecimalLiteral(t) || NonDecimalInteger(t)
    ensures forall k :: 0 <= k < |t| ==> NumericChar(t[k])
  {
    if UnsignedDecimal(t) {
      UnsignedDecimalChars(t);
    } else if DecimalLiteral(t) {
      UnsignedDecimalChars(t[1..]);
      assert forall k :: 1 <= k < |t| ==> t[k] == t[1..][k - 1];
    }
  }

  /** A numeric string consists of whitespace and literal characters only. */
  lemma NumericStringChars(s: string)
    requires IsNumericString(s)
    ensures forall k :: 0 <= k < |s| ==> IsWhitespace(s[k]) || NumericChar(s[k])
  {
    var a, b := TrimSplit(s);
    if a < b {
      LiteralChars(s[a..b]);
    }
    forall k | 0 <= k < |s| ensures IsWhitespace(s[k]) || NumericChar(s[k]) {
      if k < a {
        assert s[k] == s[..a][k];
      } else if k >= b {
        assert s[k] == s[b..][k - b];
      } else {
        assert s[k] == s[a..b][k - a];
      }
    }
  }

  /** A string holding a letter outside the literal alphabet, or an `@`, is NaN. */
  lemma ForeignCharIsNaN(s: string, k: int)
    requires 0 <= k < |s| && !IsWhitespace(s[k]) && !NumericChar(s[k])
    ensures IsNaN(s)
  {
    if IsNumericString(s) {
      NumericStringChars(s);
    }
  }

  /** A decimal fraction is numeric. */
  lemma FractionIsNumeric()
    ensures IsNumericString("3.14")
  {
    var pi := "3.14";
    assert ExponentStart(pi) == 4 && IndexOf(pi, '.') == 1;
    assert pi[..4] == pi && pi[..1] == "3" && pi[2..] == "14";
    assert pi[..0] == [] && pi[4..] == [];
    TrimBetween(pi, 0, 4);
  }

  /** Letters that spell no literal make NaN, even when each is a hex digit. */
  lemma WordIsNaN()
    ensures IsNaN("abc")
  {
    var abc := "abc";
    assert abc[..0] == [] && abc[3..] == [];
    TrimBetween(abc, 0, 3);
    assert ExponentStart(abc) == 3 && IndexOf(abc, '.') == 3;
    assert abc[..3] == abc && !IsDigit(abc[0]);
  }

  /** A phone number written with separators is NaN. */
  lemma SeparatedDigitsAreNaN()
    ensures IsNaN("98-76")
  {
    var dash := "98-76";
    assert dash[..0] == [] && dash[5..] == [];
    TrimBetween(dash, 0, 5);
    assert ExponentStart(dash) == 5 && IndexOf(dash, '.') == 5;
    assert dash[..5] == dash && !IsDigit(dash[2]);
  }
}
