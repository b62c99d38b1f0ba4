/** The email-shape test of the contact form (src/pages/Contact.jsx:40-41): the
    regular expression /^[^@\s]+@[^@\s]+\.[^@\s]+$/ applied to the contact field.
    MatchesPattern gives the pattern's meaning as a split of the string;
    IsEmailShape decides it directly, and EmailShapeMeaning proves the two agree. */
module EmailShape {

  import opened JsText

  /** One character of the class `[^@\s]`. */
  predicate PlainChar(c: char) {
    c != '@' && !IsWhitespace(c)
  }

  /** `[^@\s]+`: a non-empty run of characters that are neither `@` nor whitespace. */
  predicate PlainRun(s: string) {
    |s| > 0 && forall k :: 0 <= k < |s| ==> PlainChar(s[k])
  }

  /** The string splits as run `@` run `.` run, with `@` at i and `.` at j. */
  predicate SplitsAt(s: string, i: int, j: int) {
    && 0 < i < j < |s| - 1
    && s[i] == '@' && s[j] == '.'
    && PlainRun(s[..i]) && PlainRun(s[i + 1..j]) && PlainRun(s[j + 1..])
  }

  /** What the anchored pattern matches: some split of the string into the pattern's pieces. */
  ghost predicate MatchesPattern(s: string) {
    exists i, j :: SplitsAt(s, i, j)
  }

  /** The part after the `@`: no `@` and no whitespace, with a `.` that has at least
      one character on each side. */
  predicate DomainShape(d: string) {
    PlainRun(d) && |d| >= 3 && '.' in d[1..|d| - 1]
  }

  /** `emailPattern.test(contact)`: exactly one `@`, no whitespace, a non-empty part
      before the `@`, and a domain part of DomainShape after it. */
  predicate IsEmailShape(s: string) {
    var at := IndexOf(s, '@');
    at < |s| && PlainRun(s[..at]) && DomainShape(s[at + 1..])
  }

  lemma PlainRunSlice(s: string, a: int, b: int)
    requires PlainRun(s) && 0 <= a < b <= |s|
    ensures PlainRun(s[a..b])
  {
  }

  lemma {:induction false} ShapeGivesSplit(s: string)
    requires IsEmailShape(s)
    ensures MatchesPattern(s)
  {
    var at := IndexOf(s, '@');
    var d := s[at + 1..];
    var k :| 0 <= k < |d[1..|d| - 1]| && d[1..|d| - 1][k] == '.';
    var j := at + 2 + k;
    assert s[at + 1..j] == d[..k + 1];
    assert s[j + 1..] == d[k + 2..];
    PlainRunSlice(d, 0, k + 1);
    PlainRunSlice(d, k + 2, |d|);
    assert SplitsAt(s, at, j);
  }

  lemma {:induction false} SplitGivesShape(s: string, i: int, j: int)
    requires SplitsAt(s, i, j)
    ensures IsEmailShape(s)
  {
    var at := IndexOf(s, '@');
    assert forall m :: 0 <= m < i ==> s[m] == s[..i][m];
    assert at == i;
    var d := s[i + 1..];
    assert d == s[i + 1..j] + ['.'] + s[j + 1..];
    assert d[1..|d| - 1][j - i - 2] == '.';
  }

  /** The direct test accepts exactly the strings the regular expression matches. */
  lemma EmailShapeMeaning(s: string)
    ensures IsEmailShape(s) <==> MatchesPattern(s)
  {
    if IsEmailShape(s) {
      ShapeGivesSplit(s);
    }
    if MatchesPattern(s) {
      var i, j :| SplitsAt(s, i, j);
      SplitGivesShape(s, i, j);
    }
  }

  /** A complete address of the usual form is accepted. */
  lemma ExampleAddressAccepted()
    ensures IsEmailShape("alex@example.com")
  {
    assert SplitsAt("alex@example.com", 4, 12);
    EmailShapeMeaning("alex@example.com");
  }

  /** A string without `@` is not an address (the numeric fallback may still accept it). */
  lemma NoAtRejected(s: string)
    requires '@' !in s
    ensures !IsEmailShape(s)
  {
  }

  /** A second `@` is rejected: the part after the first `@` may not contain one. */
  lemma SecondAtRejected(s: string, i: int, j: int)
    requires 0 <= i < j < |s| && s[i] == '@' && s[j] == '@'
    ensures !IsEmailShape(s)
  {
    var at := IndexOf(s, '@');
    assert s[at + 1..][j - at - 1] == s[j];
  }

  /** Whitespace anywhere in the string is rejected. */
  lemma WhitespaceRejected(s: string, k: int)
    requires 0 <= k < |s| && IsWhitespace(s[k])
    ensures !IsEmailShape(s)
  {
    var at := IndexOf(s, '@');
    if k < at {
      assert s[..at][k] == s[k];
    } else if at < k {
      assert s[at + 1..][k - at - 1] == s[k];
    }
  }

  /** The `.` needs a character on each side within the part after `@`: when no `.`
      stands strictly inside that part (its only `.` is its first or last character,
      or there is none), the string is rejected. */
  lemma EmptyDomainPieceRejected(s: string, i: int)
    requires 0 <= i < |s| && s[i] == '@'
    requires forall k :: i + 1 < k < |s| - 1 ==> s[k] != '.'
    ensures !IsEmailShape(s)
  {
    var at := IndexOf(s, '@');
    if at < i {
      SecondAtRejected(s, at, i);
    }
  }

  /** The part before `@` must not be empty. */
  lemma EmptyLocalPartRejected(s: string)
    requires |s| > 0 && s[0] == '@'
    ensures !IsEmailShape(s)
  {
  }
}
