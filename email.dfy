/**
 * The e-mail pattern `^[^\s@]+@[^\s@]+\.[^\s@]+$` shared by the sign-up
 * form, the sign-in form and the invoice creation form.
 */
module EmailRule {
  import opened Text

  /** The character class `[^\s@]`. */
  predicate InClass(c: char) {
    !IsWhitespace(c) && c != '@'
  }

  /** `[^\s@]+`, matched against a whole piece. */
  predicate OneOrMore(s: string) {
    |s| > 0 && forall i :: 0 <= i < |s| ==> InClass(s[i])
  }

  /** `[^\s@]+\.[^\s@]+`, matched against the whole of `t`. */
  predicate DomainMatch(t: string) {
    exists m :: 0 <= m < |t| && t[m] == '.' && OneOrMore(t[..m]) && OneOrMore(t[m + 1..])
  }

  /** The anchored pattern: some split of `s` into the pattern's pieces exists. */
  predicate EmailPattern(s: string) {
    exists k :: 0 <= k < |s| && s[k] == '@' && OneOrMore(s[..k]) && DomainMatch(s[k + 1..])
  }

  /** A `.` that is neither the first nor the last character. */
  predicate DotInside(t: string) {
    exists m :: 0 < m < |t| - 1 && t[m] == '.'
  }

  predicate NoWhitespace(s: string) {
    forall i :: 0 <= i < |s| ==> !IsWhitespace(s[i])
  }

  /**
   * The pattern in words: no white space, exactly one `@` (so splitting at
   * `@` gives two pieces), something before it, and a `.` strictly inside
   * the part after it.
   */
  predicate WellFormedEmail(s: string) {
    var parts := Split(s, '@');
    NoWhitespace(s) && |parts| == 2 && parts[0] != "" && DotInside(parts[1])
  }

  lemma EmailPatternIff(s: string)
    ensures EmailPattern(s) <==> WellFormedEmail(s)
  {
    if EmailPattern(s) {
      PatternIsWellFormed(s);
    }
    if WellFormedEmail(s) {
      WellFormedMatchesPattern(s);
    }
  }

  lemma OneOrMoreFacts(x: string)
    requires OneOrMore(x)
    ensures '@' !in x && NoWhitespace(x)
  {
    forall i | 0 <= i < |x| ensures x[i] != '@' && !IsWhitespace(x[i]) { assert InClass(x[i]); }
  }

  lemma NoWhitespaceAppend(a: string, b: string)
    requires NoWhitespace(a) && NoWhitespace(b)
    ensures NoWhitespace(a + b)
  {
    forall i | 0 <= i < |a + b| ensures !IsWhitespace((a + b)[i]) {
      if i >= |a| { assert (a + b)[i] == b[i - |a|]; }
    }
  }

  lemma PatternIsWellFormed(s: string)
    requires EmailPattern(s)
    ensures WellFormedEmail(s)
  {
    var k :| 0 <= k < |s| && s[k] == '@' && OneOrMore(s[..k]) && DomainMatch(s[k + 1..]);
    var t := s[k + 1..];
    var m :| 0 <= m < |t| && t[m] == '.' && OneOrMore(t[..m]) && OneOrMore(t[m + 1..]);
    PiecesAreWellFormed(s[..k], t[..m], t[m + 1..]);
    SplitAround(t, m);
    SplitAround(s, k);
  }

  lemma SplitAround(s: string, k: int)
    requires 0 <= k < |s|
    ensures s == s[..k] + [s[k]] + s[k + 1..]
  {
  }

  /** The string the pattern's pieces spell out is well formed. */
  lemma PiecesAreWellFormed(a: string, b: string, c: string)
    requires OneOrMore(a) && OneOrMore(b) && OneOrMore(c)
    ensures WellFormedEmail(a + ['@'] + (b + ['.'] + c))
  {
    var t := b + ['.'] + c;
    var s := a + ['@'] + t;
    OneOrMoreFacts(a);
    OneOrMoreFacts(b);
    OneOrMoreFacts(c);
    assert s[|a|] == '@' && s[..|a|] == a && s[|a| + 1..] == t;
    assert '@' !in t;
    SplitAtFirst(s, '@', |a|);
    SplitWithoutSeparator(t, '@');
    NoWhitespaceAppend(b, ['.']);
    NoWhitespaceAppend(b + ['.'], c);
    NoWhitespaceAppend(a, ['@']);
    NoWhitespaceAppend(a + ['@'], t);
    assert t[|b|] == '.';
  }

  lemma WellFormedMatchesPattern(s: string)
    requires WellFormedEmail(s)
    ensures EmailPattern(s)
  {
    var parts := Split(s, '@');
    var p0, p1 := parts[0], parts[1];
    assert parts[1..] == [p1];
    assert Join(parts, '@') == p0 + ['@'] + Join(parts[1..], '@');
    assert s == p0 + ['@'] + p1;
    var k := |p0|;
    assert s[..k] == p0 && s[k] == '@' && s[k + 1..] == p1;
    forall i | 0 <= i < k ensures InClass(p0[i]) {
      assert p0[i] == s[i];
    }
    var m :| 0 < m < |p1| - 1 && p1[m] == '.';
    forall j | 0 <= j < |p1| ensures InClass(p1[j]) {
      assert p1[j] == s[k + 1 + j];
    }
    var left, right := p1[..m], p1[m + 1..];
    assert OneOrMore(left) by {
      forall j | 0 <= j < |left| ensures InClass(left[j]) { assert left[j] == p1[j]; }
    }
    assert OneOrMore(right) by {
      forall j | 0 <= j < |right| ensures InClass(right[j]) { assert right[j] == p1[m + 1 + j]; }
    }
    assert DomainMatch(p1);
    assert OneOrMore(s[..k]);
  }
}
