/**
 * The string operations the core relies on: `str(n)` for a non-negative int,
 * the substring test `x in s`, `s.startswith(p)`, and `s.format(port=n)`
 * restricted to templates whose only replacement field is `{port}`.
 */
module Text {

  /** The replacement field the templates use. */
  const Placeholder: string := "{port}"

  predicate IsDigit(c: char) { '0' <= c <= '9' }

  predicate IsBrace(c: char) { c == '{' || c == '}' }

  predicate AllDigits(s: string) { forall i :: 0 <= i < |s| ==> IsDigit(s[i]) }

  predicate NoBraces(s: string) { forall i :: 0 <= i < |s| ==> !IsBrace(s[i]) }

  function DigitChar(d: nat): (c: char)
    requires d < 10
    ensures IsDigit(c)
  {
    ('0' as int + d) as char
  }

  function DigitValue(c: char): (d: nat)
    requires IsDigit(c)
    ensures d < 10
  {
    c as int - '0' as int
  }

  /** `str(n)`: the decimal digits of n, most significant first. */
  function Decimal(n: nat): (s: string)
    ensures |s| >= 1 && AllDigits(s)
    ensures s[0] == '0' ==> n == 0
    decreases n
  {
    if n < 10 then [DigitChar(n)] else Decimal(n / 10) + [DigitChar(n % 10)]
  }

  /** `int(s)` for a string of decimal digits. */
  function ParseDecimal(s: string): nat
    requires AllDigits(s)
  {
    if s == [] then 0 else ParseDecimal(s[..|s| - 1]) * 10 + DigitValue(s[|s| - 1])
  }

  /** Reading the digits back gives the number that was written. */
  lemma {:induction false} DecimalRoundTrip(n: nat)
    ensures ParseDecimal(Decimal(n)) == n
    decreases n
  {
    if n >= 10 {
      var s := Decimal(n);
      assert s[..|s| - 1] == Decimal(n / 10);
      DecimalRoundTrip(n / 10);
    }
  }

  /** Distinct numbers are written differently. */
  lemma DecimalInjective(m: nat, n: nat)
    requires Decimal(m) == Decimal(n)
    ensures m == n
  {
    DecimalRoundTrip(m);
    DecimalRoundTrip(n);
  }

  /**
   * A run of digits followed by a non-digit splits in one way only: the
   * digits of a number cannot be confused with the text after them.
   */
  lemma DigitPrefixUnique(a: string, s: string, b: string, t: string)
    requires AllDigits(a) && AllDigits(b)
    requires s != [] && !IsDigit(s[0]) && t != [] && !IsDigit(t[0])
    requires a + s == b + t
    ensures a == b && s == t
  {
    assert a == (a + s)[..|a|] && b == (b + t)[..|b|];
    assert s == (a + s)[|a|..] && t == (b + t)[|b|..];
  }

  lemma DigitsHaveNoBraces(s: string)
    requires AllDigits(s)
    ensures NoBraces(s)
  {
  }

  /** `s.startswith(p)` */
  predicate StartsWith(s: string, p: string) {
    |p| <= |s| && s[..|p|] == p
  }

  /** `s.endswith(p)` */
  predicate EndsWith(s: string, p: string) {
    |p| <= |s| && s[|s| - |p|..] == p
  }

  /** `p in s`: p occurs somewhere in s. */
  predicate Contains(s: string, p: string)
    decreases |s|
  {
    StartsWith(s, p) || (s != [] && Contains(s[1..], p))
  }

  /** A string that holds no `{` cannot hold the placeholder. */
  lemma {:induction false} NoOpenBraceNoPlaceholder(s: string)
    requires forall i :: 0 <= i < |s| ==> s[i] != '{'
    ensures !Contains(s, Placeholder)
    decreases |s|
  {
    if s != [] {
      assert !StartsWith(s, Placeholder) by { assert s[0] != Placeholder[0]; }
      NoOpenBraceNoPlaceholder(s[1..]);
    }
  }

  /**
   * A template `s.format(port=n)` accepts without raising and without
   * unescaping: every brace in it belongs to an occurrence of `{port}`.
   */
  predicate IsTemplate(s: string)
    decreases |s|
  {
    if s == [] then true
    else if StartsWith(s, Placeholder) then IsTemplate(s[|Placeholder|..])
    else !IsBrace(s[0]) && IsTemplate(s[1..])
  }

  /** `s.format(port=port)` on a template: each `{port}` becomes `str(port)`. */
  function Format(s: string, port: nat): string
    requires IsTemplate(s)
    decreases |s|
  {
    if s == [] then []
    else if StartsWith(s, Placeholder) then Decimal(port) + Format(s[|Placeholder|..], port)
    else [s[0]] + Format(s[1..], port)
  }

  /** Formatting leaves no brace behind: every `{port}` became digits. */
  lemma {:induction false} FormatHasNoBraces(s: string, port: nat)
    requires IsTemplate(s)
    ensures NoBraces(Format(s, port))
    decreases |s|
  {
    if s == [] {
    } else if StartsWith(s, Placeholder) {
      FormatHasNoBraces(s[|Placeholder|..], port);
      DigitsHaveNoBraces(Decimal(port));
    } else {
      FormatHasNoBraces(s[1..], port);
    }
  }

  /** A brace-free string is a template that formatting leaves as it is. */
  lemma {:induction false} FormatBraceFree(s: string, port: nat)
    requires NoBraces(s)
    ensures IsTemplate(s) && Format(s, port) == s
    decreases |s|
  {
    if s != [] {
      assert !StartsWith(s, Placeholder) by { assert !IsBrace(s[0]); }
      FormatBraceFree(s[1..], port);
    }
  }

  /** Templates are closed under concatenation. */
  lemma {:induction false} TemplateConcat(a: string, b: string)
    requires IsTemplate(a) && IsTemplate(b)
    ensures IsTemplate(a + b)
    decreases |a|
  {
    if a == [] {
      assert a + b == b;
    } else if StartsWith(a, Placeholder) {
      assert StartsWith(a + b, Placeholder) by { assert (a + b)[..|Placeholder|] == a[..|Placeholder|]; }
      assert (a + b)[|Placeholder|..] == a[|Placeholder|..] + b;
      TemplateConcat(a[|Placeholder|..], b);
    } else {
      assert !StartsWith(a + b, Placeholder) by { assert (a + b)[0] == a[0] && !IsBrace(a[0]); }
      assert (a + b)[1..] == a[1..] + b;
      TemplateConcat(a[1..], b);
    }
  }

  /** Formatting a concatenation of templates formats each part. */
  lemma {:induction false} FormatConcat(a: string, b: string, port: nat)
    requires IsTemplate(a) && IsTemplate(b)
    ensures IsTemplate(a + b) && Format(a + b, port) == Format(a, port) + Format(b, port)
    decreases |a|
  {
    TemplateConcat(a, b);
    if a == [] {
      assert a + b == b;
    } else if StartsWith(a, Placeholder) {
      var rest := a[|Placeholder|..];
      assert StartsWith(a + b, Placeholder) by { assert (a + b)[..|Placeholder|] == a[..|Placeholder|]; }
      assert (a + b)[|Placeholder|..] == rest + b;
      FormatConcat(rest, b, port);
    } else {
      var rest := a[1..];
      assert !StartsWith(a + b, Placeholder) by { assert (a + b)[0] == a[0] && !IsBrace(a[0]); }
      assert (a + b)[1..] == rest + b;
      FormatConcat(rest, b, port);
    }
  }

  /** The placeholder alone formats to the decimal port. */
  lemma FormatPlaceholder(port: nat)
    ensures IsTemplate(Placeholder) && Format(Placeholder, port) == Decimal(port)
  {
    assert StartsWith(Placeholder, Placeholder);
    assert Placeholder[|Placeholder|..] == [];
  }

  /**
   * Substitution at one occurrence: `(a + "{port}" + b).format(port=n)` is
   * `a.format(port=n) + str(n) + b.format(port=n)`; with FormatBraceFree this
   * pins Format down on every template.
   */
  lemma FormatSplice(a: string, b: string, port: nat)
    requires IsTemplate(a) && IsTemplate(b)
    ensures IsTemplate(a + Placeholder + b)
    ensures Format(a + Placeholder + b, port) == Format(a, port) + Decimal(port) + Format(b, port)
  {
    FormatPlaceholder(port);
    FormatConcat(Placeholder, b, port);
    FormatConcat(a, Placeholder + b, port);
    assert a + Placeholder + b == a + (Placeholder + b);
  }

  /** A string without braces does not contain the placeholder. */
  lemma NoBracesNoPlaceholder(s: string)
    requires NoBraces(s)
    ensures !Contains(s, Placeholder)
  {
    NoOpenBraceNoPlaceholder(s);
  }

  /** A string that contains the placeholder contains a brace. */
  lemma PlaceholderHasBrace(s: string)
    requires Contains(s, Placeholder)
    ensures !NoBraces(s)
  {
    if NoBraces(s) {
      NoBracesNoPlaceholder(s);
    }
  }

  /** Formatting changes a template exactly when it holds the placeholder. */
  lemma FormatChangesIff(s: string, port: nat)
    requires IsTemplate(s)
    ensures Format(s, port) == s <==> !Contains(s, Placeholder)
  {
    if Contains(s, Placeholder) {
      PlaceholderHasBrace(s);
      FormatHasNoBraces(s, port);
    } else {
      TemplateWithoutPlaceholderIsBraceFree(s);
      FormatBraceFree(s, port);
    }
  }

  lemma {:induction false} TemplateWithoutPlaceholderIsBraceFree(s: string)
    requires IsTemplate(s) && !Contains(s, Placeholder)
    ensures NoBraces(s)
    decreases |s|
  {
    if s != [] {
      TemplateWithoutPlaceholderIsBraceFree(s[1..]);
    }
  }
}
