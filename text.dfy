/** The Ruby string operations the client relies on: `strip`, deletion of one
    character (`tr(c, '')`, `gsub(c, '')`), ASCII `upcase`, and `Integer#to_s`. */
module Text {

  /** Whitespace as Ruby's `String#strip` defines it: NUL, tab, line feed,
      vertical tab, form feed, carriage return and space. */
  predicate IsSpace(c: char) {
    c == '\0' || c == '\t' || c == '\n' || c == '\U{0B}' || c == '\U{0C}' || c == '\r' || c == ' '
  }

  predicate AllSpace(s: string) {
    forall i :: 0 <= i < |s| ==> IsSpace(s[i])
  }

  /** `r` is what is left of `s` once its leading and trailing whitespace is removed. */
  ghost predicate StrippedFrom(r: string, s: string) {
    exists i :: StrippedAt(r, s, i)
  }

  /** `r` is the slice of `s` starting at `i`, with only whitespace around it
      and none at its own ends. */
  predicate StrippedAt(r: string, s: string, i: int) {
    && 0 <= i <= |s| - |r| && s[i..i + |r|] == r
    && (forall k :: 0 <= k < i ==> IsSpace(s[k]))
    && (forall k :: i + |r| <= k < |s| ==> IsSpace(s[k]))
    && (r == [] || (!IsSpace(r[0]) && !IsSpace(r[|r| - 1])))
  }

  /** The index of the first non-whitespace character of `s` at or after `i`, or `|s|`. */
  function SkipSpace(s: string, i: nat): (j: nat)
    requires i <= |s|
    ensures i <= j <= |s|
    ensures forall k :: i <= k < j ==> IsSpace(s[k])
    ensures j < |s| ==> !IsSpace(s[j])
    decreases |s| - i
  {
    if i < |s| && IsSpace(s[i]) then SkipSpace(s, i + 1) else i
  }

  /** The index just past the last non-whitespace character of `s` in `s[lo..hi]`, or `lo`. */
  function SkipSpaceBack(s: string, lo: nat, hi: nat): (e: nat)
    requires lo <= hi <= |s|
    ensures lo <= e <= hi
    ensures forall k :: e <= k < hi ==> IsSpace(s[k])
    ensures e > lo ==> !IsSpace(s[e - 1])
    decreases hi
  {
    if lo < hi && IsSpace(s[hi - 1]) then SkipSpaceBack(s, lo, hi - 1) else hi
  }

  /** Ruby's `strip` (`lstrip` followed by `rstrip`): the result is exactly `s`
      without its surrounding whitespace, and it is empty precisely when `s` is
      all whitespace. */
  function Strip(s: string): (r: string)
    ensures StrippedFrom(r, s)
    ensures r == [] <==> AllSpace(s)
  {
    var i := SkipSpace(s, 0);
    var e := SkipSpaceBack(s, i, |s|);
    var r := s[i..e];
    assert StrippedAt(r, s, i);
    assert r != [] ==> s[i] == r[0] && !AllSpace(s);
    r
  }

  /** `StrippedFrom` pins its first argument down: `Strip` is the only function
      meeting its contract. */
  lemma StrippedFromUnique(r1: string, r2: string, s: string)
    requires StrippedFrom(r1, s) && StrippedFrom(r2, s)
    ensures r1 == r2
  {
  }

  /** Stripping twice is stripping once. */
  lemma StripIdempotent(s: string)
    ensures Strip(Strip(s)) == Strip(s)
  {
  }

  /** The string without any occurrence of `c`, other characters kept in order:
      Ruby's `tr(c, '')` and `gsub(c, '')` for a one-character `c`. */
  function Delete(s: string, c: char): (r: string)
    ensures c !in r && |r| <= |s|
  {
    if s == [] then []
    else
      var rest := Delete(s[1..], c);
      if s[0] == c then rest else [s[0]] + rest
  }

  /** Deletion removes every occurrence of `c` and no other character. */
  lemma {:induction false} DeleteCounts(s: string, c: char)
    ensures |Delete(s, c)| == |s| - multiset(s)[c]
    ensures forall x :: x != c ==> multiset(Delete(s, c))[x] == multiset(s)[x]
  {
    if s != [] {
      DeleteCounts(s[1..], c);
      assert s == [s[0]] + s[1..];
    }
  }

  /** Deletion works piecewise, so the kept characters stay in their order. */
  lemma {:induction false} DeleteConcat(a: string, b: string, c: char)
    ensures Delete(a + b, c) == Delete(a, c) + Delete(b, c)
  {
    if a == [] {
      assert a + b == b;
    } else {
      assert (a + b)[1..] == a[1..] + b;
      DeleteConcat(a[1..], b, c);
    }
  }

  /** A string without `c` is left alone. */
  lemma {:induction false} DeleteAbsent(s: string, c: char)
    requires c !in s
    ensures Delete(s, c) == s
  {
    if s != [] {
      DeleteAbsent(s[1..], c);
    }
  }

  /** Deleting a separator that occurs once joins the two sides. */
  lemma DeleteSeparator(a: string, b: string, c: char)
    requires c !in a && c !in b
    ensures Delete(a + [c] + b, c) == a + b
  {
    DeleteConcat(a + [c], b, c);
    DeleteConcat(a, [c], c);
    DeleteAbsent(a, c);
    DeleteAbsent(b, c);
    assert [c][1..] == [];
    assert Delete([c], c) == [];
    assert Delete(a + [c], c) == a;
  }

  predicate IsLower(c: char) {
    'a' <= c <= 'z'
  }

  function UpcaseChar(c: char): char {
    if IsLower(c) then (c as int - 32) as char else c
  }

  /** Ruby's `upcase`, for ASCII letters: every lower-case letter becomes its
      capital, everything else is kept. */
  function Upcase(s: string): (r: string)
    ensures |r| == |s|
    ensures forall i :: 0 <= i < |r| ==> !IsLower(r[i])
    ensures forall i :: 0 <= i < |s| && IsLower(s[i]) ==> r[i] as int == s[i] as int - 32
    ensures forall i :: 0 <= i < |s| && !IsLower(s[i]) ==> r[i] == s[i]
  {
    seq(|s|, i requires 0 <= i < |s| => UpcaseChar(s[i]))
  }

  predicate IsDigit(c: char) {
    '0' <= c <= '9'
  }

  predicate AllDigits(s: string) {
    forall i :: 0 <= i < |s| ==> IsDigit(s[i])
  }

  function DigitChar(d: nat): (c: char)
    requires d < 10
    ensures IsDigit(c) && c as int - '0' as int == d
  {
    ('0' as int + d) as char
  }

  /** Ruby's `Integer#to_s` on a non-negative integer: decimal digits, no leading zero. */
  function Decimal(n: nat): (r: string)
    ensures r != [] && AllDigits(r)
    ensures |r| > 1 ==> r[0] != '0'
  {
    if n < 10 then [DigitChar(n)] else Decimal(n / 10) + [DigitChar(n % 10)]
  }

  /** Reads a string of decimal digits back as a number. */
  function ParseDecimal(s: string): nat
    requires AllDigits(s)
  {
    if s == [] then 0 else 10 * ParseDecimal(s[..|s| - 1]) + (s[|s| - 1] as int - '0' as int)
  }

  /** Printing a number and reading it back gives the number. */
  lemma {:induction false} DecimalRoundTrip(n: nat)
    ensures ParseDecimal(Decimal(n)) == n
  {
    if n >= 10 {
      var r := Decimal(n);
      assert r[..|r| - 1] == Decimal(n / 10);
      DecimalRoundTrip(n / 10);
    }
  }
}
