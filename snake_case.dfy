/**
 * `to_snake_case`: two leftmost, non-overlapping regular-expression
 * substitutions followed by lower-casing.
 *
 *   pass 1: `(.)([A-Z][a-z]+)` -> `\1_\2`   (SplitWords)
 *   pass 2: `([a-z0-9])([A-Z])` -> `\1_\2`  (SplitCamel)
 *
 * Character classes are the ASCII ones the patterns name; `.` matches any
 * character but a line feed.
 *
 * Together the passes put one underscore after every character where a word
 * boundary falls (`Separated`), which `ToSnakeCaseSeparatesWords` proves.
 */
module SnakeCase {

  predicate IsUpper(c: char) { 'A' <= c <= 'Z' }

  predicate IsLower(c: char) { 'a' <= c <= 'z' }

  predicate IsLowerOrDigit(c: char) { IsLower(c) || '0' <= c <= '9' }

  predicate NoUpper(s: string) {
    forall i :: 0 <= i < |s| ==> !IsUpper(s[i])
  }

  /** No lower-case letter or digit is directly followed by an upper-case letter. */
  predicate NoCamelBoundary(s: string) {
    forall i :: 0 <= i < |s| - 1 ==> !(IsLowerOrDigit(s[i]) && IsUpper(s[i + 1]))
  }

  /** `out` is `orig` with underscores inserted and nothing else changed. */
  predicate Expands(orig: string, out: string)
    decreases |out|
  {
    if out == [] then orig == []
    else
      (orig != [] && out[0] == orig[0] && Expands(orig[1..], out[1..]))
      || (out[0] == '_' && Expands(orig, out[1..]))
  }

  /** Pass 2 matches at `i`: a lower-case letter or digit, then an upper-case letter. */
  predicate CamelAt(s: string, i: nat) {
    i + 1 < |s| && IsLowerOrDigit(s[i]) && IsUpper(s[i + 1])
  }

  /** Pass 1 matches at `i`: any character but a line feed, then a capitalised word. */
  predicate StartsWord(s: string, i: nat) {
    i + 2 < |s| && s[i] != '\n' && IsUpper(s[i + 1]) && IsLower(s[i + 2])
  }

  /** A word boundary falls right after `s[i]`. */
  predicate WordBoundary(s: string, i: nat) {
    CamelAt(s, i) || StartsWord(s, i)
  }

  /**
   * `s[i..]` with one underscore after every character a word boundary
   * follows: the reference the two passes are proved against.
   */
  function Separated(s: string, i: nat): (r: string)
    requires i <= |s|
    decreases |s| - i
  {
    if i == |s| then []
    else [s[i]] + (if WordBoundary(s, i) then "_" else "") + Separated(s, i + 1)
  }

  /** Where the run of lower-case letters `[a-z]+` would take from position `i` ends. */
  function RunEnd(s: string, i: nat): (n: nat)
    requires i <= |s|
    ensures i <= n <= |s|
    decreases |s| - i
  {
    if i < |s| && IsLower(s[i]) then RunEnd(s, i + 1) else i
  }

  /** Pass 1 on `s[i..]`, the search resuming at position `i`. */
  function SplitWordsFrom(s: string, i: nat): (r: string)
    requires i <= |s|
    decreases |s| - i
  {
    if |s| - i < 3 then s[i..]
    else if StartsWord(s, i) then
      var n := RunEnd(s, i + 2);
      [s[i], '_'] + s[i + 1..n] + SplitWordsFrom(s, n)
    else
      [s[i]] + SplitWordsFrom(s, i + 1)
  }

  /** Pass 1: `re.sub('(.)([A-Z][a-z]+)', r'\1_\2', s)`. */
  function SplitWords(s: string): string {
    SplitWordsFrom(s, 0)
  }

  /** Pass 2 on `s[i..]`, the search resuming at position `i`. */
  function SplitCamelFrom(s: string, i: nat): (r: string)
    requires i <= |s|
    decreases |s| - i
  {
    if |s| - i < 2 then s[i..]
    else if CamelAt(s, i) then
      [s[i], '_', s[i + 1]] + SplitCamelFrom(s, i + 2)
    else
      [s[i]] + SplitCamelFrom(s, i + 1)
  }

  /** Pass 2: `re.sub('([a-z0-9])([A-Z])', r'\1_\2', s)`; it leaves no camel-case boundary. */
  function SplitCamel(s: string): string {
    SplitCamelFrom(s, 0)
  }

  function LowerChar(c: char): char {
    if IsUpper(c) then (c as int - 'A' as int + 'a' as int) as char else c
  }

  function UpperChar(c: char): char {
    if IsLower(c) then (c as int - 'a' as int + 'A' as int) as char else c
  }

  /** `str.lower()` on ASCII letters. */
  function Lower(s: string): (r: string)
    ensures |r| == |s|
  {
    seq(|s|, k requires 0 <= k < |s| => LowerChar(s[k]))
  }

  /** `str.upper()` on ASCII letters. */
  function Upper(s: string): (r: string)
    ensures |r| == |s|
  {
    seq(|s|, k requires 0 <= k < |s| => UpperChar(s[k]))
  }

  /** `to_snake_case(name)` */
  function ToSnakeCase(name: string): (r: string)
    ensures NoUpper(r)
    ensures Expands(Lower(name), r)
  {
    var split := SplitCamel(SplitWords(name));
    SplitWordsExpands(name);
    SplitCamelExpands(SplitWords(name));
    ExpandsTransitive(name, SplitWords(name), split);
    LowerExpands(name, split);
    LowerHasNoUpper(split);
    Lower(split)
  }

  // ---------------------------------------------------------------------
  // Lemmas
  // ---------------------------------------------------------------------

  lemma LowerHasNoUpper(s: string)
    ensures NoUpper(Lower(s))
  {
  }

  lemma UpperHasNoLower(s: string)
    ensures forall i :: 0 <= i < |s| ==> !IsLower(Upper(s)[i])
  {
  }

  /** Upper-casing loses nothing on a string without upper-case letters: lower-casing undoes it. */
  lemma LowerUndoesUpper(s: string)
    requires NoUpper(s)
    ensures Lower(Upper(s)) == s
  {
    forall i | 0 <= i < |s|
      ensures Lower(Upper(s))[i] == s[i]
    {
      assert !IsUpper(s[i]);
    }
  }

  lemma {:induction false} ExpandsReflexive(s: string)
    ensures Expands(s, s)
    decreases |s|
  {
    if s != [] {
      ExpandsReflexive(s[1..]);
    }
  }

  lemma {:induction false} ExpandsTransitive(a: string, b: string, c: string)
    requires Expands(a, b) && Expands(b, c)
    ensures Expands(a, c)
    decreases |c|
  {
    if c != [] {
      if b != [] && c[0] == b[0] && Expands(b[1..], c[1..]) {
        if a != [] && b[0] == a[0] && Expands(a[1..], b[1..]) {
          ExpandsTransitive(a[1..], b[1..], c[1..]);
        } else {
          ExpandsTransitive(a, b[1..], c[1..]);
        }
      } else {
        ExpandsTransitive(a, b, c[1..]);
      }
    }
  }

  /** A common prefix can be put in front of both sides. */
  lemma {:induction false} ExpandsPrefix(p: string, a: string, b: string)
    requires Expands(a, b)
    ensures Expands(p + a, p + b)
    decreases |p|
  {
    if p == [] {
      assert p + a == a && p + b == b;
    } else {
      ExpandsPrefix(p[1..], a, b);
      assert (p + a)[1..] == p[1..] + a;
      assert (p + b)[1..] == p[1..] + b;
      assert (p + a)[0] == (p + b)[0];
    }
  }

  lemma {:induction false} SplitWordsFromExpands(s: string, i: nat)
    requires i <= |s|
    ensures Expands(s[i..], SplitWordsFrom(s, i))
    decreases |s| - i
  {
    if |s| - i < 3 {
      ExpandsReflexive(s[i..]);
    } else if StartsWord(s, i) {
      var n := RunEnd(s, i + 2);
      var rest := SplitWordsFrom(s, n);
      SplitWordsFromExpands(s, n);
      ExpandsPrefix(s[i + 1..n], s[n..], rest);
      assert s[i + 1..n] + s[n..] == s[i + 1..];
      assert Expands(s[i + 1..], "_" + (s[i + 1..n] + rest));
      ExpandsPrefix([s[i]], s[i + 1..], "_" + (s[i + 1..n] + rest));
      assert [s[i]] + s[i + 1..] == s[i..];
      assert [s[i]] + ("_" + (s[i + 1..n] + rest)) == SplitWordsFrom(s, i);
    } else {
      SplitWordsFromExpands(s, i + 1);
      ExpandsPrefix([s[i]], s[i + 1..], SplitWordsFrom(s, i + 1));
      assert [s[i]] + s[i + 1..] == s[i..];
    }
  }

  lemma {:induction false} SplitCamelFromExpands(s: string, i: nat)
    requires i <= |s|
    ensures Expands(s[i..], SplitCamelFrom(s, i))
    decreases |s| - i
  {
    if |s| - i < 2 {
      ExpandsReflexive(s[i..]);
    } else if CamelAt(s, i) {
      var rest := SplitCamelFrom(s, i + 2);
      SplitCamelFromExpands(s, i + 2);
      ExpandsPrefix([s[i + 1]], s[i + 2..], rest);
      assert [s[i + 1]] + s[i + 2..] == s[i + 1..];
      assert Expands(s[i + 1..], "_" + ([s[i + 1]] + rest));
      ExpandsPrefix([s[i]], s[i + 1..], "_" + ([s[i + 1]] + rest));
      assert [s[i]] + s[i + 1..] == s[i..];
      assert [s[i]] + ("_" + ([s[i + 1]] + rest)) == SplitCamelFrom(s, i);
    } else {
      SplitCamelFromExpands(s, i + 1);
      ExpandsPrefix([s[i]], s[i + 1..], SplitCamelFrom(s, i + 1));
      assert [s[i]] + s[i + 1..] == s[i..];
    }
  }

  lemma SplitWordsExpands(s: string)
    ensures Expands(s, SplitWords(s))
  {
    SplitWordsFromExpands(s, 0);
    assert s[0..] == s;
  }

  lemma SplitCamelExpands(s: string)
    ensures Expands(s, SplitCamel(s))
  {
    SplitCamelFromExpands(s, 0);
    assert s[0..] == s;
  }

  /** Lower-casing both sides keeps the underscore-insertion relation. */
  lemma {:induction false} LowerExpands(a: string, b: string)
    requires Expands(a, b)
    ensures Expands(Lower(a), Lower(b))
    decreases |b|
  {
    if b != [] {
      assert Lower(b)[1..] == Lower(b[1..]);
      if a != [] && b[0] == a[0] && Expands(a[1..], b[1..]) {
        LowerExpands(a[1..], b[1..]);
        assert Lower(a)[1..] == Lower(a[1..]);
      } else {
        LowerExpands(a, b[1..]);
      }
    }
  }

  /** Input already free of upper-case letters passes through unchanged. */
  lemma ToSnakeCaseIdentityOnLower(s: string)
    requires NoUpper(s)
    ensures ToSnakeCase(s) == s
  {
    SplitWordsFromNoUpper(s, 0);
    SplitCamelFromNoUpper(s, 0);
    assert s[0..] == s;
  }

  lemma {:induction false} SplitWordsFromNoUpper(s: string, i: nat)
    requires NoUpper(s) && i <= |s|
    ensures SplitWordsFrom(s, i) == s[i..]
    decreases |s| - i
  {
    if |s| - i >= 3 {
      SplitWordsFromNoUpper(s, i + 1);
      assert [s[i]] + s[i + 1..] == s[i..];
    }
  }

  lemma {:induction false} SplitCamelFromNoUpper(s: string, i: nat)
    requires NoUpper(s) && i <= |s|
    ensures SplitCamelFrom(s, i) == s[i..]
    decreases |s| - i
  {
    if |s| - i >= 2 {
      SplitCamelFromNoUpper(s, i + 1);
      assert [s[i]] + s[i + 1..] == s[i..];
    }
  }

  lemma {:induction false} SplitCamelFromSplitsEveryBoundary(s: string, i: nat)
    requires i <= |s|
    ensures var r := SplitCamelFrom(s, i);
            NoCamelBoundary(r) && (i < |s| ==> |r| > 0 && r[0] == s[i])
    decreases |s| - i
  {
    if |s| - i >= 2 {
      if IsLowerOrDigit(s[i]) && IsUpper(s[i + 1]) {
        SplitCamelFromSplitsEveryBoundary(s, i + 2);
      } else {
        SplitCamelFromSplitsEveryBoundary(s, i + 1);
      }
    }
  }

  /**
   * After pass 2 no lower-case letter or digit is directly followed by an
   * upper-case letter: every such boundary has been split by an underscore.
   */
  lemma SplitCamelSplitsEveryBoundary(s: string)
    ensures NoCamelBoundary(SplitCamel(s))
  {
    SplitCamelFromSplitsEveryBoundary(s, 0);
  }

  /** Pass 2 from `|p| + j` on `p + y` is pass 2 from `j` on `y`: it only looks ahead. */
  lemma {:induction false} SplitCamelFromShift(p: string, y: string, j: nat)
    requires j <= |y|
    ensures SplitCamelFrom(p + y, |p| + j) == SplitCamelFrom(y, j)
    decreases |y| - j
  {
    var x := p + y;
    assert x[|p| + j..] == y[j..];
    if |y| - j >= 2 {
      assert x[|p| + j] == y[j] && x[|p| + j + 1] == y[j + 1];
      if CamelAt(y, j) {
        SplitCamelFromShift(p, y, j + 2);
      } else {
        SplitCamelFromShift(p, y, j + 1);
      }
    }
  }

  /** Pass 2 is local: one character, an underscore if it meets a capital, then the rest. */
  lemma SplitCamelCons(c: char, y: string)
    ensures SplitCamel([c] + y)
            == [c] + (if CamelAt([c] + y, 0) then "_" else "") + SplitCamel(y)
  {
    var x := [c] + y;
    if |x| >= 2 {
      assert x[1] == y[0];
      if CamelAt(x, 0) {
        SplitCamelFromShift([c], y, 1);
        if |y| >= 2 {
          assert !CamelAt(y, 0);
        }
      } else {
        SplitCamelFromShift([c], y, 0);
      }
    }
  }

  /** Pass 1 from `n` yields `s[n]` first, and nothing at the end of `s`. */
  lemma SplitWordsFromHead(s: string, n: nat)
    requires n <= |s|
    ensures var r := SplitWordsFrom(s, n);
            (n == |s| ==> r == []) && (n < |s| ==> r != [] && r[0] == s[n])
  {
  }

  /** Pass 2 on a suffix without a pass-1 match is the reference. */
  lemma {:induction false} SplitCamelSeparatesTail(s: string, i: nat)
    requires i <= |s| && |s| - i < 3
    ensures SplitCamel(s[i..]) == Separated(s, i)
    decreases |s| - i
  {
    if i < |s| {
      SplitCamelSeparatesTail(s, i + 1);
      SplitCamelCons(s[i], s[i + 1..]);
      assert [s[i]] + s[i + 1..] == s[i..];
      assert CamelAt([s[i]] + s[i + 1..], 0) == WordBoundary(s, i);
    }
  }

  /** Every character from `i` up to `RunEnd(s, i)` is a lower-case letter. */
  lemma {:induction false} RunEndIsRun(s: string, i: nat)
    requires i <= |s|
    ensures forall k :: i <= k < RunEnd(s, i) ==> IsLower(s[k])
    decreases |s| - i
  {
    if i < |s| && IsLower(s[i]) {
      RunEndIsRun(s, i + 1);
    }
  }

  /**
   * Pass 2 on `s[m..n]`, whose characters after the first are lower-case
   * letters, followed by `r`, whose pass 2 is the reference from `n`, is the
   * reference from `m`: no boundary falls inside the run, and the one at its
   * end is the lower-case-then-capital pair pass 2 splits.
   */
  lemma {:induction false} SplitCamelSeparatesRun(s: string, m: nat, n: nat, r: string)
    requires m < n <= |s| && IsLower(s[n - 1])
    requires forall k :: m < k < n ==> IsLower(s[k])
    requires n == |s| ==> r == []
    requires n < |s| ==> r != [] && r[0] == s[n]
    requires SplitCamel(r) == Separated(s, n)
    ensures SplitCamel(s[m..n] + r) == Separated(s, m)
    decreases n - m
  {
    var y := s[m + 1..n] + r;
    if m + 1 < n {
      SplitCamelSeparatesRun(s, m + 1, n, r);
      assert y[0] == s[m + 1];
    } else {
      assert y == r;
    }
    SplitCamelCons(s[m], y);
    assert [s[m]] + y == s[m..n] + r;
    assert CamelAt([s[m]] + y, 0) == WordBoundary(s, m);
  }

  /** A pass-1 match at `i`: the underscore it inserts is the boundary after `s[i]`. */
  lemma SeparatesMatch(s: string, i: nat, rest: string)
    requires StartsWord(s, i)
    requires SplitCamel(rest) == Separated(s, i + 1)
    ensures SplitCamel([s[i], '_'] + rest) == Separated(s, i)
  {
    SplitCamelCons('_', rest);
    SplitCamelCons(s[i], ['_'] + rest);
    assert [s[i], '_'] + rest == [s[i]] + (['_'] + rest);
  }

  /** No pass-1 match at `i`: pass 2 alone decides the boundary after `s[i]`. */
  lemma SeparatesSkip(s: string, i: nat, r: string)
    requires i < |s| && !StartsWord(s, i)
    requires i + 1 == |s| ==> r == []
    requires i + 1 < |s| ==> r != [] && r[0] == s[i + 1]
    requires SplitCamel(r) == Separated(s, i + 1)
    ensures SplitCamel([s[i]] + r) == Separated(s, i)
  {
    SplitCamelCons(s[i], r);
    assert CamelAt([s[i]] + r, 0) == WordBoundary(s, i);
  }

  /** The two passes from a resumption point `i` of pass 1 give the reference from `i`. */
  lemma {:induction false} PassesSeparate(s: string, i: nat)
    requires i <= |s|
    ensures SplitCamel(SplitWordsFrom(s, i)) == Separated(s, i)
    decreases |s| - i
  {
    if |s| - i < 3 {
      SplitCamelSeparatesTail(s, i);
    } else if StartsWord(s, i) {
      var n := RunEnd(s, i + 2);
      var r := SplitWordsFrom(s, n);
      PassesSeparate(s, n);
      RunEndIsRun(s, i + 2);
      SplitWordsFromHead(s, n);
      SplitCamelSeparatesRun(s, i + 1, n, r);
      SeparatesMatch(s, i, s[i + 1..n] + r);
      assert SplitWordsFrom(s, i) == [s[i], '_'] + (s[i + 1..n] + r);
    } else {
      PassesSeparate(s, i + 1);
      SplitWordsFromHead(s, i + 1);
      SeparatesSkip(s, i, SplitWordsFrom(s, i + 1));
    }
  }

  /**
   * `to_snake_case(name)` puts one underscore after every character where a
   * lower-case letter or digit meets a capital, or where a capitalised word
   * starts after any character but a line feed, and lower-cases the rest.
   */
  lemma ToSnakeCaseSeparatesWords(name: string)
    ensures ToSnakeCase(name) == Lower(Separated(name, 0))
  {
    PassesSeparate(name, 0);
  }

  /** Normalising twice is normalising once. */
  lemma ToSnakeCaseIdempotent(s: string)
    ensures ToSnakeCase(ToSnakeCase(s)) == ToSnakeCase(s)
  {
    ToSnakeCaseIdentityOnLower(ToSnakeCase(s));
  }
}
