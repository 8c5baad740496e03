/** The java.lang.String operations the orchestrator relies on, stated over
    `string`, a sequence of Unicode scalar values. Java counts UTF-16 code
    units instead, so lengths and indices agree with Java's only for text
    without supplementary characters (all the literals the source uses). */
module Text {

  /** `pat` occurs in `s` starting at index `i`. */
  predicate OccursAt(s: string, pat: string, i: int)
  {
    0 <= i && i + |pat| <= |s| && s[i..i + |pat|] == pat
  }

  /** A text occurs at the front of any text it starts. */
  lemma OccursAtFront(a: string, b: string)
    ensures OccursAt(a + b, a, 0)
  {
    assert (a + b)[..|a|] == a;
  }

  /** Java's `s.contains(pat)`. */
  predicate Contains(s: string, pat: string)
  {
    exists i | 0 <= i <= |s| - |pat| :: OccursAt(s, pat, i)
  }

  /** `i` is the one and only index at which `pat` occurs in `s`. */
  ghost predicate OnlyOccurrence(s: string, pat: string, i: int)
  {
    OccursAt(s, pat, i) && forall j :: OccursAt(s, pat, j) ==> j == i
  }

  lemma ContainsWhenOccurs(s: string, pat: string, i: int)
    requires OccursAt(s, pat, i)
    ensures Contains(s, pat)
  {
  }

  /** A pattern holding a character the text lacks cannot occur in the text. */
  lemma MissingCharNotContained(s: string, pat: string, c: char)
    requires c in pat && c !in s
    ensures !Contains(s, pat)
  {
  }

  /** An occurrence of a pattern covers none of the characters the pattern lacks. */
  lemma OccurrenceAvoids(s: string, pat: string, k: int, c: char)
    requires OccursAt(s, pat, k) && c !in pat
    ensures forall j :: k <= j < k + |pat| ==> s[j] != c
  {
    forall j | k <= j < k + |pat| ensures s[j] != c {
      assert s[j] == s[k..k + |pat|][j - k];
    }
  }

  /** A position holding a character the pattern lacks lies outside every
      occurrence of the pattern. */
  lemma OccurrenceExcludes(s: string, pat: string, k: int, c: char, j: int)
    requires OccursAt(s, pat, k) && c !in pat
    requires 0 <= j < |s| && s[j] == c
    ensures j < k || k + |pat| <= j
  {
    OccurrenceAvoids(s, pat, k, c);
  }

  /** An occurrence in `a` is an occurrence in `a + b`. */
  lemma OccursInLeft(a: string, b: string, pat: string, k: int)
    requires OccursAt(a, pat, k)
    ensures OccursAt(a + b, pat, k)
  {
    assert (a + b)[k..k + |pat|] == a[k..k + |pat|];
  }

  /** An occurrence in `b` is an occurrence in `a + b`, shifted by `|a|`. */
  lemma OccursInRight(a: string, b: string, pat: string, k: int)
    requires OccursAt(b, pat, k)
    ensures OccursAt(a + b, pat, |a| + k)
  {
    assert (a + b)[|a| + k..|a| + k + |pat|] == b[k..k + |pat|];
  }

  /** An occurrence in `a + b` of a newline-free pattern, `a` ending with a
      newline, lies inside `a` or inside `b`. */
  lemma OccurrenceSplits(a: string, b: string, pat: string, k: int)
    requires '\n' !in pat
    requires a != [] ==> a[|a| - 1] == '\n'
    requires OccursAt(a + b, pat, k)
    ensures OccursAt(a, pat, k) || OccursAt(b, pat, k - |a|)
  {
    var ab := a + b;
    if a != [] {
      OccurrenceExcludes(ab, pat, k, '\n', |a| - 1);
    }
    if k + |pat| <= |a| {
      assert a[k..k + |pat|] == ab[k..k + |pat|];
    } else {
      assert b[k - |a|..k - |a| + |pat|] == ab[k..k + |pat|];
    }
  }

  /** An occurrence in `a + b` lies inside `a` or inside `b` when `a` ends
      with a newline and the pattern holds none. */
  lemma ContainsSplitAfterNewline(a: string, b: string, pat: string)
    requires '\n' !in pat
    requires a != [] ==> a[|a| - 1] == '\n'
    ensures Contains(a + b, pat) <==> Contains(a, pat) || Contains(b, pat)
  {
    if Contains(a + b, pat) {
      var k :| OccursAt(a + b, pat, k);
      OccurrenceSplits(a, b, pat, k);
    }
    if Contains(a, pat) {
      var k :| OccursAt(a, pat, k);
      OccursInLeft(a, b, pat, k);
    }
    if Contains(b, pat) {
      var k :| OccursAt(b, pat, k);
      OccursInRight(a, b, pat, k);
    }
  }

  /** A terminating newline adds no occurrence of a newline-free pattern. */
  lemma {:induction false} ContainsIgnoresNewline(s: string, pat: string)
    requires '\n' !in pat
    ensures Contains(s + "\n", pat) <==> Contains(s, pat)
  {
    var t := s + "\n";
    if pat == [] {
      assert OccursAt(s, pat, 0) && OccursAt(t, pat, 0);
    } else if Contains(t, pat) {
      var k :| OccursAt(t, pat, k);
      assert OccursAt(t, pat, k);
      OccurrenceExcludes(t, pat, k, '\n', |s|);
      assert k + |pat| <= |s|;
      assert s[k..k + |pat|] == t[k..k + |pat|];
      assert OccursAt(s, pat, k);
    }
    if Contains(s, pat) {
      var k :| OccursAt(s, pat, k);
      assert OccursAt(s, pat, k);
      assert t[k..k + |pat|] == s[k..k + |pat|];
      assert OccursAt(t, pat, k);
    }
  }

  // ---------------------------------------------------------------------
  // String.replace(CharSequence, CharSequence)

  /** Java's `s.replace(pat, rep)` for a non-empty target: scanning from the
      left, every occurrence that does not overlap an earlier replaced one is
      replaced. */
  function Replace(s: string, pat: string, rep: string): string
    requires pat != []
    decreases |s|
  {
    if s == [] then []
    else if OccursAt(s, pat, 0) then rep + Replace(s[|pat|..], pat, rep)
    else [s[0]] + Replace(s[1..], pat, rep)
  }

  /** Text without an occurrence of the target is left as it is. */
  lemma {:induction false} ReplaceWithoutOccurrence(s: string, pat: string, rep: string)
    requires pat != []
    requires !Contains(s, pat)
    ensures Replace(s, pat, rep) == s
  {
    if s != [] {
      if OccursAt(s, pat, 0) {
        ContainsWhenOccurs(s, pat, 0);
      }
      if Contains(s[1..], pat) {
        var k :| OccursAt(s[1..], pat, k);
        assert OccursAt(s[1..], pat, k);
        assert s[k + 1..k + 1 + |pat|] == s[1..][k..k + |pat|];
        ContainsWhenOccurs(s, pat, k + 1);
      }
      ReplaceWithoutOccurrence(s[1..], pat, rep);
    }
  }

  /** The text before the first occurrence is copied unchanged. */
  lemma {:induction false} ReplaceSkipsPrefix(s: string, pat: string, rep: string, i: nat)
    requires pat != []
    requires i <= |s|
    requires forall j :: 0 <= j < i ==> !OccursAt(s, pat, j)
    ensures Replace(s, pat, rep) == s[..i] + Replace(s[i..], pat, rep)
    decreases i
  {
    if i > 0 {
      var t := s[1..];
      assert Replace(s, pat, rep) == [s[0]] + Replace(t, pat, rep) by {
        assert !OccursAt(s, pat, 0);
      }
      NoEarlyOccurrenceInTail(s, pat, i);
      ReplaceSkipsPrefix(t, pat, rep, i - 1);
      assert t[i - 1..] == s[i..];
      assert s[..i] == [s[0]] + t[..i - 1];
      calc {
        Replace(s, pat, rep);
        [s[0]] + Replace(t, pat, rep);
        [s[0]] + (t[..i - 1] + Replace(s[i..], pat, rep));
        ([s[0]] + t[..i - 1]) + Replace(s[i..], pat, rep);
      }
    }
  }

  /** No occurrence before `i` in a text means none before `i - 1` in its tail. */
  lemma NoEarlyOccurrenceInTail(s: string, pat: string, i: nat)
    requires 0 < i <= |s|
    requires forall j :: 0 <= j < i ==> !OccursAt(s, pat, j)
    ensures forall j :: 0 <= j < i - 1 ==> !OccursAt(s[1..], pat, j)
  {
    forall j | 0 <= j < i - 1
      ensures !OccursAt(s[1..], pat, j)
    {
      if OccursAt(s[1..], pat, j) {
        OccursInTail(s, pat, j);
      }
    }
  }

  /** An occurrence in the tail of a text is an occurrence in the text, one
      place further on. */
  lemma OccursInTail(s: string, pat: string, j: int)
    requires s != [] && OccursAt(s[1..], pat, j)
    ensures OccursAt(s, pat, j + 1)
  {
    assert s[j + 1..j + 1 + |pat|] == s[1..][j..j + |pat|];
  }

  /** Occurrences in a suffix of a text are the text's own occurrences,
      shifted by where the suffix starts. */
  lemma OccursInSuffix(s: string, m: int, pat: string, k: int)
    requires 0 <= m <= |s|
    ensures OccursAt(s[m..], pat, k) <==> OccursAt(s, pat, m + k) && k >= 0
  {
    if 0 <= k && k + |pat| <= |s| - m {
      assert s[m..][k..k + |pat|] == s[m + k..m + k + |pat|];
    }
  }

  /** With a single occurrence, replacing splices `rep` in at that index. */
  lemma {:induction false} ReplaceOnlyOccurrence(s: string, pat: string, rep: string, i: int)
    requires pat != []
    requires OnlyOccurrence(s, pat, i)
    ensures Replace(s, pat, rep) == s[..i] + rep + s[i + |pat|..]
  {
    ReplaceSkipsPrefix(s, pat, rep, i);
    OccursInSuffix(s, i, pat, 0);
    var rest := s[i + |pat|..];
    assert s[i..][|pat|..] == rest;
    if Contains(rest, pat) {
      var k :| OccursAt(rest, pat, k);
      OccursInSuffix(s, i + |pat|, pat, k);
      assert false;
    }
    ReplaceWithoutOccurrence(rest, pat, rep);
  }

  // ---------------------------------------------------------------------
  // String.trim()

  /** Characters `String.trim()` removes: every code unit up to U+0020. */
  predicate IsTrimmed(c: char)
  {
    c <= ' '
  }

  function TrimStart(s: string): (r: string)
    ensures |r| <= |s| && r == s[|s| - |r|..]
    ensures r == [] || !IsTrimmed(r[0])
    ensures forall k :: 0 <= k < |s| - |r| ==> IsTrimmed(s[k])
  {
    if s != [] && IsTrimmed(s[0]) then TrimStart(s[1..]) else s
  }

  function TrimEnd(s: string): (r: string)
    ensures |r| <= |s| && r == s[..|r|]
    ensures r == [] || !IsTrimmed(r[|r| - 1])
    ensures forall k :: |r| <= k < |s| ==> IsTrimmed(s[k])
  {
    if s != [] && IsTrimmed(s[|s| - 1]) then TrimEnd(s[..|s| - 1]) else s
  }

  /** Java's `s.trim()`: the longest slice of `s` that neither starts nor
      ends with a character up to U+0020. */
  function Trim(s: string): string
  {
    TrimEnd(TrimStart(s))
  }

  /** What `String.trim()` promises: a result no longer than the input that
      neither starts nor ends with a trimmed character, and that is empty
      exactly when every character of the input is trimmed. */
  lemma TrimProperties(s: string)
    ensures |Trim(s)| <= |s|
    ensures Trim(s) == [] || (!IsTrimmed(Trim(s)[0]) && !IsTrimmed(Trim(s)[|Trim(s)| - 1]))
    ensures Trim(s) == [] <==> forall k :: 0 <= k < |s| ==> IsTrimmed(s[k])
  {
    var t := TrimStart(s);
    var r := TrimEnd(t);
    if r != [] {
      assert !IsTrimmed(s[|s| - |t| + |r| - 1]);
    }
  }

  /** `s.trim().isEmpty()`. */
  predicate IsBlank(s: string)
  {
    Trim(s) == []
  }

  lemma {:induction false} TrimStartIdentity(s: string)
    requires s == [] || !IsTrimmed(s[0])
    ensures TrimStart(s) == s
  {
  }

  /** Trimming twice is trimming once. */
  lemma TrimIdempotent(s: string)
    ensures Trim(Trim(s)) == Trim(s)
  {
    var r := Trim(s);
    if r != [] {
      assert TrimStart(r) == r;
      assert TrimEnd(r) == r;
    }
  }

  // ---------------------------------------------------------------------
  // String.valueOf(long) and String.valueOf(int)

  function DigitChar(d: nat): char
    requires d < 10
  {
    "0123456789"[d]
  }

  /** Decimal digits of a natural number, without leading zeros. */
  function NatToString(n: nat): (r: string)
    ensures r != []
    ensures forall k :: 0 <= k < |r| ==> '0' <= r[k] <= '9'
    ensures |r| > 1 ==> r[0] != '0'
  {
    if n < 10 then [DigitChar(n)] else NatToString(n / 10) + [DigitChar(n % 10)]
  }

  /** Java's decimal rendering of a signed integer. */
  function IntToString(i: int): string
  {
    if i < 0 then "-" + NatToString(-i) else NatToString(i)
  }

  function DigitValue(c: char): nat
    requires '0' <= c <= '9'
  {
    (c as int - '0' as int) as nat
  }

  /** Reads a decimal numeral back; the partner of `NatToString`. */
  function ParseNat(s: string): nat
    requires forall k :: 0 <= k < |s| ==> '0' <= s[k] <= '9'
  {
    if s == [] then 0 else 10 * ParseNat(s[..|s| - 1]) + DigitValue(s[|s| - 1])
  }

  /** Rendering a timestamp loses nothing: it reads back as the same number. */
  lemma {:induction false} NatToStringRoundTrip(n: nat)
    ensures ParseNat(NatToString(n)) == n
  {
    var r := NatToString(n);
    if n >= 10 {
      NatToStringRoundTrip(n / 10);
      assert r[..|r| - 1] == NatToString(n / 10);
    }
  }

  // ---------------------------------------------------------------------
  // StringBuilder accumulation of the lines a BufferedReader yields

  /** Lines appended one after another with no separator. */
  function Concat(lines: seq<string>): string
  {
    if lines == [] then "" else Concat(lines[..|lines| - 1]) + lines[|lines| - 1]
  }

  lemma {:induction false} ConcatSplit(xs: seq<string>, ys: seq<string>)
    ensures Concat(xs + ys) == Concat(xs) + Concat(ys)
    decreases |ys|
  {
    if ys == [] {
      assert xs + ys == xs;
    } else {
      var init := ys[..|ys| - 1];
      ConcatSplit(xs, init);
      assert (xs + ys)[..|xs + ys| - 1] == xs + init;
    }
  }

  /** Lines appended each followed by a newline. */
  function Terminated(lines: seq<string>): (r: string)
    ensures r == [] || r[|r| - 1] == '\n'
  {
    if lines == [] then "" else Terminated(lines[..|lines| - 1]) + lines[|lines| - 1] + "\n"
  }

  /** A `StringBuilder` fed every line a reader yields, with nothing between. */
  method JoinLines(lines: seq<string>) returns (text: string)
    ensures text == Concat(lines)
  {
    text := "";
    var i := 0;
    while i < |lines|
      invariant 0 <= i <= |lines|
      invariant text == Concat(lines[..i])
    {
      assert lines[..i + 1][..i] == lines[..i];
      text := text + lines[i];
      i := i + 1;
    }
    assert lines[..i] == lines;
  }

  /** A `StringBuilder` fed every line a reader yields, each followed by a
      newline. */
  method JoinTerminated(lines: seq<string>) returns (text: string)
    ensures text == Terminated(lines)
  {
    text := "";
    var i := 0;
    while i < |lines|
      invariant 0 <= i <= |lines|
      invariant text == Terminated(lines[..i])
    {
      assert lines[..i + 1][..i] == lines[..i];
      text := text + lines[i] + "\n";
      i := i + 1;
    }
    assert lines[..i] == lines;
  }

  /** A newline-free pattern occurs in the newline-terminated join of the
      lines exactly when it occurs in one of the lines. */
  lemma {:induction false} TerminatedContains(lines: seq<string>, pat: string)
    requires pat != [] && '\n' !in pat
    ensures Contains(Terminated(lines), pat) <==>
            exists i :: 0 <= i < |lines| && Contains(lines[i], pat)
  {
    if lines != [] {
      var init := lines[..|lines| - 1];
      var last := lines[|lines| - 1];
      var t := Terminated(init);
      TerminatedContains(init, pat);
      assert Terminated(lines) == t + (last + "\n");
      ContainsSplitAfterNewline(t, last + "\n", pat);
      ContainsIgnoresNewline(last, pat);
      if exists i :: 0 <= i < |lines| && Contains(lines[i], pat) {
        var i :| 0 <= i < |lines| && Contains(lines[i], pat);
        if i < |lines| - 1 {
          assert init[i] == lines[i];
        }
      }
      if exists i :: 0 <= i < |init| && Contains(init[i], pat) {
        var i :| 0 <= i < |init| && Contains(init[i], pat);
        assert lines[i] == init[i];
      }
    }
  }
}
