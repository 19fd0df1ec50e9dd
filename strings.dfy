/** The few Python `str` operations the backend relies on, with Python's
    semantics: `replace(old, "")`, `strip()`, and `rsplit(sep, 1)[0]`. */
module PyStrings {
  import opened Basics

  /** `p` occurs in `s` as a contiguous piece. */
  predicate Contains(s: string, p: string) {
    exists i :: 0 <= i <= |s| - |p| && OccursAt(s, p, i)
  }

  /** `p` occurs in `s` starting at index `i`. */
  predicate OccursAt(s: string, p: string, i: int) {
    0 <= i && i + |p| <= |s| && s[i..i + |p|] == p
  }

  /** Every character of `s` from index `lo` up to `hi` is whitespace. */
  predicate AllBlank(s: string, lo: int, hi: int) {
    && 0 <= lo <= hi <= |s|
    && forall i :: lo <= i < hi ==> IsSpace(s[i])
  }

  /** Every character of `s` before `a` and from `b` on is whitespace. */
  predicate BlankOutside(s: string, a: int, b: int) {
    a <= b && AllBlank(s, 0, a) && AllBlank(s, b, |s|)
  }

  predicate EndsWith(s: string, suffix: string) {
    |suffix| <= |s| && s[|s| - |suffix|..] == suffix
  }

  /** Python's `str.isspace()` for one character: the ASCII whitespace and
      separators plus the Unicode characters Python treats as whitespace. */
  predicate IsSpace(c: char) {
    || c == ' ' || c == '\t' || c == '\n' || c == '\r' || c == '\U{0B}' || c == '\U{0C}'
    || ('\U{1C}' <= c <= '\U{1F}') || c == '\U{85}' || c == '\U{A0}' || c == '\U{1680}'
    || ('\U{2000}' <= c <= '\U{200A}') || c == '\U{2028}' || c == '\U{2029}'
    || c == '\U{202F}' || c == '\U{205F}' || c == '\U{3000}'
  }

  /** `s.replace(p, "")`: scans left to right and drops every non-overlapping
      occurrence of `p`. */
  function RemoveAll(s: string, p: string): (r: string)
    requires |p| > 0
    ensures |r| <= |s|
    decreases |s|
  {
    if |s| < |p| then s
    else if s[..|p|] == p then RemoveAll(s[|p|..], p)
    else [s[0]] + RemoveAll(s[1..], p)
  }

  /** Whitespace in a piece of `s` that starts at `a` is whitespace in `s`. */
  lemma AllBlankShift(s: string, t: string, a: int, lo: int, hi: int)
    requires 0 <= a <= |s| && t == s[a..] && AllBlank(t, lo, hi)
    ensures AllBlank(s, a + lo, a + hi)
  {
    forall i | a + lo <= i < a + hi ensures IsSpace(s[i]) {
      assert s[i] == t[i - a];
    }
  }

  /** Whitespace in a prefix of `s` is whitespace in `s`. */
  lemma AllBlankPrefix(s: string, t: string, lo: int, hi: int)
    requires |t| <= |s| && t == s[..|t|] && AllBlank(t, lo, hi)
    ensures AllBlank(s, lo, hi)
  {
    forall i | lo <= i < hi ensures IsSpace(s[i]) {
      assert s[i] == t[i];
    }
  }

  /** `s.lstrip()` */
  function TrimLeft(s: string): (r: string)
    ensures |r| <= |s| && r == s[|s| - |r|..]
    ensures AllBlank(s, 0, |s| - |r|)
    ensures r == [] || !IsSpace(r[0])
  {
    if s != [] && IsSpace(s[0]) then
      var r := TrimLeft(s[1..]);
      AllBlankShift(s, s[1..], 1, 0, |s| - 1 - |r|);
      r
    else s
  }

  /** `s.rstrip()` */
  function TrimRight(s: string): (r: string)
    ensures |r| <= |s| && r == s[..|r|]
    ensures AllBlank(s, |r|, |s|)
    ensures r == [] || !IsSpace(r[|r| - 1])
  {
    if s != [] && IsSpace(s[|s| - 1]) then
      var r := TrimRight(s[..|s| - 1]);
      AllBlankPrefix(s, s[..|s| - 1], |r|, |s| - 1);
      r
    else s
  }

  /** `s.strip()`: the result is the piece of `s` left once the whitespace
      at both ends is dropped, and it neither starts nor ends with whitespace. */
  function Strip(s: string): (r: string)
    ensures exists a :: OccursAt(s, r, a) && BlankOutside(s, a, a + |r|)
    ensures r == [] || (!IsSpace(r[0]) && !IsSpace(r[|r| - 1]))
  {
    var l := TrimLeft(s);
    var r := TrimRight(l);
    TrimmedBothEnds(s, l, r);
    r
  }

  /** A prefix `r` of a suffix `l` of `s`, with only whitespace cut off on
      either side, is the piece of `s` at `|s| - |l|`. */
  lemma TrimmedBothEnds(s: string, l: string, r: string)
    requires |l| <= |s| && l == s[|s| - |l|..] && AllBlank(s, 0, |s| - |l|)
    requires |r| <= |l| && r == l[..|r|] && AllBlank(l, |r|, |l|)
    ensures OccursAt(s, r, |s| - |l|) && BlankOutside(s, |s| - |l|, |s| - |l| + |r|)
  {
    var a := |s| - |l|;
    AllBlankShift(s, l, a, |r|, |l|);
    assert r == s[a..a + |r|];
  }

  /** The index of the last `c` in `s`, if any. */
  function LastIndexOf(s: string, c: char): (r: Option<nat>)
    ensures r.Some? ==> r.value < |s| && s[r.value] == c
                        && forall j :: r.value < j < |s| ==> s[j] != c
    ensures r.None? ==> forall j :: 0 <= j < |s| ==> s[j] != c
  {
    if s == [] then None
    else if s[|s| - 1] == c then Some(|s| - 1)
    else LastIndexOf(s[..|s| - 1], c)
  }

  /** `s.rsplit(sep, 1)[0]`: everything before the last `sep`, or all of `s`
      when `sep` does not occur. */
  function RsplitHead(s: string, sep: char): (r: string)
    ensures |r| <= |s| && r == s[..|r|]
    ensures |r| == |s| <==> forall j :: 0 <= j < |s| ==> s[j] != sep
    ensures |r| < |s| ==> s[|r|] == sep && forall j :: |r| < j < |s| ==> s[j] != sep
  {
    match LastIndexOf(s, sep)
    case Some(i) => s[..i]
    case None => s
  }

  // ---------------------------------------------------------------------
  // Facts about occurrence

  lemma ContainsWitness(s: string, p: string, i: int)
    requires OccursAt(s, p, i)
    ensures Contains(s, p)
  {
  }

  /** An occurrence inside a piece of `s` is an occurrence in `s`. */
  lemma ContainsTransitive(s: string, t: string, p: string)
    requires Contains(s, t) && Contains(t, p)
    ensures Contains(s, p)
  {
    var a :| OccursAt(s, t, a);
    assert OccursAt(s, t, a);
    var b :| OccursAt(t, p, b);
    assert OccursAt(t, p, b);
    assert s[a + b..a + b + |p|] == t[b..b + |p|] by {
      assert t == s[a..a + |t|];
      forall j | a + b <= j < a + b + |p| ensures s[j] == t[j - a] {
        assert t[j - a] == s[a..a + |t|][j - a];
      }
    }
    ContainsWitness(s, p, a + b);
  }

  /** Where a longer pattern occurs, so does each of its prefixes. */
  lemma ContainsPrefixOfPattern(s: string, p: string, q: string)
    requires Contains(s, p) && |q| <= |p| && p[..|q|] == q
    ensures Contains(s, q)
  {
    var i :| OccursAt(s, p, i);
    assert OccursAt(s, p, i);
    assert s[i..i + |q|] == p[..|q|];
    ContainsWitness(s, q, i);
  }

  /** A string without `q` has no pattern that starts with `q` either. */
  lemma AbsentPrefixOfPattern(s: string, p: string, q: string)
    requires !Contains(s, q) && |q| <= |p| && p[..|q|] == q
    ensures !Contains(s, p)
  {
    if Contains(s, p) {
      ContainsPrefixOfPattern(s, p, q);
    }
  }

  /** An occurrence in `[c] + t` starts at index 0 or lies inside `t`. */
  lemma ContainsCons(c: char, t: string, p: string)
    ensures Contains([c] + t, p) ==> |p| <= |t| + 1 && (([c] + t)[..|p|] == p || Contains(t, p))
  {
    var s := [c] + t;
    if Contains(s, p) {
      var i :| 0 <= i <= |s| - |p| && OccursAt(s, p, i);
      assert OccursAt(s, p, i);
      if i > 0 {
        assert t[i - 1..i - 1 + |p|] == s[i..i + |p|];
        ContainsWitness(t, p, i - 1);
      }
    }
  }


  /** A pattern whose first character is missing from `s` does not occur. */
  lemma AbsentFirstChar(s: string, p: string)
    requires |p| > 0 && forall k :: 0 <= k < |s| ==> s[k] != p[0]
    ensures !Contains(s, p)
  {
    forall i | 0 <= i <= |s| - |p| ensures !OccursAt(s, p, i) {
      assert s[i..i + |p|][0] == s[i];
    }
  }

  /** Removing a pattern that does not occur changes nothing. */
  lemma {:induction false} RemoveAllAbsent(s: string, p: string)
    requires |p| > 0 && !Contains(s, p)
    ensures RemoveAll(s, p) == s
    decreases |s|
  {
    if |s| >= |p| {
      if s[..|p|] == p {
        ContainsWitness(s, p, 0);
      } else {
        if Contains(s[1..], p) {
          var i :| OccursAt(s[1..], p, i);
          assert OccursAt(s[1..], p, i);
          assert s[i + 1..i + 1 + |p|] == p;
          ContainsWitness(s, p, i + 1);
        }
        RemoveAllAbsent(s[1..], p);
        assert [s[0]] + s[1..] == s;
      }
    }
  }

  // ---------------------------------------------------------------------
  // Removing every triple backtick leaves none behind

  /** The number of backticks `s` starts with. */
  function LeadingTicks(s: string): (n: nat)
    ensures n <= |s|
    ensures forall i :: 0 <= i < n ==> s[i] == '`'
    ensures n < |s| ==> s[n] != '`'
  {
    if s != [] && s[0] == '`' then 1 + LeadingTicks(s[1..]) else 0
  }

  /** `s` starts with three backticks, character by character. */
  lemma TriplePrefix(s: string)
    requires |s| >= 3
    ensures s[..3] == "```" <==> s[0] == '`' && s[1] == '`' && s[2] == '`'
  {
    if s[0] == '`' && s[1] == '`' && s[2] == '`' {
      assert s[..3] == "```";
    }
  }

  /** One step of `replace("```", "")`: a leading triple is dropped, any
      other character is kept. */
  lemma RemoveTicksStep(s: string)
    requires |s| >= 3
    ensures s[0] == '`' && s[1] == '`' && s[2] == '`' ==> RemoveAll(s, "```") == RemoveAll(s[3..], "```")
    ensures !(s[0] == '`' && s[1] == '`' && s[2] == '`') ==> RemoveAll(s, "```") == [s[0]] + RemoveAll(s[1..], "```")
  {
    TriplePrefix(s);
  }

  lemma LeadingTicksCons(c: char, t: string)
    ensures LeadingTicks([c] + t) == if c == '`' then 1 + LeadingTicks(t) else 0
  {
    assert ([c] + t)[1..] == t;
  }

  /** Python's `replace("```", "")` removes the backticks of each run in
      threes, so the result starts with `LeadingTicks(s) % 3` of them. */
  lemma {:induction false} RemoveTicksLeading(s: string)
    ensures LeadingTicks(RemoveAll(s, "```")) == LeadingTicks(s) % 3
    decreases |s|
  {
    if |s| < 3 {
      assert RemoveAll(s, "```") == s;
    } else if s[0] == '`' && s[1] == '`' && s[2] == '`' {
      RemoveTicksLeading(s[3..]);
      RemoveTicksStep(s);
      LeadingTicksDropThreeMod(s, RemoveAll(s[3..], "```"));
    } else {
      RemoveTicksLeading(s[1..]);
      RemoveTicksStep(s);
      LeadingTicksKeepOne(s, RemoveAll(s[1..], "```"));
    }
  }

  /** Dropping a leading triple keeps the count of leading backticks
      modulo 3. */
  lemma LeadingTicksDropThreeMod(s: string, t: string)
    requires |s| >= 3 && s[0] == '`' && s[1] == '`' && s[2] == '`'
    requires LeadingTicks(t) == LeadingTicks(s[3..]) % 3
    ensures LeadingTicks(t) == LeadingTicks(s) % 3
  {
    LeadingTicksDropThree(s);
    var n := LeadingTicks(s[3..]);
    assert (3 + n) % 3 == n % 3;
  }

  lemma LeadingTicksDropThree(s: string)
    requires |s| >= 3 && s[0] == '`' && s[1] == '`' && s[2] == '`'
    ensures LeadingTicks(s) == 3 + LeadingTicks(s[3..])
  {
    assert s[1..][1..][1..] == s[3..];
  }

  /** Keeping the first character of `s` in front of a rest `t` that starts
      with the right number of backticks keeps the count right. */
  lemma LeadingTicksKeepOne(s: string, t: string)
    requires |s| >= 3 && !(s[0] == '`' && s[1] == '`' && s[2] == '`')
    requires LeadingTicks(t) == LeadingTicks(s[1..]) % 3
    ensures LeadingTicks([s[0]] + t) == LeadingTicks(s) % 3
  {
    LeadingTicksCons(s[0], t);
    if s[0] == '`' {
      assert LeadingTicks(s) == 1 + LeadingTicks(s[1..]);
      assert s[1..][0] == s[1];
      if s[1] == '`' {
        assert LeadingTicks(s[1..]) == 1 + LeadingTicks(s[1..][1..]);
        assert s[1..][1..][0] == s[2];
      }
    }
  }

  /** ... and no three backticks in a row survive it. */
  lemma {:induction false} RemoveTicksLeavesNoTriple(s: string)
    ensures !Contains(RemoveAll(s, "```"), "```")
    decreases |s|
  {
    if |s| < 3 {
      assert RemoveAll(s, "```") == s;
    } else if s[0] == '`' && s[1] == '`' && s[2] == '`' {
      RemoveTicksLeavesNoTriple(s[3..]);
      RemoveTicksStep(s);
    } else {
      var t := RemoveAll(s[1..], "```");
      RemoveTicksLeavesNoTriple(s[1..]);
      RemoveTicksLeading(s[1..]);
      RemoveTicksStep(s);
      NoTripleCons(s, t);
    }
  }

  /** Putting the first character of a string that does not start with a
      triple in front of a rest without triples, whose leading backticks are
      those of `s[1..]` modulo 3, creates no triple. */
  lemma NoTripleCons(s: string, t: string)
    requires |s| >= 3 && !(s[0] == '`' && s[1] == '`' && s[2] == '`')
    requires !Contains(t, "```") && LeadingTicks(t) == LeadingTicks(s[1..]) % 3
    ensures !Contains([s[0]] + t, "```")
  {
    var u := [s[0]] + t;
    ContainsCons(s[0], t, "```");
    if |u| >= 3 {
      TriplePrefix(u);
      assert t[0] == u[1] && t[1] == u[2];
      TwoLeadingTicks(t);
    }
    assert s[1..][0] == s[1] && s[1..][1] == s[2];
  }

  lemma TwoLeadingTicks(t: string)
    requires |t| >= 2
    ensures t[0] == '`' && t[1] == '`' ==> LeadingTicks(t) >= 2
  {
    assert [t[0]] + t[1..] == t;
    LeadingTicksCons(t[0], t[1..]);
    assert [t[1]] + t[2..] == t[1..];
    LeadingTicksCons(t[1], t[2..]);
  }


  /** A piece of a string without triple backticks has none either. */
  lemma NoTriplesInPiece(s: string, t: string)
    requires !Contains(s, "```") && Contains(s, t)
    ensures !Contains(t, "```")
  {
    if Contains(t, "```") {
      ContainsTransitive(s, t, "```");
    }
  }

  // ---------------------------------------------------------------------
  // Facts about strip

  /** A string that neither starts nor ends with whitespace is its own strip. */
  lemma StripFixedPoint(s: string)
    requires s == [] || (!IsSpace(s[0]) && !IsSpace(s[|s| - 1]))
    ensures Strip(s) == s
  {
  }

  lemma {:induction false} StripIdempotent(s: string)
    ensures Strip(Strip(s)) == Strip(s)
  {
    StripFixedPoint(Strip(s));
  }

  /** `strip()` returns a piece of its argument. */
  lemma StripIsPiece(s: string)
    ensures Contains(s, Strip(s))
  {
    var r := Strip(s);
    var a :| OccursAt(s, r, a) && BlankOutside(s, a, a + |r|);
    assert OccursAt(s, r, a);
    ContainsWitness(s, r, a);
  }

  // ---------------------------------------------------------------------
  // Removing a fence around backtick-free text keeps that text

  /** No character of `s` is a backtick. */
  predicate NoBacktick(s: string) {
    forall i :: 0 <= i < |s| ==> s[i] != '`'
  }

  /** Whitespace contains no backtick. */
  lemma BlankHasNoBacktick(w: string)
    requires AllBlank(w, 0, |w|)
    ensures NoBacktick(w)
  {
    forall i | 0 <= i < |w| ensures w[i] != '`' {
      assert IsSpace(w[i]);
    }
  }

  /** A pattern that starts with a backtick never occurs in backtick-free
      text, so `replace` keeps such text whole. */
  lemma {:induction false} RemoveAllNoTick(s: string, p: string)
    requires |p| > 0 && p[0] == '`' && NoBacktick(s)
    ensures RemoveAll(s, p) == s
    decreases |s|
  {
    if |s| >= |p| {
      assert s[..|p|][0] != p[0];
      RemoveAllNoTick(s[1..], p);
      assert [s[0]] + s[1..] == s;
    }
  }

  /** `(b + p + w).replace(p, "")` is `b + w` when neither `b` nor `w` has a
      backtick and `p` starts with one: only the one occurrence goes. */
  lemma {:induction false} RemoveAllAroundOne(b: string, p: string, w: string)
    requires |p| > 0 && p[0] == '`' && NoBacktick(b) && NoBacktick(w)
    ensures RemoveAll(b + p + w, p) == b + w
    decreases |b|
  {
    var s := b + p + w;
    if b == [] {
      assert s[..|p|] == p && s[|p|..] == w;
      RemoveAllNoTick(w, p);
    } else {
      assert s[..|p|][0] == b[0] != p[0];
      assert s[1..] == b[1..] + p + w;
      RemoveAllAroundOne(b[1..], p, w);
      assert [b[0]] + (b[1..] + w) == b + w;
    }
  }

  /** "```json" does not occur in backtick-free text followed by a closing
      fence and whitespace: right after the only three backticks comes
      whitespace or the end, never "json". */
  lemma TagAbsentAfterFence(b: string, w: string)
    requires NoBacktick(b) && AllBlank(w, 0, |w|)
    ensures !Contains(b + "```" + w, "```json")
  {
    var s := b + "```" + w;
    var p := "```json";
    forall i | 0 <= i <= |s| - |p| ensures !OccursAt(s, p, i) {
      var piece := s[i..i + |p|];
      if i < |b| {
        assert piece[0] == b[i] != p[0];
      } else if i == |b| {
        assert piece[3] == w[0] && IsSpace(w[0]);
      } else if i == |b| + 1 {
        assert piece[2] == w[0] && IsSpace(w[0]);
      } else if i == |b| + 2 {
        assert piece[1] == w[0] && IsSpace(w[0]);
      } else {
        assert piece[0] == w[i - |b| - 3] && IsSpace(w[i - |b| - 3]);
      }
    }
  }

  /** Whitespace appended to `s` is exactly what `rstrip()` removes again. */
  lemma {:induction false} TrimRightBlankTail(s: string, w: string)
    requires AllBlank(w, 0, |w|)
    ensures TrimRight(s + w) == TrimRight(s)
    decreases |w|
  {
    if w == [] {
      assert s + w == s;
    } else {
      var w' := w[..|w| - 1];
      assert (s + w)[..|s + w| - 1] == s + w';
      assert IsSpace(w[|w| - 1]);
      TrimRightBlankTail(s, w');
    }
  }

  /** `lstrip()` of `s + w` for whitespace `w`: the whitespace stays behind a
      non-blank `s`, and everything goes when `s` is blank too. */
  lemma {:induction false} TrimLeftBlankTail(s: string, w: string)
    requires AllBlank(w, 0, |w|)
    ensures TrimLeft(s) != [] ==> TrimLeft(s + w) == TrimLeft(s) + w
    ensures TrimLeft(s) == [] ==> TrimLeft(s + w) == []
    decreases |s|
  {
    if s == [] {
      assert s + w == w;
    } else if IsSpace(s[0]) {
      assert (s + w)[1..] == s[1..] + w;
      TrimLeftBlankTail(s[1..], w);
    }
  }

  /** Trailing whitespace does not change what `strip()` returns. */
  lemma StripBlankTail(s: string, w: string)
    requires AllBlank(w, 0, |w|)
    ensures Strip(s + w) == Strip(s)
  {
    TrimLeftBlankTail(s, w);
    if TrimLeft(s) != [] {
      TrimRightBlankTail(TrimLeft(s), w);
    }
  }
}
