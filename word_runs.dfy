// A text cut into its word runs: each maximal run of word characters
// together with the run of other characters that follows it.  A whole-word
// phrase that begins with a word character can only match where a run
// begins, which turns "this phrase occurs nowhere" into a check per run.

module WordRuns {
  import opened Text

  /** A maximal run of word characters and the non-word characters after it. */
  datatype Run = Run(word: string, gap: string)

  predicate AllWordChars(s: string) {
    forall k :: 0 <= k < |s| ==> IsWordChar(s[k])
  }

  predicate NoWordChars(s: string) {
    forall k :: 0 <= k < |s| ==> !IsWordChar(s[k])
  }

  /** Each word is a non-empty run of word characters, and only the last gap may be empty. */
  predicate WellFormed(rs: seq<Run>) {
    forall m :: 0 <= m < |rs| ==>
      rs[m].word != [] && AllWordChars(rs[m].word) && NoWordChars(rs[m].gap)
      && (m + 1 < |rs| ==> rs[m].gap != [])
  }

  /** The text the runs spell out. */
  function Render(rs: seq<Run>): string {
    if rs == [] then [] else rs[0].word + rs[0].gap + Render(rs[1..])
  }

  /** The runs folded to lower case. */
  function LowerRuns(rs: seq<Run>): (ls: seq<Run>)
    ensures |ls| == |rs|
    ensures forall m :: 0 <= m < |rs| ==> ls[m] == Run(Lower(rs[m].word), Lower(rs[m].gap))
  {
    seq(|rs|, m requires 0 <= m < |rs| => Run(Lower(rs[m].word), Lower(rs[m].gap)))
  }

  /** Phrase w, matched as a whole word where run r begins. */
  predicate StartsAtRun(w: string, r: Run) {
    w == r.word
    || (|r.word| < |w| && w[..|r.word|] == r.word && r.gap != [] && w[|r.word|] == r.gap[0])
  }

  lemma RenderAppend(a: seq<Run>, b: seq<Run>)
    ensures Render(a + b) == Render(a) + Render(b)
  {
    if a != [] {
      assert (a + b)[1..] == a[1..] + b;
      RenderAppend(a[1..], b);
      var h := a[0].word + a[0].gap;
      assert (a + b)[0] == a[0];
      assert Render(a + b) == h + Render(a[1..] + b);
      assert Render(a) == h + Render(a[1..]);
      assert h + (Render(a[1..]) + Render(b)) == (h + Render(a[1..])) + Render(b);
    } else {
      assert a + b == b;
    }
  }

  lemma WellFormedAppend(a: seq<Run>, b: seq<Run>)
    requires WellFormed(a) && WellFormed(b)
    requires a != [] && b != [] ==> a[|a| - 1].gap != []
    ensures WellFormed(a + b)
  {
  }

  /** Folding case keeps the runs apart and commutes with spelling them out. */
  lemma {:induction false} LowerRender(rs: seq<Run>)
    ensures WellFormed(rs) ==> WellFormed(LowerRuns(rs))
    ensures Lower(Render(rs)) == Render(LowerRuns(rs))
  {
    if WellFormed(rs) {
      forall m, k | 0 <= m < |rs| && 0 <= k < |rs[m].word|
        ensures IsWordChar(Lower(rs[m].word)[k])
      {
        CaseMapPreservesClasses(rs[m].word[k]);
      }
      forall m, k | 0 <= m < |rs| && 0 <= k < |rs[m].gap|
        ensures !IsWordChar(Lower(rs[m].gap)[k])
      {
        CaseMapPreservesClasses(rs[m].gap[k]);
      }
    }
    if rs != [] {
      LowerRender(rs[1..]);
      assert LowerRuns(rs)[1..] == LowerRuns(rs[1..]);
      LowerAppend(rs[0].word + rs[0].gap, Render(rs[1..]));
      LowerAppend(rs[0].word, rs[0].gap);
    }
  }

  /** A whole-word match of a phrase that begins with a word character begins where some run does. */
  lemma {:induction false} PhraseStartsAtRun(rs: seq<Run>, w: string, i: int)
    requires WellFormed(rs) && w != [] && IsWordChar(w[0])
    requires PhraseAt(Render(rs), w, i)
    ensures exists m :: 0 <= m < |rs| && StartsAtRun(w, rs[m])
  {
    assert Render(rs) != [];
    var word, gap := rs[0].word, rs[0].gap;
    var head := word + gap;
    var rest := Render(rs[1..]);
    assert Render(rs) == head + rest;
    if i < |head| {
      WithinFirstRun(word, gap, rest, w, i);
      assert StartsAtRun(w, rs[0]);
    } else {
      assert rest != [];
      assert 1 < |rs|;
      PhraseInRest(head, rest, w, i);
      WellFormedTail(rs);
      PhraseStartsAtRun(rs[1..], w, i - |head|);
      var m :| 0 <= m < |rs[1..]| && StartsAtRun(w, rs[1..][m]);
      assert StartsAtRun(w, rs[m + 1]);
    }
  }

  lemma WellFormedTail(rs: seq<Run>)
    requires WellFormed(rs) && rs != []
    ensures WellFormed(rs[1..])
  {
    forall m | 0 <= m < |rs[1..]|
      ensures rs[1..][m] == rs[m + 1]
    {
    }
  }

  lemma WithinFirstRun(word: string, gap: string, rest: string, w: string, i: int)
    requires word != [] && AllWordChars(word) && NoWordChars(gap) && (rest != [] ==> gap != [])
    requires w != [] && IsWordChar(w[0])
    requires i < |word + gap| && PhraseAt(word + gap + rest, w, i)
    ensures StartsAtRun(w, Run(word, gap))
  {
    var t := word + gap + rest;
    var n := |word|;
    assert t[i] == w[0];
    assert t[..n] == word;
    NoBoundaryInsideWord(t, n);
    assert i == 0;
    assert n <= |w|;
    assert t[..n] == word;
    if |w| > n {
      assert gap != [];
      assert w[n] == t[n] == gap[0];
    }
  }

  /** No `\b` falls strictly inside a leading run of word characters. */
  lemma NoBoundaryInsideWord(t: string, n: nat)
    requires n <= |t| && AllWordChars(t[..n])
    ensures forall p :: 0 < p < n ==> !WordBoundary(t, p)
  {
    forall p | 0 < p < n
      ensures !WordBoundary(t, p)
    {
      assert t[p - 1] == t[..n][p - 1] && t[p] == t[..n][p];
    }
  }

  lemma PhraseInRest(head: string, rest: string, w: string, i: int)
    requires head != [] && !IsWordChar(head[|head| - 1])
    requires |head| <= i && PhraseAt(head + rest, w, i)
    ensures PhraseAt(rest, w, i - |head|)
  {
    var t := head + rest;
    var j := i - |head|;
    assert t[i..i + |w|] == rest[j..j + |w|];
    if j == 0 {
      assert t[i - 1] == head[|head| - 1];
    } else {
      assert t[i - 1] == rest[j - 1];
    }
    if j < |rest| {
      assert t[i] == rest[j];
    }
    if j + |w| < |rest| {
      assert t[i + |w|] == rest[j + |w|];
    }
    if 0 < j + |w| {
      assert t[i + |w| - 1] == rest[j + |w| - 1];
    }
  }

  /**
   * A quick certificate that phrase w cannot start at run r, whose word is
   * not empty: the word is longer than w, or w differs from it in its first, second or last
   * character, or w goes on past the word with a character other than the
   * gap's first.
   */
  predicate Excludes(w: string, r: Run) {
    var n := |r.word|;
    0 < n &&
    (|w| < n || w[0] != r.word[0] || (1 < n && w[1] != r.word[1])
     || w[n - 1] != r.word[n - 1] || (n < |w| && (r.gap == [] || w[n] != r.gap[0])))
  }

  lemma ExcludesRefutes(w: string, r: Run)
    ensures Excludes(w, r) ==> !StartsAtRun(w, r)
  {
    var n := |r.word|;
    if 0 < n < |w| {
      var p := w[..n];
      assert p[0] == w[0] && p[n - 1] == w[n - 1];
      assert 1 < n ==> p[1] == w[1];
    }
  }

  /** Every run of rs, folded to lower case, is certified not to start phrase w. */
  predicate ExcludedFrom(w: string, rs: seq<Run>) {
    forall m :: 0 <= m < |rs| ==> Excludes(w, Run(Lower(rs[m].word), Lower(rs[m].gap)))
  }

  lemma ExcludedFromAppend(w: string, a: seq<Run>, b: seq<Run>)
    requires ExcludedFrom(w, a) && ExcludedFrom(w, b)
    ensures ExcludedFrom(w, a + b)
  {
    forall m | 0 <= m < |a + b|
      ensures Excludes(w, Run(Lower((a + b)[m].word), Lower((a + b)[m].gap)))
    {
      if m < |a| {
        assert (a + b)[m] == a[m];
      } else {
        assert (a + b)[m] == b[m - |a|];
      }
    }
  }

  /** A phrase certified absent from every run occurs nowhere in the lower-case text. */
  lemma AbsentWhenExcluded(rs: seq<Run>, w: string)
    requires WellFormed(rs) && w != [] && IsWordChar(w[0])
    requires ExcludedFrom(w, rs)
    ensures !OccursAsWord(Lower(Render(rs)), w)
  {
    LowerRender(rs);
    var ls := LowerRuns(rs);
    forall m | 0 <= m < |ls|
      ensures !StartsAtRun(w, ls[m])
    {
      ExcludesRefutes(w, ls[m]);
    }
    if i :| 0 <= i <= |Lower(Render(rs))| - |w| && PhraseAt(Lower(Render(rs)), w, i) {
      PhraseStartsAtRun(ls, w, i);
    }
  }

  // ---------------------------------------------------------------------
  // Substrings made of word characters
  // ---------------------------------------------------------------------

  /** A substring made of word characters lies inside a single word. */
  lemma {:induction false} SubstringInsideWord(rs: seq<Run>, w: string)
    requires WellFormed(rs) && w != [] && AllWordChars(w)
    requires Contains(Render(rs), w)
    ensures exists m :: 0 <= m < |rs| && Contains(rs[m].word, w)
  {
    var t := Render(rs);
    assert t != [];
    var word, gap := rs[0].word, rs[0].gap;
    var head := word + gap;
    var rest := Render(rs[1..]);
    assert t == head + rest;
    var i :| 0 <= i <= |t| - |w| && SubstringAt(t, w, i);
    NoWordCrossesGap(word, gap, rest, w, i);
    if i + |w| <= |word| {
      assert t[i..i + |w|] == word[i..i + |w|];
      assert SubstringAt(word, w, i);
    } else {
      var j := i - |head|;
      assert rest[j..j + |w|] == t[i..i + |w|];
      assert SubstringAt(rest, w, j);
      WellFormedTail(rs);
      SubstringInsideWord(rs[1..], w);
      var m :| 0 <= m < |rs[1..]| && Contains(rs[1..][m].word, w);
      assert rs[1..][m] == rs[m + 1];
    }
  }

  lemma NoWordCrossesGap(word: string, gap: string, rest: string, w: string, i: int)
    requires NoWordChars(gap) && (gap == [] ==> rest == [])
    requires w != [] && AllWordChars(w) && SubstringAt(word + gap + rest, w, i)
    ensures i + |w| <= |word| || |word + gap| <= i
  {
    var t := word + gap + rest;
    var p := if i < |word| then |word| else i;
    if p < i + |w| && p < |t| {
      assert t[p] == t[i..i + |w|][p - i] == w[p - i];
    }
    if |word| <= p < |word + gap| {
      assert t[p] == gap[p - |word|];
    }
  }

  /** A word-character substring found in no word of the runs is absent from the lower-case text. */
  lemma AbsentSubstring(rs: seq<Run>, w: string)
    requires WellFormed(rs) && w != [] && AllWordChars(w)
    requires forall m :: 0 <= m < |rs| ==> !Contains(Lower(rs[m].word), w)
    ensures !Contains(Lower(Render(rs)), w)
  {
    LowerRender(rs);
    if Contains(Render(LowerRuns(rs)), w) {
      SubstringInsideWord(LowerRuns(rs), w);
    }
  }

  /** None of the keys occurs in any word of rs, folded to lower case. */
  predicate KeysAbsent(rs: seq<Run>, keys: seq<string>) {
    forall m, q :: 0 <= m < |rs| && 0 <= q < |keys| ==> !Contains(Lower(rs[m].word), keys[q])
  }

  lemma KeysAbsentAppend(a: seq<Run>, b: seq<Run>, keys: seq<string>)
    requires KeysAbsent(a, keys) && KeysAbsent(b, keys)
    ensures KeysAbsent(a + b, keys)
  {
    forall m, q | 0 <= m < |a + b| && 0 <= q < |keys|
      ensures !Contains(Lower((a + b)[m].word), keys[q])
    {
      if m < |a| {
        assert (a + b)[m] == a[m];
      } else {
        assert (a + b)[m] == b[m - |a|];
      }
    }
  }

  /** A substring of one word of the runs, in lower case, is a substring of the lower-case text. */
  lemma {:induction false} ContainsWordOf(rs: seq<Run>, m: nat, w: string)
    requires m < |rs| && Contains(Lower(rs[m].word), w)
    ensures Contains(Lower(Render(rs)), w)
  {
    var head := rs[0].word + rs[0].gap;
    var rest := Render(rs[1..]);
    assert Render(rs) == head + rest;
    LowerAppend(head, rest);
    LowerAppend(rs[0].word, rs[0].gap);
    if m == 0 {
      ContainsPadded([], Lower(rs[0].word), Lower(rs[0].gap) + Lower(rest), w);
      assert [] + Lower(rs[0].word) + (Lower(rs[0].gap) + Lower(rest)) == Lower(Render(rs));
    } else {
      assert rs[1..][m - 1] == rs[m];
      ContainsWordOf(rs[1..], m - 1, w);
      ContainsPadded(Lower(head), Lower(rest), [], w);
      assert Lower(head) + Lower(rest) + [] == Lower(Render(rs));
    }
  }

  /** A key that is one word and absent from every word is absent from the lower-case text. */
  lemma KeyAbsent(rs: seq<Run>, keys: seq<string>, q: nat)
    requires WellFormed(rs) && KeysAbsent(rs, keys)
    requires q < |keys| && keys[q] != [] && AllWordChars(keys[q])
    ensures !Contains(Lower(Render(rs)), keys[q])
  {
    AbsentSubstring(rs, keys[q]);
  }
}
