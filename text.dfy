// Character and string primitives used by the support bot's heuristics:
// ASCII case mapping, substring search (`sub in s`), the regular-expression
// word boundary `\b`, and whitespace splitting (`str.split()` with no
// separator).  Only the ASCII part of Python's Unicode tables is modelled.

module Wrappers {
  datatype Option<T> = None | Some(value: T)
}

module Text {

  /** Characters matched by `\w` (ASCII letters, digits and underscore). */
  predicate IsWordChar(c: char) {
    ('a' <= c <= 'z') || ('A' <= c <= 'Z') || ('0' <= c <= '9') || c == '_'
  }

  /** Characters matched by `\d` (ASCII digits). */
  predicate IsDigit(c: char) {
    '0' <= c <= '9'
  }

  /** Whitespace for `str.split()`: space, \t \n \v \f \r and the separators 0x1C-0x1F. */
  predicate IsSpace(c: char) {
    c == ' ' || ('\t' <= c <= '\r') || ('\U{1C}' <= c <= '\U{1F}')
  }

  predicate IsUpperLetter(c: char) { 'A' <= c <= 'Z' }
  predicate IsLowerLetter(c: char) { 'a' <= c <= 'z' }

  function ToLower(c: char): char {
    if IsUpperLetter(c) then (c as int + 32) as char else c
  }

  function ToUpper(c: char): char {
    if IsLowerLetter(c) then (c as int - 32) as char else c
  }

  /** `str.lower()` */
  function Lower(s: string): (r: string)
    ensures |r| == |s|
    ensures forall i :: 0 <= i < |s| ==> r[i] == ToLower(s[i])
  {
    seq(|s|, i requires 0 <= i < |s| => ToLower(s[i]))
  }

  /** `str.upper()` */
  function Upper(s: string): (r: string)
    ensures |r| == |s|
    ensures forall i :: 0 <= i < |s| ==> r[i] == ToUpper(s[i])
  {
    seq(|s|, i requires 0 <= i < |s| => ToUpper(s[i]))
  }

  lemma LowerAppend(a: string, b: string)
    ensures Lower(a + b) == Lower(a) + Lower(b)
  {
  }

  lemma UpperAppend(a: string, b: string)
    ensures Upper(a + b) == Upper(a) + Upper(b)
  {
  }

  /** Case mapping neither creates nor destroys word characters or digits. */
  lemma CaseMapPreservesClasses(c: char)
    ensures IsWordChar(ToLower(c)) == IsWordChar(c) && IsWordChar(ToUpper(c)) == IsWordChar(c)
    ensures IsDigit(ToLower(c)) == IsDigit(c) && IsDigit(ToUpper(c)) == IsDigit(c)
  {
  }

  /** Folding to upper case first does not change the lower-case form. */
  lemma LowerOfUpper(s: string)
    ensures Lower(Upper(s)) == Lower(s)
  {
  }

  /** Python's `sub in s`. */
  predicate Contains(s: string, sub: string) {
    exists i :: 0 <= i <= |s| - |sub| && SubstringAt(s, sub, i)
  }

  /** sub occurs in s starting at index i. */
  predicate SubstringAt(s: string, sub: string, i: int) {
    0 <= i && i + |sub| <= |s| && s[i..i + |sub|] == sub
  }

  /** A substring stays a substring when text is added on either side. */
  lemma ContainsPadded(a: string, s: string, b: string, sub: string)
    requires Contains(s, sub)
    ensures Contains(a + s + b, sub)
  {
    var i :| 0 <= i <= |s| - |sub| && SubstringAt(s, sub, i);
    assert (a + s + b)[|a| + i..|a| + i + |sub|] == sub;
    assert SubstringAt(a + s + b, sub, |a| + i);
  }

  /** Some character of sub from index j on differs from the one of s it faces when sub is laid at i. */
  predicate DiffersFrom(s: string, sub: string, i: nat, j: nat)
    requires i + |sub| <= |s|
    decreases |sub| - j
  {
    j < |sub| && (s[i + j] != sub[j] || DiffersFrom(s, sub, i, j + 1))
  }

  /** sub starts at no position of s from i on, checked position by position. */
  predicate AbsentFrom(s: string, sub: string, i: nat)
    decreases |s| - i
  {
    i + |sub| > |s| || (DiffersFrom(s, sub, i, 0) && AbsentFrom(s, sub, i + 1))
  }

  lemma {:induction false} DiffersFromSound(s: string, sub: string, i: nat, j: nat)
    requires i + |sub| <= |s| && j <= |sub|
    requires DiffersFrom(s, sub, i, j)
    ensures s[i..i + |sub|] != sub
    decreases |sub| - j
  {
    if s[i + j] != sub[j] {
      assert s[i..i + |sub|][j] == s[i + j];
    } else {
      DiffersFromSound(s, sub, i, j + 1);
    }
  }

  lemma {:induction false} AbsentFromSound(s: string, sub: string, i: nat, p: int)
    requires AbsentFrom(s, sub, i) && i <= p
    ensures !SubstringAt(s, sub, p)
    decreases |s| - i
  {
    if i + |sub| <= |s| {
      if p == i {
        DiffersFromSound(s, sub, i, 0);
      } else {
        AbsentFromSound(s, sub, i + 1, p);
      }
    }
  }

  /** The position-by-position check is sound: a text that passes it does not contain sub. */
  lemma NotContainedWhenAbsent(s: string, sub: string)
    requires AbsentFrom(s, sub, 0)
    ensures !Contains(s, sub)
  {
    forall p | 0 <= p <= |s| - |sub| ensures !SubstringAt(s, sub, p) {
      AbsentFromSound(s, sub, 0, p);
    }
  }

  /** A piece of a substring is a substring too. */
  lemma ContainsPart(s: string, sub: string, p: nat, q: nat)
    requires p <= q <= |sub| && Contains(s, sub)
    ensures Contains(s, sub[p..q])
  {
    var i :| 0 <= i <= |s| - |sub| && SubstringAt(s, sub, i);
    assert s[i..i + |sub|] == sub;
    forall k | 0 <= k < q - p ensures s[i + p..i + q][k] == sub[p..q][k] {
      assert s[i + p + k] == s[i..i + |sub|][p + k];
    }
    assert SubstringAt(s, sub[p..q], i + p);
  }

  /** `\b` at position i of t: exactly one of the neighbouring characters is a word character. */
  predicate WordBoundary(t: string, i: int)
    requires 0 <= i <= |t|
  {
    (i > 0 && IsWordChar(t[i - 1])) != (i < |t| && IsWordChar(t[i]))
  }

  /** `\b` w `\b` matches t at position i. */
  predicate PhraseAt(t: string, w: string, i: int) {
    0 <= i && i + |w| <= |t| && t[i..i + |w|] == w
    && WordBoundary(t, i) && WordBoundary(t, i + |w|)
  }

  /** `re.search(r"\b" + w + r"\b", t)` finds a match. */
  predicate OccursAsWord(t: string, w: string) {
    exists i :: 0 <= i <= |t| - |w| && PhraseAt(t, w, i)
  }

  // ---------------------------------------------------------------------
  // `str.split()`
  // ---------------------------------------------------------------------

  /** Length of the run of non-whitespace characters that s starts with. */
  function TokenLength(s: string): (n: nat)
    ensures n <= |s|
    ensures forall k :: 0 <= k < n ==> !IsSpace(s[k])
    ensures n == |s| || IsSpace(s[n])
  {
    if s == [] || IsSpace(s[0]) then 0 else 1 + TokenLength(s[1..])
  }

  /** `s.split()`: the maximal runs of non-whitespace characters, in order. */
  function Words(s: string): (ws: seq<string>)
    ensures |ws| <= |s|
    ensures forall k :: 0 <= k < |ws| ==> ws[k] != [] && forall j :: 0 <= j < |ws[k]| ==> !IsSpace(ws[k][j])
    decreases |s|
  {
    if s == [] then []
    else if IsSpace(s[0]) then Words(s[1..])
    else
      var n := TokenLength(s);
      [s[..n]] + Words(s[n..])
  }

  function WordCount(s: string): nat {
    |Words(s)|
  }

  predicate Blank(s: string) {
    forall k :: 0 <= k < |s| ==> IsSpace(s[k])
  }

  /** `split()` yields nothing exactly when the text is empty or all whitespace. */
  lemma {:induction false} NoWordsIffBlank(s: string)
    ensures WordCount(s) == 0 <==> Blank(s)
    decreases |s|
  {
    if s == [] {
    } else if IsSpace(s[0]) {
      NoWordsIffBlank(s[1..]);
      assert Blank(s) <==> Blank(s[1..]) by {
        if Blank(s[1..]) {
          forall k | 0 <= k < |s| ensures IsSpace(s[k]) {
            if k > 0 { assert s[k] == s[1..][k - 1]; }
          }
        }
      }
    } else {
      assert !Blank(s);
    }
  }

  lemma {:induction false} TokenLengthAcrossSpace(a: string, c: char, b: string)
    requires IsSpace(c)
    ensures TokenLength(a + [c] + b) == TokenLength(a)
    decreases |a|
  {
    if a == [] {
      assert (a + [c] + b)[0] == c;
    } else if IsSpace(a[0]) {
      assert (a + [c] + b)[0] == a[0];
    } else {
      assert (a + [c] + b)[1..] == a[1..] + [c] + b;
      TokenLengthAcrossSpace(a[1..], c, b);
    }
  }

  /** Splitting is additive across a whitespace character. */
  lemma {:induction false} WordsAcrossSpace(a: string, c: char, b: string)
    requires IsSpace(c)
    ensures Words(a + [c] + b) == Words(a) + Words(b)
    decreases |a|
  {
    var s := a + [c] + b;
    if a == [] {
      assert s[1..] == b;
    } else if IsSpace(a[0]) {
      assert s[1..] == a[1..] + [c] + b;
      WordsAcrossSpace(a[1..], c, b);
    } else {
      var n := TokenLength(a);
      TokenLengthAcrossSpace(a, c, b);
      assert s[..n] == a[..n];
      assert s[n..] == a[n..] + [c] + b;
      WordsAcrossSpace(a[n..], c, b);
      var head := [a[..n]];
      assert Words(s) == head + (Words(a[n..]) + Words(b));
      assert Words(a) == head + Words(a[n..]);
    }
  }

  /** A whitespace-free non-empty text is a single word. */
  lemma {:induction false} SingleWord(w: string)
    requires w != [] && forall k :: 0 <= k < |w| ==> !IsSpace(w[k])
    ensures Words(w) == [w]
  {
    assert TokenLength(w) == |w|;
    assert w[..|w|] == w;
    assert w[|w|..] == [];
  }

  // ---------------------------------------------------------------------
  // `str.join`
  // ---------------------------------------------------------------------

  /** Total length of the parts. */
  function TotalLength(parts: seq<string>): nat {
    if parts == [] then 0 else |parts[0]| + TotalLength(parts[1..])
  }

  /** `sep.join(parts)`: the parts with one separator between neighbours. */
  function Join(parts: seq<string>, sep: string): (s: string)
    ensures parts == [] ==> s == ""
    ensures parts != [] ==> |s| == TotalLength(parts) + (|parts| - 1) * |sep|
  {
    if parts == [] then ""
    else if |parts| == 1 then parts[0]
    else parts[0] + sep + Join(parts[1..], sep)
  }

  /** Appending a part appends the separator and that part. */
  lemma {:induction false} JoinSnoc(parts: seq<string>, last: string, sep: string)
    requires parts != []
    ensures Join(parts + [last], sep) == Join(parts, sep) + sep + last
    decreases |parts|
  {
    var q := parts + [last];
    if |parts| == 1 {
      assert q[1..] == [last];
    } else {
      assert q[1..] == parts[1..] + [last];
      JoinSnoc(parts[1..], last, sep);
      var mid := Join(parts[1..], sep);
      assert Join(q, sep) == parts[0] + sep + (mid + sep + last);
    }
  }

  /** `" ".join(ws).split() == ws` for words that are non-empty and free of whitespace. */
  lemma {:induction false} WordsOfJoin(ws: seq<string>)
    requires forall k :: 0 <= k < |ws| ==> ws[k] != [] && forall j :: 0 <= j < |ws[k]| ==> !IsSpace(ws[k][j])
    ensures Words(Join(ws, " ")) == ws
    decreases |ws|
  {
    if ws == [] {
    } else if |ws| == 1 {
      SingleWord(ws[0]);
    } else {
      var rest := Join(ws[1..], " ");
      SingleWord(ws[0]);
      WordsOfJoin(ws[1..]);
      WordsAcrossSpace(ws[0], ' ', rest);
      assert Join(ws, " ") == ws[0] + [' '] + rest;
      assert ws == [ws[0]] + ws[1..];
    }
  }
}
