// The four text classifiers of the support bot and the fixed tables they
// consult: order intent, order-id extraction, negative/offensive screening
// and FAQ lookup.

module Classifiers {
  import opened Wrappers
  import opened Text

  // ---------------------------------------------------------------------
  // Tables
  // ---------------------------------------------------------------------

  /** FAQS as (key, answer) pairs in declaration order, which is the order the lookup tries them. */
  const Faqs: seq<(string, string)> := [
    ("return policy", "You can return unopened items within 30 days for a full refund."),
    ("shipping time", "Standard shipping takes 3–5 business days. Expedited options are available."),
    ("warranty", "All electronics include a 1-year limited warranty covering manufacturing defects.")
  ]

  /**
   * A screening pattern `\b(p1|p2|...)\b` as its list of literal alternatives.
   * An optional `\*?` inside an alternative is written out as both spellings.
   */
  type Pattern = seq<string>

  const OffensivePatterns: seq<Pattern> := [
    ["dumb", "stupid", "idiot", "shut up", "hate", "useless"],
    ["fck", "f*ck", "sit", "s*it", "btch", "b*tch", "ashole", "a*shole"]
  ]

  const NegativeSentimentPatterns: seq<Pattern> := [
    ["angry", "furious", "terrible", "awful", "worst", "hate", "refund now"],
    ["complain", "complaint", "speak to manager", "not happy", "disappointed"]
  ]

  /** The patterns in the order the screening tries them. */
  const ScreeningPatterns: seq<Pattern> := OffensivePatterns + NegativeSentimentPatterns

  // ---------------------------------------------------------------------
  // Order intent
  // ---------------------------------------------------------------------

  /**
   * `is_order_intent`: a plain substring test, so "border" or "statusbar"
   * also count; no text shorter than the five-letter keywords qualifies.
   */
  predicate IsOrderIntent(text: string): (intent: bool)
    ensures intent ==> 5 <= |text|
  {
    var t := Lower(text);
    Contains(t, "order") || Contains(t, "track") || Contains(t, "status")
  }

  /** Order intent ignores letter case and survives any surrounding text. */
  lemma OrderIntentPadded(a: string, text: string, b: string)
    requires IsOrderIntent(text)
    ensures IsOrderIntent(a + text + b)
    ensures IsOrderIntent(Upper(text))
  {
    LowerAppend(a + text, b);
    LowerAppend(a, text);
    LowerOfUpper(text);
    var t := Lower(text);
    if Contains(t, "order") {
      ContainsPadded(Lower(a), t, Lower(b), "order");
    } else if Contains(t, "track") {
      ContainsPadded(Lower(a), t, Lower(b), "track");
    } else {
      ContainsPadded(Lower(a), t, Lower(b), "status");
    }
  }

  /** The empty text has no order intent, which is what the tool gate's default relies on. */
  lemma NoOrderIntentInEmpty()
    ensures !IsOrderIntent("")
  {
  }

  // ---------------------------------------------------------------------
  // Order-id extraction: `\bORD[- ]?(\d{3,6})\b` on the upper-cased text
  // ---------------------------------------------------------------------

  /** Length of the maximal run of ASCII digits starting at index k of u. */
  function DigitRun(u: string, k: nat): (n: nat)
    requires k <= |u|
    ensures k + n <= |u|
    ensures forall j :: k <= j < k + n ==> IsDigit(u[j])
    ensures k + n == |u| || !IsDigit(u[k + n])
    decreases |u| - k
  {
    if k < |u| && IsDigit(u[k]) then 1 + DigitRun(u, k + 1) else 0
  }

  predicate IsIdSeparator(c: char) {
    c == '-' || c == ' '
  }

  /**
   * Index where the digits of a token starting at i begin.  `[- ]?` takes a
   * separator when one is there; giving it back never helps, since the
   * separator is not a digit.
   */
  function DigitsStart(u: string, i: nat): (k: nat)
    requires i + 3 <= |u|
    ensures i + 3 <= k <= |u|
  {
    if i + 3 < |u| && IsIdSeparator(u[i + 3]) then i + 4 else i + 3
  }

  /**
   * The regular expression matches u at index i.  `\d{3,6}\b` succeeds
   * exactly when the whole digit run has 3 to 6 digits and is followed by the
   * end or a non-word character: a shorter prefix of the run is followed by a
   * digit, so its `\b` fails.
   */
  predicate OrderTokenAt(u: string, i: nat) {
    i + 3 <= |u| && u[i..i + 3] == "ORD" && WordBoundary(u, i)
    && var k := DigitsStart(u, i);
       var n := DigitRun(u, k);
       3 <= n <= 6 && WordBoundary(u, k + n)
  }

  /** The captured group of a token at i. */
  function TokenDigits(u: string, i: nat): string
    requires OrderTokenAt(u, i)
  {
    var k := DigitsStart(u, i);
    u[k..k + DigitRun(u, k)]
  }

  /** `re.search` from index i: the leftmost index at or after i where the expression matches. */
  function FirstOrderToken(u: string, i: nat): (r: Option<nat>)
    requires i <= |u|
    ensures r.Some? ==> i <= r.value <= |u| && OrderTokenAt(u, r.value)
    ensures r.Some? ==> forall j: nat :: i <= j < r.value ==> !OrderTokenAt(u, j)
    ensures r.None? ==> forall j: nat :: i <= j <= |u| ==> !OrderTokenAt(u, j)
    decreases |u| - i
  {
    if OrderTokenAt(u, i) then Some(i)
    else if i == |u| then None
    else FirstOrderToken(u, i + 1)
  }

  /** An id in the form the extractor produces: "ORD-" and 3 to 6 digits. */
  predicate IsCanonicalOrderId(s: string) {
    7 <= |s| <= 10 && s[..4] == "ORD-" && forall k :: 4 <= k < |s| ==> IsDigit(s[k])
  }

  /** `extract_order_id` */
  function ExtractOrderId(text: string): (r: Option<string>)
    ensures r.Some? ==> IsCanonicalOrderId(r.value)
    ensures r.None? <==> forall i: nat :: i <= |text| ==> !OrderTokenAt(Upper(text), i)
    ensures r.Some? ==> exists i: nat ::
      OrderTokenAt(Upper(text), i)
      && (forall j: nat :: j < i ==> !OrderTokenAt(Upper(text), j))
      && r.value == "ORD-" + TokenDigits(Upper(text), i)
  {
    ExtractFromUpper(Upper(text))
  }

  /** The search and the rewrite to "ORD-" + digits, on already upper-cased text. */
  function ExtractFromUpper(u: string): Option<string> {
    match FirstOrderToken(u, 0)
    case None => None
    case Some(i) => Some("ORD-" + TokenDigits(u, i))
  }

  /** A digit run is measured by its actual extent. */
  lemma {:induction false} DigitRunOf(u: string, k: nat, n: nat)
    requires k + n <= |u|
    requires forall j :: k <= j < k + n ==> IsDigit(u[j])
    requires k + n == |u| || !IsDigit(u[k + n])
    ensures DigitRun(u, k) == n
    decreases n
  {
    if n > 0 {
      DigitRunOf(u, k + 1, n - 1);
    }
  }

  /** u continues v with something other than a digit. */
  predicate ExtendsWithNonDigit(u: string, v: string) {
    |v| <= |u| && u[..|v|] == v && (|u| == |v| || !IsDigit(u[|v|]))
  }

  /** A digit run inside v is unaffected by what u appends after v. */
  lemma {:induction false} DigitRunInPrefix(u: string, v: string, k: nat)
    requires ExtendsWithNonDigit(u, v) && k <= |v|
    ensures DigitRun(u, k) == DigitRun(v, k)
    decreases |v| - k
  {
    if k < |v| {
      assert u[k] == u[..|v|][k] == v[k];
      if IsDigit(v[k]) {
        DigitRunInPrefix(u, v, k + 1);
      }
    }
  }

  /**
   * Whether a token starts at j < |v| is decided by v alone, when v ends with
   * a non-word character and u continues v with something other than a digit.
   */
  lemma TokenInPrefix(u: string, v: string, j: nat)
    requires ExtendsWithNonDigit(u, v)
    requires j < |v| && !IsWordChar(v[|v| - 1])
    ensures OrderTokenAt(u, j) <==> OrderTokenAt(v, j)
  {
    assert u[|v| - 1] == u[..|v|][|v| - 1] == v[|v| - 1];
    if j + 3 <= |v| {
      assert v[j..j + 3] == u[..|v|][j..j + 3] == u[j..j + 3];
      if u[j..j + 3] == "ORD" {
        assert v[j + 2] == 'D';
        assert j + 3 < |v|;
        assert u[j + 3] == u[..|v|][j + 3] == v[j + 3];
        assert DigitsStart(u, j) == DigitsStart(v, j);
        var k := DigitsStart(v, j);
        DigitRunInPrefix(u, v, k);
        var n := DigitRun(v, k);
        if 3 <= n {
          assert k + n < |v|;
          assert u[k + n] == u[..|v|][k + n] == v[k + n];
          assert u[k + n - 1] == u[..|v|][k + n - 1] == v[k + n - 1];
          assert WordBoundary(u, k + n) == WordBoundary(v, k + n);
        }
      }
    } else {
      assert j + 3 <= |u| ==> u[j..j + 3][|v| - 1 - j] == u[|v| - 1];
    }
  }

  /** A token written "ORD", separator, digits, standing as a whole word after v, is matched at |v|. */
  lemma TokenAfter(v: string, sep: string, digits: string, x: string)
    requires sep == "" || sep == "-" || sep == " "
    requires 3 <= |digits| <= 6 && forall k :: 0 <= k < |digits| ==> IsDigit(digits[k])
    requires v == [] || !IsWordChar(v[|v| - 1])
    requires x == [] || !IsWordChar(x[0])
    ensures OrderTokenAt(v + "ORD" + sep + digits + x, |v|)
    ensures TokenDigits(v + "ORD" + sep + digits + x, |v|) == digits
  {
    var q := v + "ORD" + sep;
    var u := q + digits + x;
    OrdHead(v, sep, digits, x);
    DigitsInMiddle(q, digits, x);
    assert DigitsStart(u, |v|) == |q|;
    assert DigitRun(u, |q|) == |digits|;
    assert OrderTokenAt(u, |v|);
  }

  /** The "ORD" placed after v stands at a boundary, and its digits begin after the separator. */
  lemma OrdHead(v: string, sep: string, digits: string, x: string)
    requires sep == "" || sep == "-" || sep == " "
    requires digits != [] && IsDigit(digits[0])
    requires v == [] || !IsWordChar(v[|v| - 1])
    ensures var u := v + "ORD" + sep + digits + x;
      |v| + 3 <= |u| && u[|v|..|v| + 3] == "ORD" && WordBoundary(u, |v|)
      && DigitsStart(u, |v|) == |v| + 3 + |sep|
  {
    var q := v + "ORD" + sep;
    var u := q + digits + x;
    var p := |v|;
    assert u[..|q|] == q;
    assert u[p..p + 3] == q[p..p + 3] == "ORD";
    if p > 0 {
      assert u[p - 1] == q[p - 1] == v[p - 1];
    }
    if sep == "" {
      assert u[p + 3] == digits[0];
    } else {
      assert u[p + 3] == q[p + 3] == sep[0];
    }
  }

  /** The digits placed between q and x form the whole run at |q|. */
  lemma DigitsInMiddle(q: string, digits: string, x: string)
    requires forall k :: 0 <= k < |digits| ==> IsDigit(digits[k])
    requires x == [] || !IsWordChar(x[0])
    ensures DigitRun(q + digits + x, |q|) == |digits|
    ensures (q + digits + x)[|q|..|q| + |digits|] == digits
    ensures digits != [] ==> WordBoundary(q + digits + x, |q| + |digits|)
  {
    var u := q + digits + x;
    var k := |q|;
    forall j | k <= j < k + |digits| ensures IsDigit(u[j]) {
      assert u[j] == digits[j - k];
    }
    if x != [] {
      assert u[k + |digits|] == x[0];
    }
    DigitRunOf(u, k, |digits|);
  }

  /**
   * Round trip: when the first token in the text is "ORD", an optional "-" or
   * " ", and 3 to 6 digits, standing as a whole word and written in any
   * letter case, the extractor returns "ORD-" and exactly those digits.
   */
  lemma ExtractEmbeddedOrderId(pre: string, ord: string, sep: string, digits: string, post: string)
    requires Upper(ord) == "ORD"
    requires sep == "" || sep == "-" || sep == " "
    requires 3 <= |digits| <= 6 && forall k :: 0 <= k < |digits| ==> IsDigit(digits[k])
    requires pre == [] || !IsWordChar(pre[|pre| - 1])
    requires post == [] || !IsWordChar(post[0])
    requires ExtractOrderId(pre) == None
    ensures ExtractOrderId(pre + ord + sep + digits + post) == Some("ORD-" + digits)
  {
    var v := Upper(pre);
    var x := Upper(post);
    UpperOfEmbedded(pre, ord, sep, digits, post);
    if pre != [] {
      CaseMapPreservesClasses(pre[|pre| - 1]);
    }
    if post != [] {
      CaseMapPreservesClasses(post[0]);
    }
    EmbeddedTokenFirst(v, sep, digits, x);
  }

  /** The same round trip on upper-cased text. */
  lemma EmbeddedTokenFirst(v: string, sep: string, digits: string, x: string)
    requires sep == "" || sep == "-" || sep == " "
    requires 3 <= |digits| <= 6 && forall k :: 0 <= k < |digits| ==> IsDigit(digits[k])
    requires v == [] || !IsWordChar(v[|v| - 1])
    requires x == [] || !IsWordChar(x[0])
    requires forall i: nat :: i <= |v| ==> !OrderTokenAt(v, i)
    ensures ExtractFromUpper(v + "ORD" + sep + digits + x) == Some("ORD-" + digits)
  {
    var u := v + "ORD" + sep + digits + x;
    TokenAfter(v, sep, digits, x);
    PrefixExtends(v, sep, digits, x);
    NoTokenInPrefix(u, v);
    FirstTokenIs(u, |v|);
  }

  lemma PrefixExtends(v: string, sep: string, digits: string, x: string)
    ensures ExtendsWithNonDigit(v + "ORD" + sep + digits + x, v)
  {
    var u := v + "ORD" + sep + digits + x;
    assert u[..|v|] == v;
    assert u[|v|] == (v + "ORD")[|v|] == 'O';
  }

  /** No token starts inside v when v has none of its own and ends with a non-word character. */
  lemma NoTokenInPrefix(u: string, v: string)
    requires ExtendsWithNonDigit(u, v)
    requires v == [] || !IsWordChar(v[|v| - 1])
    requires forall i: nat :: i <= |v| ==> !OrderTokenAt(v, i)
    ensures forall j: nat :: j < |v| ==> !OrderTokenAt(u, j)
  {
    forall j: nat | j < |v| ensures !OrderTokenAt(u, j) {
      TokenInPrefix(u, v, j);
    }
  }

  /** The leftmost token is the one the search reports. */
  lemma FirstTokenIs(u: string, p: nat)
    requires OrderTokenAt(u, p)
    requires forall j: nat :: j < p ==> !OrderTokenAt(u, j)
    ensures ExtractFromUpper(u) == Some("ORD-" + TokenDigits(u, p))
  {
    var r := FirstOrderToken(u, 0);
    assert r == Some(p);
  }

  /** Upper-casing leaves the canonical spelling of a token unchanged. */
  lemma UpperOfEmbedded(pre: string, ord: string, sep: string, digits: string, post: string)
    requires Upper(ord) == "ORD"
    requires sep == "" || sep == "-" || sep == " "
    requires forall k :: 0 <= k < |digits| ==> IsDigit(digits[k])
    ensures Upper(pre + ord + sep + digits + post) == Upper(pre) + "ORD" + sep + digits + Upper(post)
  {
    UpperAppend(pre + ord + sep + digits, post);
    UpperAppend(pre + ord + sep, digits);
    UpperAppend(pre + ord, sep);
    UpperAppend(pre, ord);
    assert Upper(sep) == sep;
    assert Upper(digits) == digits;
  }

  /** A run of at least n digits from k is measured as at least n long. */
  lemma {:induction false} DigitRunAtLeast(u: string, k: nat, n: nat)
    requires k + n <= |u|
    requires forall j :: k <= j < k + n ==> IsDigit(u[j])
    ensures DigitRun(u, k) >= n
    decreases n
  {
    if n > 0 {
      DigitRunAtLeast(u, k + 1, n - 1);
    }
  }

  /**
   * Seven or more digits after "ORD" never match there: `\d{3,6}` cannot end
   * the run, so the closing `\b` fails however much the digits back off.
   */
  lemma LongDigitRunRejected(v: string, sep: string, digits: string, x: string)
    requires sep == "" || sep == "-" || sep == " "
    requires 7 <= |digits| && forall k :: 0 <= k < |digits| ==> IsDigit(digits[k])
    ensures !OrderTokenAt(v + "ORD" + sep + digits + x, |v|)
  {
    var q := v + "ORD" + sep;
    var u := q + digits + x;
    assert u == v + "ORD" + sep + digits + x;
    assert u[|q|] == digits[0];
    if sep == "" {
      assert !IsIdSeparator(u[|v| + 3]);
    } else {
      assert u[|v| + 3] == sep[0];
    }
    assert DigitsStart(u, |v|) == |q|;
    forall j | |q| <= j < |q| + |digits| ensures IsDigit(u[j]) {
      assert u[j] == digits[j - |q|];
    }
    DigitRunAtLeast(u, |q|, |digits|);
  }

  /** A text without digits has no id. */
  lemma NoDigitsNoOrderId(text: string)
    requires forall k :: 0 <= k < |text| ==> !IsDigit(text[k])
    ensures ExtractOrderId(text) == None
  {
    var u := Upper(text);
    forall k | 0 <= k < |u| ensures !IsDigit(u[k]) {
      CaseMapPreservesClasses(text[k]);
    }
    forall i: nat | i <= |u| ensures !OrderTokenAt(u, i) {
      if i + 3 <= |u| {
        var k := DigitsStart(u, i);
        assert DigitRun(u, k) == 0;
      }
    }
  }

  /** A canonical id re-extracts to itself: extraction is idempotent. */
  lemma ExtractCanonicalId(id: string)
    requires IsCanonicalOrderId(id)
    ensures ExtractOrderId(id) == Some(id)
  {
    var digits := id[4..];
    assert id == id[..4] + digits;
    assert "" + "ORD" + "-" + digits + "" == id;
    var ord := "ORD";
    assert Upper(ord) == ord by {
      assert Upper(ord)[0] == 'O' && Upper(ord)[1] == 'R' && Upper(ord)[2] == 'D';
    }
    assert ExtractOrderId("") == None by {
      assert FirstOrderToken(Upper(""), 0) == None;
    }
    ExtractEmbeddedOrderId("", ord, "-", digits, "");
  }

  // ---------------------------------------------------------------------
  // Negative / offensive screening
  // ---------------------------------------------------------------------

  /** `re.search(pattern, t)`: some alternative occurs in t as a whole word or phrase. */
  predicate PatternMatches(pattern: Pattern, t: string) {
    exists k :: 0 <= k < |pattern| && OccursAsWord(t, pattern[k])
  }

  /** `is_negative_or_offensive`, stated as: some screening pattern matches the lower-cased text. */
  predicate NegativeOrOffensive(text: string): (flagged: bool)
    ensures flagged ==>
      exists j, k :: 0 <= j < |ScreeningPatterns| && 0 <= k < |ScreeningPatterns[j]|
                     && Contains(Lower(text), ScreeningPatterns[j][k])
  {
    var t := Lower(text);
    if exists j :: 0 <= j < |ScreeningPatterns| && PatternMatches(ScreeningPatterns[j], t) then
      MatchedPhraseOccurs(t);
      true
    else
      false
  }

  /** A pattern that matches as a whole word in particular occurs as a substring. */
  lemma MatchedPhraseOccurs(t: string)
    requires exists j :: 0 <= j < |ScreeningPatterns| && PatternMatches(ScreeningPatterns[j], t)
    ensures exists j, k :: 0 <= j < |ScreeningPatterns| && 0 <= k < |ScreeningPatterns[j]|
                           && Contains(t, ScreeningPatterns[j][k])
  {
    var j :| 0 <= j < |ScreeningPatterns| && PatternMatches(ScreeningPatterns[j], t);
    var k :| 0 <= k < |ScreeningPatterns[j]| && OccursAsWord(t, ScreeningPatterns[j][k]);
    var i :| 0 <= i <= |t| - |ScreeningPatterns[j][k]| && PhraseAt(t, ScreeningPatterns[j][k], i);
    assert SubstringAt(t, ScreeningPatterns[j][k], i);
  }

  /** The loop of `is_negative_or_offensive`: try the patterns in order and stop at the first match. */
  method IsNegativeOrOffensive(text: string) returns (negative: bool)
    ensures negative == NegativeOrOffensive(text)
  {
    var t := Lower(text);
    var patterns := OffensivePatterns + NegativeSentimentPatterns;
    for i := 0 to |patterns|
      invariant forall j :: 0 <= j < i ==> !PatternMatches(patterns[j], t)
    {
      if PatternMatches(patterns[i], t) {
        return true;
      }
    }
    return false;
  }

  /** Every alternative is non-empty, lower case, and begins and ends with a word character. */
  lemma ScreeningPhrasesWellFormed(j: nat, k: nat)
    requires j < |ScreeningPatterns| && k < |ScreeningPatterns[j]|
    ensures var w := ScreeningPatterns[j][k];
      w != [] && IsWordChar(w[0]) && IsWordChar(w[|w| - 1]) && Lower(w) == w
  {
    var w := ScreeningPatterns[j][k];
    assert forall c :: c in w ==> !IsUpperLetter(c);
  }

  /**
   * Screening is context-free: once a screened word or phrase stands in the
   * text as a whole word, in any letter case, the text is flagged whatever
   * surrounds it.
   */
  lemma ScreenedPhraseFlags(a: string, j: nat, k: nat, b: string)
    requires j < |ScreeningPatterns| && k < |ScreeningPatterns[j]|
    requires a == [] || !IsWordChar(a[|a| - 1])
    requires b == [] || !IsWordChar(b[0])
    ensures NegativeOrOffensive(a + ScreeningPatterns[j][k] + b)
    ensures NegativeOrOffensive(a + Upper(ScreeningPatterns[j][k]) + b)
  {
    var w := ScreeningPatterns[j][k];
    ScreeningPhrasesWellFormed(j, k);
    LowerOfUpper(w);
    PhraseFlags(a, w, b, j, k);
    PhraseFlags(a, Upper(w), b, j, k);
  }

  lemma PhraseFlags(a: string, x: string, b: string, j: nat, k: nat)
    requires j < |ScreeningPatterns| && k < |ScreeningPatterns[j]|
    requires Lower(x) == ScreeningPatterns[j][k]
    requires a == [] || !IsWordChar(a[|a| - 1])
    requires b == [] || !IsWordChar(b[0])
    ensures NegativeOrOffensive(a + x + b)
  {
    var w := ScreeningPatterns[j][k];
    ScreeningPhrasesWellFormed(j, k);
    LowerAppend(a + x, b);
    LowerAppend(a, x);
    var t := Lower(a + x + b);
    assert t == Lower(a) + w + Lower(b);
    var i := |a|;
    assert t[i..i + |w|] == w;
    if a != [] {
      CaseMapPreservesClasses(a[|a| - 1]);
      assert t[i - 1] == ToLower(a[|a| - 1]);
    }
    assert t[i] == w[0];
    assert WordBoundary(t, i);
    if b != [] {
      CaseMapPreservesClasses(b[0]);
      assert t[i + |w|] == ToLower(b[0]);
    }
    assert t[i + |w| - 1] == w[|w| - 1];
    assert WordBoundary(t, i + |w|);
    assert PhraseAt(t, w, i);
    assert OccursAsWord(t, ScreeningPatterns[j][k]);
    assert PatternMatches(ScreeningPatterns[j], t);
  }

  /** Screening ignores letter case. */
  lemma ScreeningIgnoresCase(text: string)
    ensures NegativeOrOffensive(Upper(text)) == NegativeOrOffensive(text)
  {
    LowerOfUpper(text);
  }

  // ---------------------------------------------------------------------
  // FAQ lookup
  // ---------------------------------------------------------------------

  /** Entry k is the first FAQ whose key occurs in t. */
  predicate FirstFaqHit(t: string, k: int) {
    0 <= k < |Faqs| && Contains(t, Faqs[k].0)
    && forall j :: 0 <= j < k ==> !Contains(t, Faqs[j].0)
  }

  /** The answer of the first FAQ at or after index i whose key occurs in t. */
  function FaqFrom(t: string, i: nat): (r: Option<string>)
    requires i <= |Faqs|
    ensures r.None? <==> forall j :: i <= j < |Faqs| ==> !Contains(t, Faqs[j].0)
    ensures r.Some? ==> exists k :: i <= k < |Faqs| && Contains(t, Faqs[k].0)
                             && (forall j :: i <= j < k ==> !Contains(t, Faqs[j].0))
                             && r.value == Faqs[k].1
    decreases |Faqs| - i
  {
    if i == |Faqs| then None
    else if Contains(t, Faqs[i].0) then Some(Faqs[i].1)
    else FaqFrom(t, i + 1)
  }

  /** `match_faq`, as a function of the text. */
  function FaqAnswer(text: string): (r: Option<string>)
    ensures r.None? <==> forall j :: 0 <= j < |Faqs| ==> !Contains(Lower(text), Faqs[j].0)
    ensures r.Some? ==> exists k :: FirstFaqHit(Lower(text), k) && r.value == Faqs[k].1
  {
    FaqFrom(Lower(text), 0)
  }

  /** The loop of `match_faq`: try the keys in declaration order and return the first hit's answer. */
  method MatchFaq(text: string) returns (answer: Option<string>)
    ensures answer == FaqAnswer(text)
  {
    var t := Lower(text);
    for i := 0 to |Faqs|
      invariant forall j :: 0 <= j < i ==> !Contains(t, Faqs[j].0)
    {
      var (key, value) := Faqs[i];
      if Contains(t, key) {
        FirstHitDecides(t, i);
        return Some(value);
      }
    }
    return None;
  }

  /** The first hit alone decides the answer. */
  lemma FirstHitDecides(t: string, k: int)
    requires FirstFaqHit(t, k)
    ensures FaqFrom(t, 0) == Some(Faqs[k].1)
  {
    var r := FaqFrom(t, 0);
    var m :| 0 <= m < |Faqs| && Contains(t, Faqs[m].0)
      && (forall j :: 0 <= j < m ==> !Contains(t, Faqs[j].0)) && r.value == Faqs[m].1;
    assert m == k;
  }

  /** The FAQ answers are pairwise distinct, so an answer names exactly one key. */
  lemma FaqAnswersDistinct(i: nat, j: nat)
    requires i < |Faqs| && j < |Faqs| && i != j
    ensures Faqs[i].1 != Faqs[j].1
  {
    assert |Faqs[0].1| != |Faqs[1].1| && |Faqs[0].1| != |Faqs[2].1| && |Faqs[1].1| != |Faqs[2].1|;
  }

  /** Declaration order breaks ties: a text naming the return policy gets that answer whatever else it asks. */
  lemma ReturnPolicyFirst(text: string)
    requires Contains(Lower(text), "return policy")
    ensures FaqAnswer(text) == Some(Faqs[0].1)
  {
    FirstHitDecides(Lower(text), 0);
  }
}
