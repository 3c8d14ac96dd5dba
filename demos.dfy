// The scenarios the program runs as its demonstration, each routed
// through the model.  Every message is written as its word runs, which
// certify what the classifiers find in it and what they do not.

module Demos {
  import opened Wrappers
  import opened Text
  import opened Classifiers
  import opened WordRuns
  import opened Guardrail
  import opened OrderTool
  import opened Routing

  /** The words whose presence shows order intent. */
  const IntentWords: seq<string> := ["order", "track", "status"]

  /** The first words of the FAQ keys, one of which must occur for a key to match. */
  const FaqWords: seq<string> := ["return", "shipping", "warranty"]

  /** A text whose words contain none of the intent words shows no order intent. */
  lemma NoOrderIntent(rs: seq<Run>, keys: seq<string>)
    requires WellFormed(rs) && KeysAbsent(rs, keys)
    requires 3 <= |keys| && keys[..3] == IntentWords
    ensures !IsOrderIntent(Render(rs))
  {
    assert keys[0] == "order" && keys[1] == "track" && keys[2] == "status";
    KeyAbsent(rs, keys, 0);
    KeyAbsent(rs, keys, 1);
    KeyAbsent(rs, keys, 2);
  }

  /** Without the words "return" and "shipping" neither of the first two FAQ keys matches. */
  lemma NoReturnNoShipping(rs: seq<Run>, keys: seq<string>, i: nat)
    requires WellFormed(rs) && KeysAbsent(rs, keys)
    requires i + 2 <= |keys| && keys[i] == "return" && keys[i + 1] == "shipping"
    ensures !Contains(Lower(Render(rs)), Faqs[0].0) && !Contains(Lower(Render(rs)), Faqs[1].0)
  {
    var t := Lower(Render(rs));
    KeyAbsent(rs, keys, i);
    KeyAbsent(rs, keys, i + 1);
    assert Faqs[0].0[0..6] == "return";
    assert Faqs[1].0[0..8] == "shipping";
    if Contains(t, Faqs[0].0) {
      ContainsPart(t, Faqs[0].0, 0, 6);
    }
    if Contains(t, Faqs[1].0) {
      ContainsPart(t, Faqs[1].0, 0, 8);
    }
  }

  /** A text whose words contain none of the FAQ words gets no FAQ answer. */
  lemma NoFaqAnswer(rs: seq<Run>)
    requires WellFormed(rs) && KeysAbsent(rs, FaqWords)
    ensures FaqAnswer(Render(rs)) == None
  {
    NoReturnNoShipping(rs, FaqWords, 0);
    KeyAbsent(rs, FaqWords, 2);
  }

  /** A word of the runs that is w in lower case puts w in the lower-case text. */
  lemma HasWord(rs: seq<Run>, m: nat, w: string)
    requires m < |rs| && Lower(rs[m].word) == w
    ensures Contains(Lower(Render(rs)), w)
  {
    assert SubstringAt(w, w, 0);
    ContainsWordOf(rs, m, w);
  }

  /** No character of s is a digit. */
  predicate DigitFree(s: string) {
    forall k :: 0 <= k < |s| ==> !IsDigit(s[k])
  }

  /** An id standing after a digit-free lead is the one extracted. */
  lemma IdAfterDigitFreeLead(msg: string, pre: string, digits: string, post: string)
    requires msg == pre + "ORD" + "-" + digits + post
    requires DigitFree(pre) && (pre == [] || !IsWordChar(pre[|pre| - 1]))
    requires 3 <= |digits| <= 6 && forall k :: 0 <= k < |digits| ==> IsDigit(digits[k])
    requires post == [] || !IsWordChar(post[0])
    ensures ExtractOrderId(msg) == Some("ORD-" + digits)
  {
    NoDigitsNoOrderId(pre);
    assert Upper("ORD") == "ORD";
    ExtractEmbeddedOrderId(pre, "ORD", "-", digits, post);
  }

  // ---------------------------------------------------------------------
  // Demo 1: a friendly FAQ question, default settings
  // ---------------------------------------------------------------------


  const ReturnPolicyMessage: string := "Hi! What’s your " + "return policy?"

  /** Demo 1 as its word runs. */
  const ReturnPolicyQuestionSpan1: seq<Run> := [Run("Hi", "! "), Run("What", "’")]
  const ReturnPolicyQuestionSpan2: seq<Run> := [Run("s", " "), Run("your", " ")]
  const ReturnPolicyQuestionSpan3: seq<Run> := [Run("return", " "), Run("policy", "?")]
  const ReturnPolicyQuestionRuns: seq<Run> :=
    ReturnPolicyQuestionSpan1 + ReturnPolicyQuestionSpan2 + ReturnPolicyQuestionSpan3

  /** The runs spell out the text, and they are well formed. */
  lemma ReturnPolicyQuestionSpelled()
    ensures Render(ReturnPolicyQuestionRuns) == ReturnPolicyMessage && WellFormed(ReturnPolicyQuestionRuns)
  {
    ReturnPolicyQuestionSpan1Spelled();
    ReturnPolicyQuestionSpan2Spelled();
    ReturnPolicyQuestionSpan3Spelled();
    ReturnPolicyQuestionSpan1WellFormed();
    ReturnPolicyQuestionSpan2WellFormed();
    ReturnPolicyQuestionSpan3WellFormed();
    RenderAppend(ReturnPolicyQuestionSpan1, ReturnPolicyQuestionSpan2);
    WellFormedAppend(ReturnPolicyQuestionSpan1, ReturnPolicyQuestionSpan2);
    RenderAppend(ReturnPolicyQuestionSpan1 + ReturnPolicyQuestionSpan2, ReturnPolicyQuestionSpan3);
    WellFormedAppend(ReturnPolicyQuestionSpan1 + ReturnPolicyQuestionSpan2, ReturnPolicyQuestionSpan3);
  }

  /** No run starts a screened phrase, and no word contains one of the keys. */
  lemma ReturnPolicyQuestionScreened()
    ensures PhrasesExcluded(ReturnPolicyQuestionRuns) && KeysAbsent(ReturnPolicyQuestionRuns, IntentWords)
  {
    ReturnPolicyQuestionSpan1Screened();
    ReturnPolicyQuestionSpan2Screened();
    ReturnPolicyQuestionSpan3Screened();
    ReturnPolicyQuestionSpan1LacksKeys();
    ReturnPolicyQuestionSpan2LacksKeys();
    ReturnPolicyQuestionSpan3LacksKeys();
    PhrasesExcludedAppend(ReturnPolicyQuestionSpan1, ReturnPolicyQuestionSpan2);
    KeysAbsentAppend(ReturnPolicyQuestionSpan1, ReturnPolicyQuestionSpan2, IntentWords);
    PhrasesExcludedAppend(ReturnPolicyQuestionSpan1 + ReturnPolicyQuestionSpan2, ReturnPolicyQuestionSpan3);
    KeysAbsentAppend(ReturnPolicyQuestionSpan1 + ReturnPolicyQuestionSpan2, ReturnPolicyQuestionSpan3, IntentWords);
  }

  lemma ReturnPolicyQuestionSpan1Spelled()
    ensures Render(ReturnPolicyQuestionSpan1) == "Hi! What’"
  {
  }

  lemma ReturnPolicyQuestionSpan1WellFormed()
    ensures WellFormed(ReturnPolicyQuestionSpan1)
  {
  }

  lemma ReturnPolicyQuestionSpan1Screened()
    ensures forall j, k :: 0 <= j < |ScreeningPatterns| && 0 <= k < |ScreeningPatterns[j]| ==>
      ExcludedFrom(ScreeningPatterns[j][k], ReturnPolicyQuestionSpan1)
  {
  }

  lemma ReturnPolicyQuestionSpan1LacksKeys()
    ensures forall m, q :: 0 <= m < |ReturnPolicyQuestionSpan1| && 0 <= q < |IntentWords| ==> !Contains(Lower(ReturnPolicyQuestionSpan1[m].word), IntentWords[q])
  {
  }

  lemma ReturnPolicyQuestionSpan2Spelled()
    ensures Render(ReturnPolicyQuestionSpan2) == "s your "
  {
  }

  lemma ReturnPolicyQuestionSpan2WellFormed()
    ensures WellFormed(ReturnPolicyQuestionSpan2)
  {
  }

  lemma ReturnPolicyQuestionSpan2Screened()
    ensures forall j, k :: 0 <= j < |ScreeningPatterns| && 0 <= k < |ScreeningPatterns[j]| ==>
      ExcludedFrom(ScreeningPatterns[j][k], ReturnPolicyQuestionSpan2)
  {
  }

  lemma ReturnPolicyQuestionSpan2LacksKeys()
    ensures forall m, q :: 0 <= m < |ReturnPolicyQuestionSpan2| && 0 <= q < |IntentWords| ==> !Contains(Lower(ReturnPolicyQuestionSpan2[m].word), IntentWords[q])
  {
  }

  lemma ReturnPolicyQuestionSpan3Spelled()
    ensures Render(ReturnPolicyQuestionSpan3) == "return policy?"
  {
  }

  lemma ReturnPolicyQuestionSpan3WellFormed()
    ensures WellFormed(ReturnPolicyQuestionSpan3)
  {
  }

  lemma ReturnPolicyQuestionSpan3Screened()
    ensures forall j, k :: 0 <= j < |ScreeningPatterns| && 0 <= k < |ScreeningPatterns[j]| ==>
      ExcludedFrom(ScreeningPatterns[j][k], ReturnPolicyQuestionSpan3)
  {
  }

  lemma ReturnPolicyQuestionSpan3LacksKeys()
    ensures forall m, q :: 0 <= m < |ReturnPolicyQuestionSpan3| && 0 <= q < |IntentWords| ==> !Contains(Lower(ReturnPolicyQuestionSpan3[m].word), IntentWords[q])
  {
    NotContainedWhenAbsent(Lower("return"), "order");
    NotContainedWhenAbsent(Lower("return"), "track");
    NotContainedWhenAbsent(Lower("return"), "status");
    NotContainedWhenAbsent(Lower("policy"), "order");
    NotContainedWhenAbsent(Lower("policy"), "track");
    NotContainedWhenAbsent(Lower("policy"), "status");
  }

  lemma ReturnPolicyQuestionIsCivil()
    ensures !NegativeOrOffensive(ReturnPolicyMessage)
  {
    ReturnPolicyQuestionSpelled();
    ReturnPolicyQuestionScreened();
    CertifiedCivil(ReturnPolicyQuestionRuns);
  }


  lemma ReturnPolicyQuestionNoIntent()
    ensures !IsOrderIntent(ReturnPolicyMessage)
  {
    ReturnPolicyQuestionSpelled();
    ReturnPolicyQuestionScreened();
    NoOrderIntent(ReturnPolicyQuestionRuns, IntentWords);
  }

  lemma ReturnPolicyQuestionTail()
    ensures Lower("return policy?") == "return policy" + "?"
  {
  }

  lemma ReturnPolicyQuestionNamesReturnPolicy()
    ensures Contains(Lower(ReturnPolicyMessage), "return policy")
  {
    var a := "Hi! What’s your ";
    assert ReturnPolicyMessage == a + "return policy?";
    LowerAppend(a, "return policy?");
    ReturnPolicyQuestionTail();
    assert SubstringAt("return policy", "return policy", 0);
    ContainsPadded(Lower(a), "return policy", "?", "return policy");
    assert Lower(a) + "return policy" + "?" == Lower(a) + ("return policy" + "?");
  }

  /** Demo 1: "Hi! What’s your return policy?" gets the return-policy answer. */
  lemma ReturnPolicyQuestionAnswered()
    ensures Route(ReturnPolicyMessage, "CUST-789", DefaultModelSettings) == DirectAnswer(Faqs[0].1)
  {
    ReturnPolicyQuestionIsCivil();
    ReturnPolicyQuestionNoIntent();
    ReturnPolicyQuestionNamesReturnPolicy();
    ReturnPolicyFirst(ReturnPolicyMessage);
  }


  // ---------------------------------------------------------------------
  // Demo 2: order tracking with an id, tool choice "auto"
  // ---------------------------------------------------------------------


  const TrackingMessage: string := "Can you track " + "my order " + "ORD" + "-" + "1001" + "?"

  /** Demo 2 as its word runs. */
  const TrackingRequestSpan1: seq<Run> := [Run("Can", " "), Run("you", " "), Run("track", " ")]
  const TrackingRequestSpan2: seq<Run> := [Run("my", " "), Run("order", " ")]
  const TrackingRequestSpan3: seq<Run> := [Run("ORD", "-"), Run("1001", "?")]
  const TrackingRequestRuns: seq<Run> :=
    TrackingRequestSpan1 + TrackingRequestSpan2 + TrackingRequestSpan3

  /** The runs spell out the text, and they are well formed. */
  lemma TrackingRequestSpelled()
    ensures Render(TrackingRequestRuns) == TrackingMessage && WellFormed(TrackingRequestRuns)
  {
    TrackingRequestSpan1Spelled();
    TrackingRequestSpan2Spelled();
    TrackingRequestSpan3Spelled();
    TrackingRequestSpan1WellFormed();
    TrackingRequestSpan2WellFormed();
    TrackingRequestSpan3WellFormed();
    RenderAppend(TrackingRequestSpan1, TrackingRequestSpan2);
    WellFormedAppend(TrackingRequestSpan1, TrackingRequestSpan2);
    RenderAppend(TrackingRequestSpan1 + TrackingRequestSpan2, TrackingRequestSpan3);
    WellFormedAppend(TrackingRequestSpan1 + TrackingRequestSpan2, TrackingRequestSpan3);
  }

  /** No run starts a screened phrase, and no word contains one of the keys. */
  lemma TrackingRequestScreened()
    ensures PhrasesExcluded(TrackingRequestRuns) && KeysAbsent(TrackingRequestRuns, FaqWords)
  {
    TrackingRequestSpan1Screened();
    TrackingRequestSpan2Screened();
    TrackingRequestSpan3Screened();
    TrackingRequestSpan1LacksKeys();
    TrackingRequestSpan2LacksKeys();
    TrackingRequestSpan3LacksKeys();
    PhrasesExcludedAppend(TrackingRequestSpan1, TrackingRequestSpan2);
    KeysAbsentAppend(TrackingRequestSpan1, TrackingRequestSpan2, FaqWords);
    PhrasesExcludedAppend(TrackingRequestSpan1 + TrackingRequestSpan2, TrackingRequestSpan3);
    KeysAbsentAppend(TrackingRequestSpan1 + TrackingRequestSpan2, TrackingRequestSpan3, FaqWords);
  }

  lemma TrackingRequestSpan1Spelled()
    ensures Render(TrackingRequestSpan1) == "Can you track "
  {
  }

  lemma TrackingRequestSpan1WellFormed()
    ensures WellFormed(TrackingRequestSpan1)
  {
  }

  lemma TrackingRequestSpan1Screened()
    ensures forall j, k :: 0 <= j < |ScreeningPatterns| && 0 <= k < |ScreeningPatterns[j]| ==>
      ExcludedFrom(ScreeningPatterns[j][k], TrackingRequestSpan1)
  {
  }

  lemma TrackingRequestSpan1LacksKeys()
    ensures forall m, q :: 0 <= m < |TrackingRequestSpan1| && 0 <= q < |FaqWords| ==> !Contains(Lower(TrackingRequestSpan1[m].word), FaqWords[q])
  {
  }

  lemma TrackingRequestSpan2Spelled()
    ensures Render(TrackingRequestSpan2) == "my order "
  {
  }

  lemma TrackingRequestSpan2WellFormed()
    ensures WellFormed(TrackingRequestSpan2)
  {
  }

  lemma TrackingRequestSpan2Screened()
    ensures forall j, k :: 0 <= j < |ScreeningPatterns| && 0 <= k < |ScreeningPatterns[j]| ==>
      ExcludedFrom(ScreeningPatterns[j][k], TrackingRequestSpan2)
  {
  }

  lemma TrackingRequestSpan2LacksKeys()
    ensures forall m, q :: 0 <= m < |TrackingRequestSpan2| && 0 <= q < |FaqWords| ==> !Contains(Lower(TrackingRequestSpan2[m].word), FaqWords[q])
  {
  }

  lemma TrackingRequestSpan3Spelled()
    ensures Render(TrackingRequestSpan3) == "ORD" + "-" + "1001" + "?"
  {
  }

  lemma TrackingRequestSpan3WellFormed()
    ensures WellFormed(TrackingRequestSpan3)
  {
  }

  lemma TrackingRequestSpan3Screened()
    ensures forall j, k :: 0 <= j < |ScreeningPatterns| && 0 <= k < |ScreeningPatterns[j]| ==>
      ExcludedFrom(ScreeningPatterns[j][k], TrackingRequestSpan3)
  {
  }

  lemma TrackingRequestSpan3LacksKeys()
    ensures forall m, q :: 0 <= m < |TrackingRequestSpan3| && 0 <= q < |FaqWords| ==> !Contains(Lower(TrackingRequestSpan3[m].word), FaqWords[q])
  {
  }

  lemma TrackingRequestIsCivil()
    ensures !NegativeOrOffensive(TrackingMessage)
  {
    TrackingRequestSpelled();
    TrackingRequestScreened();
    CertifiedCivil(TrackingRequestRuns);
  }


  lemma TrackingRequestNoFaq()
    ensures FaqAnswer(TrackingMessage) == None
  {
    TrackingRequestSpelled();
    TrackingRequestScreened();
    NoFaqAnswer(TrackingRequestRuns);
  }


  lemma TrackingRequestShowsIntent()
    ensures IsOrderIntent(TrackingMessage)
  {
    TrackingRequestSpelled();
    assert Lower(TrackingRequestRuns[2].word) == "track";
    HasWord(TrackingRequestRuns, 2, "track");
  }


  lemma TrackingRequestShape()
    ensures TrackingMessage == "Can you track " + "my order " + "ORD" + "-" + "1001" + "?"
  {
  }

  lemma TrackingRequestIdSpelled()
    ensures "ORD-" + "1001" == "ORD-1001"
  {
  }

  lemma TrackingRequestIdFromShape()
    ensures ExtractOrderId(TrackingMessage) == Some("ORD-" + "1001")
  {
    TrackingRequestShape();
    IdAfterDigitFreeLead(TrackingMessage, "Can you track " + "my order ", "1001", "?");
  }

  lemma TrackingRequestOrderId()
    ensures ExtractOrderId(TrackingMessage) == Some("ORD-1001")
  {
    TrackingRequestIdFromShape();
    TrackingRequestIdSpelled();
  }


  /**
   * Demo 2: "Can you track my order ORD-1001?" with tool choice "auto" and
   * metadata {"channel": "web"} goes to the agent with the id ORD-1001 and
   * the caller's metadata plus the customer id; the tool reports it shipped.
   */
  lemma TrackingRequestRunsTool()
    ensures Route(TrackingMessage, "CUST-789", ModelSettings(AutoToolChoice, Some(map["channel" := "web"])))
      == ToolRun("ORD-1001", AutoRequest("ORD-1001"), AutoToolChoice, Context(TrackingMessage, "CUST-789"),
                 map["channel" := "web", CustomerIdKey := "CUST-789"])
    ensures GetOrderStatus("ORD-1001").Found?
  {
    TrackingRequestIsCivil();
    TrackingRequestNoFaq();
    TrackingRequestShowsIntent();
    TrackingRequestOrderId();
  }


  // ---------------------------------------------------------------------
  // Demo 3: a valid id, tool choice "required"
  // ---------------------------------------------------------------------


  const StatusMessage: string := "Status for " + "ORD" + "-" + "1002" + " " + "please."

  /** Demo 3 as its word runs. */
  const StatusRequestSpan1: seq<Run> := [Run("Status", " "), Run("for", " ")]
  const StatusRequestSpan2: seq<Run> := [Run("ORD", "-"), Run("1002", " ")]
  const StatusRequestSpan3: seq<Run> := [Run("please", ".")]
  const StatusRequestRuns: seq<Run> :=
    StatusRequestSpan1 + StatusRequestSpan2 + StatusRequestSpan3

  /** The runs spell out the text, and they are well formed. */
  lemma StatusRequestSpelled()
    ensures Render(StatusRequestRuns) == StatusMessage && WellFormed(StatusRequestRuns)
  {
    StatusRequestSpan1Spelled();
    StatusRequestSpan2Spelled();
    StatusRequestSpan3Spelled();
    StatusRequestSpan1WellFormed();
    StatusRequestSpan2WellFormed();
    StatusRequestSpan3WellFormed();
    RenderAppend(StatusRequestSpan1, StatusRequestSpan2);
    WellFormedAppend(StatusRequestSpan1, StatusRequestSpan2);
    RenderAppend(StatusRequestSpan1 + StatusRequestSpan2, StatusRequestSpan3);
    WellFormedAppend(StatusRequestSpan1 + StatusRequestSpan2, StatusRequestSpan3);
  }

  /** No run starts a screened phrase, and no word contains one of the keys. */
  lemma StatusRequestScreened()
    ensures PhrasesExcluded(StatusRequestRuns) && KeysAbsent(StatusRequestRuns, FaqWords)
  {
    StatusRequestSpan1Screened();
    StatusRequestSpan2Screened();
    StatusRequestSpan3Screened();
    StatusRequestSpan1LacksKeys();
    StatusRequestSpan2LacksKeys();
    StatusRequestSpan3LacksKeys();
    PhrasesExcludedAppend(StatusRequestSpan1, StatusRequestSpan2);
    KeysAbsentAppend(StatusRequestSpan1, StatusRequestSpan2, FaqWords);
    PhrasesExcludedAppend(StatusRequestSpan1 + StatusRequestSpan2, StatusRequestSpan3);
    KeysAbsentAppend(StatusRequestSpan1 + StatusRequestSpan2, StatusRequestSpan3, FaqWords);
  }

  lemma StatusRequestSpan1Spelled()
    ensures Render(StatusRequestSpan1) == "Status for "
  {
  }

  lemma StatusRequestSpan1WellFormed()
    ensures WellFormed(StatusRequestSpan1)
  {
  }

  lemma StatusRequestSpan1Screened()
    ensures forall j, k :: 0 <= j < |ScreeningPatterns| && 0 <= k < |ScreeningPatterns[j]| ==>
      ExcludedFrom(ScreeningPatterns[j][k], StatusRequestSpan1)
  {
  }

  lemma StatusRequestSpan1LacksKeys()
    ensures forall m, q :: 0 <= m < |StatusRequestSpan1| && 0 <= q < |FaqWords| ==> !Contains(Lower(StatusRequestSpan1[m].word), FaqWords[q])
  {
    NotContainedWhenAbsent(Lower("Status"), "return");
  }

  lemma StatusRequestSpan2Spelled()
    ensures Render(StatusRequestSpan2) == "ORD" + "-" + "1002" + " "
  {
  }

  lemma StatusRequestSpan2WellFormed()
    ensures WellFormed(StatusRequestSpan2)
  {
  }

  lemma StatusRequestSpan2Screened()
    ensures forall j, k :: 0 <= j < |ScreeningPatterns| && 0 <= k < |ScreeningPatterns[j]| ==>
      ExcludedFrom(ScreeningPatterns[j][k], StatusRequestSpan2)
  {
  }

  lemma StatusRequestSpan2LacksKeys()
    ensures forall m, q :: 0 <= m < |StatusRequestSpan2| && 0 <= q < |FaqWords| ==> !Contains(Lower(StatusRequestSpan2[m].word), FaqWords[q])
  {
  }

  lemma StatusRequestSpan3Spelled()
    ensures Render(StatusRequestSpan3) == "please."
  {
  }

  lemma StatusRequestSpan3WellFormed()
    ensures WellFormed(StatusRequestSpan3)
  {
  }

  lemma StatusRequestSpan3Screened()
    ensures forall j, k :: 0 <= j < |ScreeningPatterns| && 0 <= k < |ScreeningPatterns[j]| ==>
      ExcludedFrom(ScreeningPatterns[j][k], StatusRequestSpan3)
  {
  }

  lemma StatusRequestSpan3LacksKeys()
    ensures forall m, q :: 0 <= m < |StatusRequestSpan3| && 0 <= q < |FaqWords| ==> !Contains(Lower(StatusRequestSpan3[m].word), FaqWords[q])
  {
    NotContainedWhenAbsent(Lower("please"), "return");
  }

  lemma StatusRequestIsCivil()
    ensures !NegativeOrOffensive(StatusMessage)
  {
    StatusRequestSpelled();
    StatusRequestScreened();
    CertifiedCivil(StatusRequestRuns);
  }


  lemma StatusRequestNoFaq()
    ensures FaqAnswer(StatusMessage) == None
  {
    StatusRequestSpelled();
    StatusRequestScreened();
    NoFaqAnswer(StatusRequestRuns);
  }


  lemma StatusRequestShowsIntent()
    ensures IsOrderIntent(StatusMessage)
  {
    StatusRequestSpelled();
    assert Lower(StatusRequestRuns[0].word) == "status";
    HasWord(StatusRequestRuns, 0, "status");
  }


  lemma StatusRequestShape()
    ensures StatusMessage == "Status for " + "ORD" + "-" + "1002" + " please."
  {
  }

  lemma StatusRequestIdSpelled()
    ensures "ORD-" + "1002" == "ORD-1002"
  {
  }

  lemma StatusRequestIdFromShape()
    ensures ExtractOrderId(StatusMessage) == Some("ORD-" + "1002")
  {
    StatusRequestShape();
    IdAfterDigitFreeLead(StatusMessage, "Status for ", "1002", " please.");
  }

  lemma StatusRequestOrderId()
    ensures ExtractOrderId(StatusMessage) == Some("ORD-1002")
  {
    StatusRequestIdFromShape();
    StatusRequestIdSpelled();
  }


  /**
   * Demo 3: "Status for ORD-1002 please." with tool choice "required" passes
   * the tool gate and goes to the agent in required mode.
   */
  lemma StatusRequestRequiresTool()
    ensures Route(StatusMessage, "CUST-001", ModelSettings(RequiredToolChoice, Some(map["channel" := "mobile-app"])))
      == ToolRun("ORD-1002", RequiredRequest("ORD-1002"), RequiredToolChoice, Context(StatusMessage, "CUST-001"),
                 map["channel" := "mobile-app", CustomerIdKey := "CUST-001"])
    ensures GetOrderStatus("ORD-1002").Found?
  {
    StatusRequestIsCivil();
    StatusRequestNoFaq();
    StatusRequestShowsIntent();
    StatusRequestOrderId();
    GateIsOrderIntent(StatusMessage, "CUST-001");
  }


  // ---------------------------------------------------------------------
  // Demo 4: order intent without an id, tool choice "auto"
  // ---------------------------------------------------------------------


  const MissingIdMessage: string := "I want the " + "status of " + "my order"

  /** Demo 4 as its word runs. */
  const MissingIdSpan1: seq<Run> := [Run("I", " "), Run("want", " "), Run("the", " ")]
  const MissingIdSpan2: seq<Run> := [Run("status", " "), Run("of", " ")]
  const MissingIdSpan3: seq<Run> := [Run("my", " "), Run("order", "")]
  const MissingIdRuns: seq<Run> :=
    MissingIdSpan1 + MissingIdSpan2 + MissingIdSpan3

  /** The runs spell out the text, and they are well formed. */
  lemma MissingIdSpelled()
    ensures Render(MissingIdRuns) == MissingIdMessage && WellFormed(MissingIdRuns)
  {
    MissingIdSpan1Spelled();
    MissingIdSpan2Spelled();
    MissingIdSpan3Spelled();
    MissingIdSpan1WellFormed();
    MissingIdSpan2WellFormed();
    MissingIdSpan3WellFormed();
    RenderAppend(MissingIdSpan1, MissingIdSpan2);
    WellFormedAppend(MissingIdSpan1, MissingIdSpan2);
    RenderAppend(MissingIdSpan1 + MissingIdSpan2, MissingIdSpan3);
    WellFormedAppend(MissingIdSpan1 + MissingIdSpan2, MissingIdSpan3);
  }

  /** No run starts a screened phrase, and no word contains one of the keys. */
  lemma MissingIdScreened()
    ensures PhrasesExcluded(MissingIdRuns) && KeysAbsent(MissingIdRuns, FaqWords)
  {
    MissingIdSpan1Screened();
    MissingIdSpan2Screened();
    MissingIdSpan3Screened();
    MissingIdSpan1LacksKeys();
    MissingIdSpan2LacksKeys();
    MissingIdSpan3LacksKeys();
    PhrasesExcludedAppend(MissingIdSpan1, MissingIdSpan2);
    KeysAbsentAppend(MissingIdSpan1, MissingIdSpan2, FaqWords);
    PhrasesExcludedAppend(MissingIdSpan1 + MissingIdSpan2, MissingIdSpan3);
    KeysAbsentAppend(MissingIdSpan1 + MissingIdSpan2, MissingIdSpan3, FaqWords);
  }

  lemma MissingIdSpan1Spelled()
    ensures Render(MissingIdSpan1) == "I want the "
  {
  }

  lemma MissingIdSpan1WellFormed()
    ensures WellFormed(MissingIdSpan1)
  {
  }

  lemma MissingIdSpan1Screened()
    ensures forall j, k :: 0 <= j < |ScreeningPatterns| && 0 <= k < |ScreeningPatterns[j]| ==>
      ExcludedFrom(ScreeningPatterns[j][k], MissingIdSpan1)
  {
  }

  lemma MissingIdSpan1LacksKeys()
    ensures forall m, q :: 0 <= m < |MissingIdSpan1| && 0 <= q < |FaqWords| ==> !Contains(Lower(MissingIdSpan1[m].word), FaqWords[q])
  {
  }

  lemma MissingIdSpan2Spelled()
    ensures Render(MissingIdSpan2) == "status of "
  {
  }

  lemma MissingIdSpan2WellFormed()
    ensures WellFormed(MissingIdSpan2)
  {
  }

  lemma MissingIdSpan2Screened()
    ensures forall j, k :: 0 <= j < |ScreeningPatterns| && 0 <= k < |ScreeningPatterns[j]| ==>
      ExcludedFrom(ScreeningPatterns[j][k], MissingIdSpan2)
  {
  }

  lemma MissingIdSpan2LacksKeys()
    ensures forall m, q :: 0 <= m < |MissingIdSpan2| && 0 <= q < |FaqWords| ==> !Contains(Lower(MissingIdSpan2[m].word), FaqWords[q])
  {
    NotContainedWhenAbsent(Lower("status"), "return");
  }

  lemma MissingIdSpan3Spelled()
    ensures Render(MissingIdSpan3) == "my order"
  {
  }

  lemma MissingIdSpan3WellFormed()
    ensures WellFormed(MissingIdSpan3)
  {
  }

  lemma MissingIdSpan3Screened()
    ensures forall j, k :: 0 <= j < |ScreeningPatterns| && 0 <= k < |ScreeningPatterns[j]| ==>
      ExcludedFrom(ScreeningPatterns[j][k], MissingIdSpan3)
  {
  }

  lemma MissingIdSpan3LacksKeys()
    ensures forall m, q :: 0 <= m < |MissingIdSpan3| && 0 <= q < |FaqWords| ==> !Contains(Lower(MissingIdSpan3[m].word), FaqWords[q])
  {
  }

  lemma MissingIdIsCivil()
    ensures !NegativeOrOffensive(MissingIdMessage)
  {
    MissingIdSpelled();
    MissingIdScreened();
    CertifiedCivil(MissingIdRuns);
  }


  lemma MissingIdNoFaq()
    ensures FaqAnswer(MissingIdMessage) == None
  {
    MissingIdSpelled();
    MissingIdScreened();
    NoFaqAnswer(MissingIdRuns);
  }


  lemma MissingIdShowsIntent()
    ensures IsOrderIntent(MissingIdMessage)
  {
    MissingIdSpelled();
    assert Lower(MissingIdRuns[3].word) == "status";
    HasWord(MissingIdRuns, 3, "status");
  }


  lemma MissingIdDigitFree()
    ensures DigitFree(MissingIdMessage)
  {
  }

  lemma MissingIdHasNoId()
    ensures ExtractOrderId(MissingIdMessage) == None
  {
    MissingIdDigitFree();
    NoDigitsNoOrderId(MissingIdMessage);
  }

  /** Demo 4: "I want the status of my order" without an id is asked for one. */
  lemma MissingIdAsksForId()
    ensures Route(MissingIdMessage, "CUST-002", ModelSettings(AutoToolChoice, Some(map["channel" := "web"])))
      == Clarify(ClarifyPrompt)
  {
    MissingIdIsCivil();
    MissingIdNoFaq();
    MissingIdShowsIntent();
    MissingIdHasNoId();
  }


  // ---------------------------------------------------------------------
  // Demo 5: a well-formed id the table does not know
  // ---------------------------------------------------------------------


  const UnknownOrderMessage: string := "Track " + "ORD" + "-" + "9999" + " for me"

  /** Demo 5 as its word runs. */
  const UnknownOrderSpan1: seq<Run> := [Run("Track", " "), Run("ORD", "-")]
  const UnknownOrderSpan2: seq<Run> := [Run("9999", " "), Run("for", " "), Run("me", "")]
  const UnknownOrderRuns: seq<Run> :=
    UnknownOrderSpan1 + UnknownOrderSpan2

  /** The runs spell out the text, and they are well formed. */
  lemma UnknownOrderSpelled()
    ensures Render(UnknownOrderRuns) == UnknownOrderMessage && WellFormed(UnknownOrderRuns)
  {
    UnknownOrderSpan1Spelled();
    UnknownOrderSpan2Spelled();
    UnknownOrderSpan1WellFormed();
    UnknownOrderSpan2WellFormed();
    RenderAppend(UnknownOrderSpan1, UnknownOrderSpan2);
    WellFormedAppend(UnknownOrderSpan1, UnknownOrderSpan2);
  }

  /** No run starts a screened phrase, and no word contains one of the keys. */
  lemma UnknownOrderScreened()
    ensures PhrasesExcluded(UnknownOrderRuns) && KeysAbsent(UnknownOrderRuns, FaqWords)
  {
    UnknownOrderSpan1Screened();
    UnknownOrderSpan2Screened();
    UnknownOrderSpan1LacksKeys();
    UnknownOrderSpan2LacksKeys();
    PhrasesExcludedAppend(UnknownOrderSpan1, UnknownOrderSpan2);
    KeysAbsentAppend(UnknownOrderSpan1, UnknownOrderSpan2, FaqWords);
  }

  lemma UnknownOrderSpan1Spelled()
    ensures Render(UnknownOrderSpan1) == "Track " + "ORD" + "-"
  {
  }

  lemma UnknownOrderSpan1WellFormed()
    ensures WellFormed(UnknownOrderSpan1)
  {
  }

  lemma UnknownOrderSpan1Screened()
    ensures forall j, k :: 0 <= j < |ScreeningPatterns| && 0 <= k < |ScreeningPatterns[j]| ==>
      ExcludedFrom(ScreeningPatterns[j][k], UnknownOrderSpan1)
  {
  }

  lemma UnknownOrderSpan1LacksKeys()
    ensures forall m, q :: 0 <= m < |UnknownOrderSpan1| && 0 <= q < |FaqWords| ==> !Contains(Lower(UnknownOrderSpan1[m].word), FaqWords[q])
  {
  }

  lemma UnknownOrderSpan2Spelled()
    ensures Render(UnknownOrderSpan2) == "9999" + " for me"
  {
  }

  lemma UnknownOrderSpan2WellFormed()
    ensures WellFormed(UnknownOrderSpan2)
  {
  }

  lemma UnknownOrderSpan2Screened()
    ensures forall j, k :: 0 <= j < |ScreeningPatterns| && 0 <= k < |ScreeningPatterns[j]| ==>
      ExcludedFrom(ScreeningPatterns[j][k], UnknownOrderSpan2)
  {
  }

  lemma UnknownOrderSpan2LacksKeys()
    ensures forall m, q :: 0 <= m < |UnknownOrderSpan2| && 0 <= q < |FaqWords| ==> !Contains(Lower(UnknownOrderSpan2[m].word), FaqWords[q])
  {
  }

  lemma UnknownOrderIsCivil()
    ensures !NegativeOrOffensive(UnknownOrderMessage)
  {
    UnknownOrderSpelled();
    UnknownOrderScreened();
    CertifiedCivil(UnknownOrderRuns);
  }


  lemma UnknownOrderNoFaq()
    ensures FaqAnswer(UnknownOrderMessage) == None
  {
    UnknownOrderSpelled();
    UnknownOrderScreened();
    NoFaqAnswer(UnknownOrderRuns);
  }


  lemma UnknownOrderShowsIntent()
    ensures IsOrderIntent(UnknownOrderMessage)
  {
    UnknownOrderSpelled();
    assert Lower(UnknownOrderRuns[0].word) == "track";
    HasWord(UnknownOrderRuns, 0, "track");
  }


  lemma UnknownOrderShape()
    ensures UnknownOrderMessage == "Track " + "ORD" + "-" + "9999" + " for me"
  {
  }

  lemma UnknownOrderIdSpelled()
    ensures "ORD-" + "9999" == "ORD-9999"
  {
  }

  lemma UnknownOrderIdFromShape()
    ensures ExtractOrderId(UnknownOrderMessage) == Some("ORD-" + "9999")
  {
    UnknownOrderShape();
    IdAfterDigitFreeLead(UnknownOrderMessage, "Track ", "9999", " for me");
  }

  lemma UnknownOrderOrderId()
    ensures ExtractOrderId(UnknownOrderMessage) == Some("ORD-9999")
  {
    UnknownOrderIdFromShape();
    UnknownOrderIdSpelled();
  }


  /**
   * Demo 5: "Track ORD-9999 for me" goes to the agent with ORD-9999; the
   * tool finds no such order and its error text names the id.
   */
  lemma UnknownOrderReportsError()
    ensures Route(UnknownOrderMessage, "CUST-002", ModelSettings(AutoToolChoice, Some(map["channel" := "web"])))
      == ToolRun("ORD-9999", AutoRequest("ORD-9999"), AutoToolChoice, Context(UnknownOrderMessage, "CUST-002"),
                 map["channel" := "web", CustomerIdKey := "CUST-002"])
    ensures GetOrderStatus("ORD-9999") == NotFound("ORD-9999")
    ensures QuotedOrderId(OrderToolError(map[OrderIdKey := "ORD-9999"])) == "ORD-9999"
  {
    UnknownOrderIsCivil();
    UnknownOrderNoFaq();
    UnknownOrderShowsIntent();
    UnknownOrderOrderId();
    UnknownOrderNotFound();
    ErrorEchoesOrderId(map[OrderIdKey := "ORD-9999"]);
  }


  // ---------------------------------------------------------------------
  // Demo 6: an angry message that also asks to track an order
  // ---------------------------------------------------------------------


  const FuriousMessage: string :=
    "This is the " + "worst" + " " + "service ever, I’m furious! Track my damn order ORD-1003."

  /** Demo 6: a furious message that also asks to track an order is handed off, not looked up. */
  lemma FuriousTrackingRequestHandsOff()
    ensures Route(FuriousMessage, "CUST-123", ModelSettings(AutoToolChoice, Some(map["channel" := "web"])))
      == Handoff(NegativeReason, Context(FuriousMessage, "CUST-123"))
  {
    var a := "This is the ";
    var rest := "service ever, I’m furious! Track my damn order ORD-1003.";
    assert ScreeningPatterns[2][4] == "worst";
    assert a[|a| - 1] == ' ';
    assert a + "worst" + " " + rest == a + ScreeningPatterns[2][4] + (" " + rest);
    ScreenedWordHandsOff(a, 2, 4, " " + rest, "CUST-123", ModelSettings(AutoToolChoice, Some(map["channel" := "web"])));
  }


  // ---------------------------------------------------------------------
  // Demo 7: a long claim that names the warranty and legal follow-up
  // ---------------------------------------------------------------------


  const WarrantyClaimMessage: string :=
    "Hello, I need " + "help with a " + "multi-country " + "warranty claim " + "involving two "
    + "shipments, a " + "customs dispute, " + "and a missed " + "delivery window, " + "plus legal " + "follow-up."

  /** The lead words of Demo 7's check: the intent words, then "return" and "shipping". */
  const ClaimKeys: seq<string> := ["order", "track", "status", "return", "shipping"]

  /** Demo 7 as its word runs. */
  const WarrantyClaimSpan1: seq<Run> := [Run("Hello", ", "), Run("I", " "), Run("need", " ")]
  const WarrantyClaimSpan2: seq<Run> := [Run("help", " "), Run("with", " "), Run("a", " ")]
  const WarrantyClaimSpan3: seq<Run> := [Run("multi", "-"), Run("country", " ")]
  const WarrantyClaimSpan4: seq<Run> := [Run("warranty", " "), Run("claim", " ")]
  const WarrantyClaimSpan5: seq<Run> := [Run("involving", " "), Run("two", " ")]
  const WarrantyClaimSpan6: seq<Run> := [Run("shipments", ", "), Run("a", " ")]
  const WarrantyClaimSpan7: seq<Run> := [Run("customs", " "), Run("dispute", ", ")]
  const WarrantyClaimSpan8: seq<Run> := [Run("and", " "), Run("a", " "), Run("missed", " ")]
  const WarrantyClaimSpan9: seq<Run> := [Run("delivery", " "), Run("window", ", ")]
  const WarrantyClaimSpan10: seq<Run> := [Run("plus", " "), Run("legal", " ")]
  const WarrantyClaimSpan11: seq<Run> := [Run("follow", "-"), Run("up", ".")]
  const WarrantyClaimRuns: seq<Run> :=
    WarrantyClaimSpan1 + WarrantyClaimSpan2 + WarrantyClaimSpan3 + WarrantyClaimSpan4
    + WarrantyClaimSpan5 + WarrantyClaimSpan6 + WarrantyClaimSpan7 + WarrantyClaimSpan8
    + WarrantyClaimSpan9 + WarrantyClaimSpan10 + WarrantyClaimSpan11

  /** The runs spell out the text, and they are well formed. */
  lemma WarrantyClaimSpelled()
    ensures Render(WarrantyClaimRuns) == WarrantyClaimMessage && WellFormed(WarrantyClaimRuns)
  {
    WarrantyClaimSpan1Spelled();
    WarrantyClaimSpan2Spelled();
    WarrantyClaimSpan3Spelled();
    WarrantyClaimSpan4Spelled();
    WarrantyClaimSpan5Spelled();
    WarrantyClaimSpan6Spelled();
    WarrantyClaimSpan7Spelled();
    WarrantyClaimSpan8Spelled();
    WarrantyClaimSpan9Spelled();
    WarrantyClaimSpan10Spelled();
    WarrantyClaimSpan11Spelled();
    WarrantyClaimSpan1WellFormed();
    WarrantyClaimSpan2WellFormed();
    WarrantyClaimSpan3WellFormed();
    WarrantyClaimSpan4WellFormed();
    WarrantyClaimSpan5WellFormed();
    WarrantyClaimSpan6WellFormed();
    WarrantyClaimSpan7WellFormed();
    WarrantyClaimSpan8WellFormed();
    WarrantyClaimSpan9WellFormed();
    WarrantyClaimSpan10WellFormed();
    WarrantyClaimSpan11WellFormed();
    RenderAppend(WarrantyClaimSpan1, WarrantyClaimSpan2);
    WellFormedAppend(WarrantyClaimSpan1, WarrantyClaimSpan2);
    RenderAppend(WarrantyClaimSpan1 + WarrantyClaimSpan2, WarrantyClaimSpan3);
    WellFormedAppend(WarrantyClaimSpan1 + WarrantyClaimSpan2, WarrantyClaimSpan3);
    RenderAppend(WarrantyClaimSpan1 + WarrantyClaimSpan2 + WarrantyClaimSpan3, WarrantyClaimSpan4);
    WellFormedAppend(WarrantyClaimSpan1 + WarrantyClaimSpan2 + WarrantyClaimSpan3, WarrantyClaimSpan4);
    RenderAppend(WarrantyClaimSpan1 + WarrantyClaimSpan2 + WarrantyClaimSpan3 + WarrantyClaimSpan4, WarrantyClaimSpan5);
    WellFormedAppend(WarrantyClaimSpan1 + WarrantyClaimSpan2 + WarrantyClaimSpan3 + WarrantyClaimSpan4, WarrantyClaimSpan5);
    RenderAppend(WarrantyClaimSpan1 + WarrantyClaimSpan2 + WarrantyClaimSpan3 + WarrantyClaimSpan4 + WarrantyClaimSpan5, WarrantyClaimSpan6);
    WellFormedAppend(WarrantyClaimSpan1 + WarrantyClaimSpan2 + WarrantyClaimSpan3 + WarrantyClaimSpan4 + WarrantyClaimSpan5, WarrantyClaimSpan6);
    RenderAppend(WarrantyClaimSpan1 + WarrantyClaimSpan2 + WarrantyClaimSpan3 + WarrantyClaimSpan4 + WarrantyClaimSpan5 + WarrantyClaimSpan6, WarrantyClaimSpan7);
    WellFormedAppend(WarrantyClaimSpan1 + WarrantyClaimSpan2 + WarrantyClaimSpan3 + WarrantyClaimSpan4 + WarrantyClaimSpan5 + WarrantyClaimSpan6, WarrantyClaimSpan7);
    RenderAppend(WarrantyClaimSpan1 + WarrantyClaimSpan2 + WarrantyClaimSpan3 + WarrantyClaimSpan4 + WarrantyClaimSpan5 + WarrantyClaimSpan6 + WarrantyClaimSpan7, WarrantyClaimSpan8);
    WellFormedAppend(WarrantyClaimSpan1 + WarrantyClaimSpan2 + WarrantyClaimSpan3 + WarrantyClaimSpan4 + WarrantyClaimSpan5 + WarrantyClaimSpan6 + WarrantyClaimSpan7, WarrantyClaimSpan8);
    RenderAppend(WarrantyClaimSpan1 + WarrantyClaimSpan2 + WarrantyClaimSpan3 + WarrantyClaimSpan4 + WarrantyClaimSpan5 + WarrantyClaimSpan6 + WarrantyClaimSpan7 + WarrantyClaimSpan8, WarrantyClaimSpan9);
    WellFormedAppend(WarrantyClaimSpan1 + WarrantyClaimSpan2 + WarrantyClaimSpan3 + WarrantyClaimSpan4 + WarrantyClaimSpan5 + WarrantyClaimSpan6 + WarrantyClaimSpan7 + WarrantyClaimSpan8, WarrantyClaimSpan9);
    RenderAppend(WarrantyClaimSpan1 + WarrantyClaimSpan2 + WarrantyClaimSpan3 + WarrantyClaimSpan4 + WarrantyClaimSpan5 + WarrantyClaimSpan6 + WarrantyClaimSpan7 + WarrantyClaimSpan8 + WarrantyClaimSpan9, WarrantyClaimSpan10);
    WellFormedAppend(WarrantyClaimSpan1 + WarrantyClaimSpan2 + WarrantyClaimSpan3 + WarrantyClaimSpan4 + WarrantyClaimSpan5 + WarrantyClaimSpan6 + WarrantyClaimSpan7 + WarrantyClaimSpan8 + WarrantyClaimSpan9, WarrantyClaimSpan10);
    RenderAppend(WarrantyClaimSpan1 + WarrantyClaimSpan2 + WarrantyClaimSpan3 + WarrantyClaimSpan4 + WarrantyClaimSpan5 + WarrantyClaimSpan6 + WarrantyClaimSpan7 + WarrantyClaimSpan8 + WarrantyClaimSpan9 + WarrantyClaimSpan10, WarrantyClaimSpan11);
    WellFormedAppend(WarrantyClaimSpan1 + WarrantyClaimSpan2 + WarrantyClaimSpan3 + WarrantyClaimSpan4 + WarrantyClaimSpan5 + WarrantyClaimSpan6 + WarrantyClaimSpan7 + WarrantyClaimSpan8 + WarrantyClaimSpan9 + WarrantyClaimSpan10, WarrantyClaimSpan11);
  }

  /** No run starts a screened phrase, and no word contains one of the keys. */
  lemma WarrantyClaimScreened()
    ensures PhrasesExcluded(WarrantyClaimRuns) && KeysAbsent(WarrantyClaimRuns, ClaimKeys)
  {
    WarrantyClaimSpan1Screened();
    WarrantyClaimSpan2Screened();
    WarrantyClaimSpan3Screened();
    WarrantyClaimSpan4Screened();
    WarrantyClaimSpan5Screened();
    WarrantyClaimSpan6Screened();
    WarrantyClaimSpan7Screened();
    WarrantyClaimSpan8Screened();
    WarrantyClaimSpan9Screened();
    WarrantyClaimSpan10Screened();
    WarrantyClaimSpan11Screened();
    WarrantyClaimSpan1LacksKeys();
    WarrantyClaimSpan2LacksKeys();
    WarrantyClaimSpan3LacksKeys();
    WarrantyClaimSpan4LacksKeys();
    WarrantyClaimSpan5LacksKeys();
    WarrantyClaimSpan6LacksKeys();
    WarrantyClaimSpan7LacksKeys();
    WarrantyClaimSpan8LacksKeys();
    WarrantyClaimSpan9LacksKeys();
    WarrantyClaimSpan10LacksKeys();
    WarrantyClaimSpan11LacksKeys();
    PhrasesExcludedAppend(WarrantyClaimSpan1, WarrantyClaimSpan2);
    KeysAbsentAppend(WarrantyClaimSpan1, WarrantyClaimSpan2, ClaimKeys);
    PhrasesExcludedAppend(WarrantyClaimSpan1 + WarrantyClaimSpan2, WarrantyClaimSpan3);
    KeysAbsentAppend(WarrantyClaimSpan1 + WarrantyClaimSpan2, WarrantyClaimSpan3, ClaimKeys);
    PhrasesExcludedAppend(WarrantyClaimSpan1 + WarrantyClaimSpan2 + WarrantyClaimSpan3, WarrantyClaimSpan4);
    KeysAbsentAppend(WarrantyClaimSpan1 + WarrantyClaimSpan2 + WarrantyClaimSpan3, WarrantyClaimSpan4, ClaimKeys);
    PhrasesExcludedAppend(WarrantyClaimSpan1 + WarrantyClaimSpan2 + WarrantyClaimSpan3 + WarrantyClaimSpan4, WarrantyClaimSpan5);
    KeysAbsentAppend(WarrantyClaimSpan1 + WarrantyClaimSpan2 + WarrantyClaimSpan3 + WarrantyClaimSpan4, WarrantyClaimSpan5, ClaimKeys);
    PhrasesExcludedAppend(WarrantyClaimSpan1 + WarrantyClaimSpan2 + WarrantyClaimSpan3 + WarrantyClaimSpan4 + WarrantyClaimSpan5, WarrantyClaimSpan6);
    KeysAbsentAppend(WarrantyClaimSpan1 + WarrantyClaimSpan2 + WarrantyClaimSpan3 + WarrantyClaimSpan4 + WarrantyClaimSpan5, WarrantyClaimSpan6, ClaimKeys);
    PhrasesExcludedAppend(WarrantyClaimSpan1 + WarrantyClaimSpan2 + WarrantyClaimSpan3 + WarrantyClaimSpan4 + WarrantyClaimSpan5 + WarrantyClaimSpan6, WarrantyClaimSpan7);
    KeysAbsentAppend(WarrantyClaimSpan1 + WarrantyClaimSpan2 + WarrantyClaimSpan3 + WarrantyClaimSpan4 + WarrantyClaimSpan5 + WarrantyClaimSpan6, WarrantyClaimSpan7, ClaimKeys);
    PhrasesExcludedAppend(WarrantyClaimSpan1 + WarrantyClaimSpan2 + WarrantyClaimSpan3 + WarrantyClaimSpan4 + WarrantyClaimSpan5 + WarrantyClaimSpan6 + WarrantyClaimSpan7, WarrantyClaimSpan8);
    KeysAbsentAppend(WarrantyClaimSpan1 + WarrantyClaimSpan2 + WarrantyClaimSpan3 + WarrantyClaimSpan4 + WarrantyClaimSpan5 + WarrantyClaimSpan6 + WarrantyClaimSpan7, WarrantyClaimSpan8, ClaimKeys);
    PhrasesExcludedAppend(WarrantyClaimSpan1 + WarrantyClaimSpan2 + WarrantyClaimSpan3 + WarrantyClaimSpan4 + WarrantyClaimSpan5 + WarrantyClaimSpan6 + WarrantyClaimSpan7 + WarrantyClaimSpan8, WarrantyClaimSpan9);
    KeysAbsentAppend(WarrantyClaimSpan1 + WarrantyClaimSpan2 + WarrantyClaimSpan3 + WarrantyClaimSpan4 + WarrantyClaimSpan5 + WarrantyClaimSpan6 + WarrantyClaimSpan7 + WarrantyClaimSpan8, WarrantyClaimSpan9, ClaimKeys);
    PhrasesExcludedAppend(WarrantyClaimSpan1 + WarrantyClaimSpan2 + WarrantyClaimSpan3 + WarrantyClaimSpan4 + WarrantyClaimSpan5 + WarrantyClaimSpan6 + WarrantyClaimSpan7 + WarrantyClaimSpan8 + WarrantyClaimSpan9, WarrantyClaimSpan10);
    KeysAbsentAppend(WarrantyClaimSpan1 + WarrantyClaimSpan2 + WarrantyClaimSpan3 + WarrantyClaimSpan4 + WarrantyClaimSpan5 + WarrantyClaimSpan6 + WarrantyClaimSpan7 + WarrantyClaimSpan8 + WarrantyClaimSpan9, WarrantyClaimSpan10, ClaimKeys);
    PhrasesExcludedAppend(WarrantyClaimSpan1 + WarrantyClaimSpan2 + WarrantyClaimSpan3 + WarrantyClaimSpan4 + WarrantyClaimSpan5 + WarrantyClaimSpan6 + WarrantyClaimSpan7 + WarrantyClaimSpan8 + WarrantyClaimSpan9 + WarrantyClaimSpan10, WarrantyClaimSpan11);
    KeysAbsentAppend(WarrantyClaimSpan1 + WarrantyClaimSpan2 + WarrantyClaimSpan3 + WarrantyClaimSpan4 + WarrantyClaimSpan5 + WarrantyClaimSpan6 + WarrantyClaimSpan7 + WarrantyClaimSpan8 + WarrantyClaimSpan9 + WarrantyClaimSpan10, WarrantyClaimSpan11, ClaimKeys);
  }

  lemma WarrantyClaimSpan1Spelled()
    ensures Render(WarrantyClaimSpan1) == "Hello, I need "
  {
  }

  lemma WarrantyClaimSpan1WellFormed()
    ensures WellFormed(WarrantyClaimSpan1)
  {
  }

  lemma WarrantyClaimSpan1Screened()
    ensures forall j, k :: 0 <= j < |ScreeningPatterns| && 0 <= k < |ScreeningPatterns[j]| ==>
      ExcludedFrom(ScreeningPatterns[j][k], WarrantyClaimSpan1)
  {
  }

  lemma WarrantyClaimSpan1LacksKeys()
    ensures forall m, q :: 0 <= m < |WarrantyClaimSpan1| && 0 <= q < |ClaimKeys| ==> !Contains(Lower(WarrantyClaimSpan1[m].word), ClaimKeys[q])
  {
    NotContainedWhenAbsent(Lower("Hello"), "order");
    NotContainedWhenAbsent(Lower("Hello"), "track");
  }

  lemma WarrantyClaimSpan2Spelled()
    ensures Render(WarrantyClaimSpan2) == "help with a "
  {
  }

  lemma WarrantyClaimSpan2WellFormed()
    ensures WellFormed(WarrantyClaimSpan2)
  {
  }

  lemma WarrantyClaimSpan2Screened()
    ensures forall j, k :: 0 <= j < |ScreeningPatterns| && 0 <= k < |ScreeningPatterns[j]| ==>
      ExcludedFrom(ScreeningPatterns[j][k], WarrantyClaimSpan2)
  {
  }

  lemma WarrantyClaimSpan2LacksKeys()
    ensures forall m, q :: 0 <= m < |WarrantyClaimSpan2| && 0 <= q < |ClaimKeys| ==> !Contains(Lower(WarrantyClaimSpan2[m].word), ClaimKeys[q])
  {
  }

  lemma WarrantyClaimSpan3Spelled()
    ensures Render(WarrantyClaimSpan3) == "multi-country "
  {
  }

  lemma WarrantyClaimSpan3WellFormed()
    ensures WellFormed(WarrantyClaimSpan3)
  {
  }

  lemma WarrantyClaimSpan3Screened()
    ensures forall j, k :: 0 <= j < |ScreeningPatterns| && 0 <= k < |ScreeningPatterns[j]| ==>
      ExcludedFrom(ScreeningPatterns[j][k], WarrantyClaimSpan3)
  {
  }

  lemma WarrantyClaimSpan3LacksKeys()
    ensures forall m, q :: 0 <= m < |WarrantyClaimSpan3| && 0 <= q < |ClaimKeys| ==> !Contains(Lower(WarrantyClaimSpan3[m].word), ClaimKeys[q])
  {
    NotContainedWhenAbsent(Lower("multi"), "order");
    NotContainedWhenAbsent(Lower("multi"), "track");
    NotContainedWhenAbsent(Lower("country"), "order");
    NotContainedWhenAbsent(Lower("country"), "track");
    NotContainedWhenAbsent(Lower("country"), "status");
    NotContainedWhenAbsent(Lower("country"), "return");
  }

  lemma WarrantyClaimSpan4Spelled()
    ensures Render(WarrantyClaimSpan4) == "warranty claim "
  {
  }

  lemma WarrantyClaimSpan4WellFormed()
    ensures WellFormed(WarrantyClaimSpan4)
  {
  }

  lemma WarrantyClaimSpan4Screened()
    ensures forall j, k :: 0 <= j < |ScreeningPatterns| && 0 <= k < |ScreeningPatterns[j]| ==>
      ExcludedFrom(ScreeningPatterns[j][k], WarrantyClaimSpan4)
  {
  }

  lemma WarrantyClaimSpan4LacksKeys()
    ensures forall m, q :: 0 <= m < |WarrantyClaimSpan4| && 0 <= q < |ClaimKeys| ==> !Contains(Lower(WarrantyClaimSpan4[m].word), ClaimKeys[q])
  {
    NotContainedWhenAbsent(Lower("warranty"), "order");
    NotContainedWhenAbsent(Lower("warranty"), "track");
    NotContainedWhenAbsent(Lower("warranty"), "status");
    NotContainedWhenAbsent(Lower("warranty"), "return");
    NotContainedWhenAbsent(Lower("warranty"), "shipping");
    NotContainedWhenAbsent(Lower("claim"), "order");
    NotContainedWhenAbsent(Lower("claim"), "track");
  }

  lemma WarrantyClaimSpan5Spelled()
    ensures Render(WarrantyClaimSpan5) == "involving two "
  {
  }

  lemma WarrantyClaimSpan5WellFormed()
    ensures WellFormed(WarrantyClaimSpan5)
  {
  }

  lemma WarrantyClaimSpan5Screened()
    ensures forall j, k :: 0 <= j < |ScreeningPatterns| && 0 <= k < |ScreeningPatterns[j]| ==>
      ExcludedFrom(ScreeningPatterns[j][k], WarrantyClaimSpan5)
  {
  }

  lemma WarrantyClaimSpan5LacksKeys()
    ensures forall m, q :: 0 <= m < |WarrantyClaimSpan5| && 0 <= q < |ClaimKeys| ==> !Contains(Lower(WarrantyClaimSpan5[m].word), ClaimKeys[q])
  {
    NotContainedWhenAbsent(Lower("involving"), "order");
    NotContainedWhenAbsent(Lower("involving"), "track");
    NotContainedWhenAbsent(Lower("involving"), "status");
    NotContainedWhenAbsent(Lower("involving"), "return");
    NotContainedWhenAbsent(Lower("involving"), "shipping");
  }

  lemma WarrantyClaimSpan6Spelled()
    ensures Render(WarrantyClaimSpan6) == "shipments, a "
  {
  }

  lemma WarrantyClaimSpan6WellFormed()
    ensures WellFormed(WarrantyClaimSpan6)
  {
  }

  lemma WarrantyClaimSpan6Screened()
    ensures forall j, k :: 0 <= j < |ScreeningPatterns| && 0 <= k < |ScreeningPatterns[j]| ==>
      ExcludedFrom(ScreeningPatterns[j][k], WarrantyClaimSpan6)
  {
  }

  lemma WarrantyClaimSpan6LacksKeys()
    ensures forall m, q :: 0 <= m < |WarrantyClaimSpan6| && 0 <= q < |ClaimKeys| ==> !Contains(Lower(WarrantyClaimSpan6[m].word), ClaimKeys[q])
  {
    NotContainedWhenAbsent(Lower("shipments"), "order");
    NotContainedWhenAbsent(Lower("shipments"), "track");
    NotContainedWhenAbsent(Lower("shipments"), "status");
    NotContainedWhenAbsent(Lower("shipments"), "return");
    NotContainedWhenAbsent(Lower("shipments"), "shipping");
  }

  lemma WarrantyClaimSpan7Spelled()
    ensures Render(WarrantyClaimSpan7) == "customs dispute, "
  {
  }

  lemma WarrantyClaimSpan7WellFormed()
    ensures WellFormed(WarrantyClaimSpan7)
  {
  }

  lemma WarrantyClaimSpan7Screened()
    ensures forall j, k :: 0 <= j < |ScreeningPatterns| && 0 <= k < |ScreeningPatterns[j]| ==>
      ExcludedFrom(ScreeningPatterns[j][k], WarrantyClaimSpan7)
  {
  }

  lemma WarrantyClaimSpan7LacksKeys()
    ensures forall m, q :: 0 <= m < |WarrantyClaimSpan7| && 0 <= q < |ClaimKeys| ==> !Contains(Lower(WarrantyClaimSpan7[m].word), ClaimKeys[q])
  {
    NotContainedWhenAbsent(Lower("customs"), "order");
    NotContainedWhenAbsent(Lower("customs"), "track");
    NotContainedWhenAbsent(Lower("customs"), "status");
    NotContainedWhenAbsent(Lower("customs"), "return");
    NotContainedWhenAbsent(Lower("dispute"), "order");
    NotContainedWhenAbsent(Lower("dispute"), "track");
    NotContainedWhenAbsent(Lower("dispute"), "status");
    NotContainedWhenAbsent(Lower("dispute"), "return");
  }

  lemma WarrantyClaimSpan8Spelled()
    ensures Render(WarrantyClaimSpan8) == "and a missed "
  {
  }

  lemma WarrantyClaimSpan8WellFormed()
    ensures WellFormed(WarrantyClaimSpan8)
  {
  }

  lemma WarrantyClaimSpan8Screened()
    ensures forall j, k :: 0 <= j < |ScreeningPatterns| && 0 <= k < |ScreeningPatterns[j]| ==>
      ExcludedFrom(ScreeningPatterns[j][k], WarrantyClaimSpan8)
  {
  }

  lemma WarrantyClaimSpan8LacksKeys()
    ensures forall m, q :: 0 <= m < |WarrantyClaimSpan8| && 0 <= q < |ClaimKeys| ==> !Contains(Lower(WarrantyClaimSpan8[m].word), ClaimKeys[q])
  {
    NotContainedWhenAbsent(Lower("missed"), "order");
    NotContainedWhenAbsent(Lower("missed"), "track");
    NotContainedWhenAbsent(Lower("missed"), "status");
    NotContainedWhenAbsent(Lower("missed"), "return");
  }

  lemma WarrantyClaimSpan9Spelled()
    ensures Render(WarrantyClaimSpan9) == "delivery window, "
  {
  }

  lemma WarrantyClaimSpan9WellFormed()
    ensures WellFormed(WarrantyClaimSpan9)
  {
  }

  lemma WarrantyClaimSpan9Screened()
    ensures forall j, k :: 0 <= j < |ScreeningPatterns| && 0 <= k < |ScreeningPatterns[j]| ==>
      ExcludedFrom(ScreeningPatterns[j][k], WarrantyClaimSpan9)
  {
  }

  lemma WarrantyClaimSpan9LacksKeys()
    ensures forall m, q :: 0 <= m < |WarrantyClaimSpan9| && 0 <= q < |ClaimKeys| ==> !Contains(Lower(WarrantyClaimSpan9[m].word), ClaimKeys[q])
  {
    NotContainedWhenAbsent(Lower("delivery"), "order");
    NotContainedWhenAbsent(Lower("delivery"), "track");
    NotContainedWhenAbsent(Lower("delivery"), "status");
    NotContainedWhenAbsent(Lower("delivery"), "return");
    NotContainedWhenAbsent(Lower("delivery"), "shipping");
    NotContainedWhenAbsent(Lower("window"), "order");
    NotContainedWhenAbsent(Lower("window"), "track");
    NotContainedWhenAbsent(Lower("window"), "status");
    NotContainedWhenAbsent(Lower("window"), "return");
  }

  lemma WarrantyClaimSpan10Spelled()
    ensures Render(WarrantyClaimSpan10) == "plus legal "
  {
  }

  lemma WarrantyClaimSpan10WellFormed()
    ensures WellFormed(WarrantyClaimSpan10)
  {
  }

  lemma WarrantyClaimSpan10Screened()
    ensures forall j, k :: 0 <= j < |ScreeningPatterns| && 0 <= k < |ScreeningPatterns[j]| ==>
      ExcludedFrom(ScreeningPatterns[j][k], WarrantyClaimSpan10)
  {
  }

  lemma WarrantyClaimSpan10LacksKeys()
    ensures forall m, q :: 0 <= m < |WarrantyClaimSpan10| && 0 <= q < |ClaimKeys| ==> !Contains(Lower(WarrantyClaimSpan10[m].word), ClaimKeys[q])
  {
    NotContainedWhenAbsent(Lower("legal"), "order");
    NotContainedWhenAbsent(Lower("legal"), "track");
  }

  lemma WarrantyClaimSpan11Spelled()
    ensures Render(WarrantyClaimSpan11) == "follow-up."
  {
  }

  lemma WarrantyClaimSpan11WellFormed()
    ensures WellFormed(WarrantyClaimSpan11)
  {
  }

  lemma WarrantyClaimSpan11Screened()
    ensures forall j, k :: 0 <= j < |ScreeningPatterns| && 0 <= k < |ScreeningPatterns[j]| ==>
      ExcludedFrom(ScreeningPatterns[j][k], WarrantyClaimSpan11)
  {
  }

  lemma WarrantyClaimSpan11LacksKeys()
    ensures forall m, q :: 0 <= m < |WarrantyClaimSpan11| && 0 <= q < |ClaimKeys| ==> !Contains(Lower(WarrantyClaimSpan11[m].word), ClaimKeys[q])
  {
    NotContainedWhenAbsent(Lower("follow"), "order");
    NotContainedWhenAbsent(Lower("follow"), "track");
    NotContainedWhenAbsent(Lower("follow"), "status");
    NotContainedWhenAbsent(Lower("follow"), "return");
  }

  lemma WarrantyClaimIsCivil()
    ensures !NegativeOrOffensive(WarrantyClaimMessage)
  {
    WarrantyClaimSpelled();
    WarrantyClaimScreened();
    CertifiedCivil(WarrantyClaimRuns);
  }


  lemma WarrantyClaimNoIntent()
    ensures !IsOrderIntent(WarrantyClaimMessage)
  {
    WarrantyClaimSpelled();
    WarrantyClaimScreened();
    assert ClaimKeys[..3] == IntentWords;
    NoOrderIntent(WarrantyClaimRuns, ClaimKeys);
  }

  /** The first FAQ key that matches is "warranty". */
  lemma WarrantyClaimFirstHit()
    ensures FirstFaqHit(Lower(WarrantyClaimMessage), 2)
  {
    WarrantyClaimSpelled();
    WarrantyClaimScreened();
    NoReturnNoShipping(WarrantyClaimRuns, ClaimKeys, 3);
    assert Lower(WarrantyClaimRuns[8].word) == "warranty";
    HasWord(WarrantyClaimRuns, 8, "warranty");
  }

  lemma WarrantyClaimIsComplex()
    ensures IsComplex(WarrantyClaimMessage)
  {
    WarrantyClaimSpelled();
    assert Lower(WarrantyClaimRuns[22].word) == "legal";
    HasWord(WarrantyClaimRuns, 22, "legal");
  }

  /**
   * Demo 7, shown as a complex request: the message does meet the escalation
   * heuristic, but the FAQ step comes first and "warranty" matches, so it
   * gets the warranty answer and is not handed off.
   */
  lemma WarrantyClaimAnsweredNotHandedOff()
    ensures IsComplex(WarrantyClaimMessage)
    ensures Route(WarrantyClaimMessage, "CUST-555", ModelSettings(AutoToolChoice, Some(map["channel" := "email"])))
      == DirectAnswer(Faqs[2].1)
  {
    WarrantyClaimIsCivil();
    WarrantyClaimNoIntent();
    WarrantyClaimFirstHit();
    WarrantyClaimIsComplex();
    FirstHitDecides(Lower(WarrantyClaimMessage), 2);
  }

}
