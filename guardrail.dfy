// The civility guardrail that screens user input before the bot sees it,
// and the proof that the redirect it answers with passes the screening
// itself.

module Guardrail {
  import opened Text
  import opened Classifiers
  import opened WordRuns

  /** The fixed redirect returned in place of a blocked input, cut at word gaps. */
  const GentleRedirect: string :=
    "I’m here " + "to help. " + "Let’s keep " + "things respectful " + "so I can " + "assist you " + "quickly. "
    + "Could you please " + "restate your " + "request? For " + "example: ‘Please " + "check my order "
    + "status ORD-1234’ " + "or ‘What is " + "your return " + "policy?’"

  /** The guardrail's `(allowed, text)` pair. */
  datatype Verdict = Verdict(allowed: bool, text: string)

  /** `civility_guardrail_fn` */
  function CivilityGuardrail(userInput: string): (v: Verdict)
    ensures v.allowed <==> !NegativeOrOffensive(userInput)
    ensures v.allowed ==> v.text == userInput
    ensures !v.allowed ==> v.text == GentleRedirect
    ensures !NegativeOrOffensive(v.text)
    ensures !v.allowed ==> v.text != userInput
  {
    RedirectIsCivil();
    if NegativeOrOffensive(userInput) then Verdict(false, GentleRedirect)
    else Verdict(true, userInput)
  }

  /** A blocked input leaves no trace in the verdict: all blocked inputs get the same one. */
  lemma BlockedVerdictsAgree(a: string, b: string)
    requires !CivilityGuardrail(a).allowed && !CivilityGuardrail(b).allowed
    ensures CivilityGuardrail(a) == CivilityGuardrail(b)
  {
  }

  /** Screening the guardrail's own output again lets it through unchanged. */
  lemma OutputPassesGuardrail(userInput: string)
    ensures CivilityGuardrail(CivilityGuardrail(userInput).text) == Verdict(true, CivilityGuardrail(userInput).text)
  {
  }

  // ---------------------------------------------------------------------
  // Certifying that a text matches no screening pattern
  // ---------------------------------------------------------------------

  /** Every screened phrase is certified not to start at any run of rs. */
  predicate PhrasesExcluded(rs: seq<Run>) {
    forall j, k :: 0 <= j < |ScreeningPatterns| && 0 <= k < |ScreeningPatterns[j]| ==>
      ExcludedFrom(ScreeningPatterns[j][k], rs)
  }

  lemma PhrasesExcludedAppend(a: seq<Run>, b: seq<Run>)
    requires PhrasesExcluded(a) && PhrasesExcluded(b)
    ensures PhrasesExcluded(a + b)
  {
    forall j, k | 0 <= j < |ScreeningPatterns| && 0 <= k < |ScreeningPatterns[j]|
      ensures ExcludedFrom(ScreeningPatterns[j][k], a + b)
    {
      ExcludedFromAppend(ScreeningPatterns[j][k], a, b);
    }
  }

  /** A text whose runs exclude every screened phrase is not flagged. */
  lemma CertifiedCivil(rs: seq<Run>)
    requires WellFormed(rs) && PhrasesExcluded(rs)
    ensures !NegativeOrOffensive(Render(rs))
  {
    forall j, k | 0 <= j < |ScreeningPatterns| && 0 <= k < |ScreeningPatterns[j]|
      ensures !OccursAsWord(Lower(Render(rs)), ScreeningPatterns[j][k])
    {
      ScreeningPhrasesWellFormed(j, k);
      AbsentWhenExcluded(rs, ScreeningPatterns[j][k]);
    }
  }

  // ---------------------------------------------------------------------
  // The redirect matches no screening pattern
  // ---------------------------------------------------------------------

  /** The redirect matches none of the screening patterns. */
  lemma RedirectIsCivil()
    ensures !NegativeOrOffensive(GentleRedirect)
  {
    RedirectSpelled();
    RedirectScreened();
    CertifiedCivil(RedirectRuns);
  }

  /** The redirect as its word runs, a few at a time. */
  const RedirectSpan1: seq<Run> := [Run("I", "’"), Run("m", " "), Run("here", " ")]
  const RedirectSpan2: seq<Run> := [Run("to", " "), Run("help", ". ")]
  const RedirectSpan3: seq<Run> := [Run("Let", "’"), Run("s", " "), Run("keep", " ")]
  const RedirectSpan4: seq<Run> := [Run("things", " "), Run("respectful", " ")]
  const RedirectSpan5: seq<Run> := [Run("so", " "), Run("I", " "), Run("can", " ")]
  const RedirectSpan6: seq<Run> := [Run("assist", " "), Run("you", " ")]
  const RedirectSpan7: seq<Run> := [Run("quickly", ". ")]
  const RedirectSpan8: seq<Run> := [Run("Could", " "), Run("you", " "), Run("please", " ")]
  const RedirectSpan9: seq<Run> := [Run("restate", " "), Run("your", " ")]
  const RedirectSpan10: seq<Run> := [Run("request", "? "), Run("For", " ")]
  const RedirectSpan11: seq<Run> := [Run("example", ": ‘"), Run("Please", " ")]
  const RedirectSpan12: seq<Run> := [Run("check", " "), Run("my", " "), Run("order", " ")]
  const RedirectSpan13: seq<Run> := [Run("status", " "), Run("ORD", "-"), Run("1234", "’ ")]
  const RedirectSpan14: seq<Run> := [Run("or", " ‘"), Run("What", " "), Run("is", " ")]
  const RedirectSpan15: seq<Run> := [Run("your", " "), Run("return", " ")]
  const RedirectSpan16: seq<Run> := [Run("policy", "?’")]
  const RedirectRuns: seq<Run> :=
    RedirectSpan1 + RedirectSpan2 + RedirectSpan3 + RedirectSpan4 + RedirectSpan5 + RedirectSpan6
    + RedirectSpan7 + RedirectSpan8 + RedirectSpan9 + RedirectSpan10 + RedirectSpan11 + RedirectSpan12
    + RedirectSpan13 + RedirectSpan14 + RedirectSpan15 + RedirectSpan16

  /** The runs spell out the text, and they are well formed. */
  lemma RedirectSpelled()
    ensures Render(RedirectRuns) == GentleRedirect && WellFormed(RedirectRuns)
  {
    RedirectSpan1Spelled();
    RedirectSpan2Spelled();
    RedirectSpan3Spelled();
    RedirectSpan4Spelled();
    RedirectSpan5Spelled();
    RedirectSpan6Spelled();
    RedirectSpan7Spelled();
    RedirectSpan8Spelled();
    RedirectSpan9Spelled();
    RedirectSpan10Spelled();
    RedirectSpan11Spelled();
    RedirectSpan12Spelled();
    RedirectSpan13Spelled();
    RedirectSpan14Spelled();
    RedirectSpan15Spelled();
    RedirectSpan16Spelled();
    RedirectSpan1WellFormed();
    RedirectSpan2WellFormed();
    RedirectSpan3WellFormed();
    RedirectSpan4WellFormed();
    RedirectSpan5WellFormed();
    RedirectSpan6WellFormed();
    RedirectSpan7WellFormed();
    RedirectSpan8WellFormed();
    RedirectSpan9WellFormed();
    RedirectSpan10WellFormed();
    RedirectSpan11WellFormed();
    RedirectSpan12WellFormed();
    RedirectSpan13WellFormed();
    RedirectSpan14WellFormed();
    RedirectSpan15WellFormed();
    RedirectSpan16WellFormed();
    RenderAppend(RedirectSpan1, RedirectSpan2);
    WellFormedAppend(RedirectSpan1, RedirectSpan2);
    RenderAppend(RedirectSpan1 + RedirectSpan2, RedirectSpan3);
    WellFormedAppend(RedirectSpan1 + RedirectSpan2, RedirectSpan3);
    RenderAppend(RedirectSpan1 + RedirectSpan2 + RedirectSpan3, RedirectSpan4);
    WellFormedAppend(RedirectSpan1 + RedirectSpan2 + RedirectSpan3, RedirectSpan4);
    RenderAppend(RedirectSpan1 + RedirectSpan2 + RedirectSpan3 + RedirectSpan4, RedirectSpan5);
    WellFormedAppend(RedirectSpan1 + RedirectSpan2 + RedirectSpan3 + RedirectSpan4, RedirectSpan5);
    RenderAppend(RedirectSpan1 + RedirectSpan2 + RedirectSpan3 + RedirectSpan4 + RedirectSpan5, RedirectSpan6);
    WellFormedAppend(RedirectSpan1 + RedirectSpan2 + RedirectSpan3 + RedirectSpan4 + RedirectSpan5, RedirectSpan6);
    RenderAppend(RedirectSpan1 + RedirectSpan2 + RedirectSpan3 + RedirectSpan4 + RedirectSpan5 + RedirectSpan6, RedirectSpan7);
    WellFormedAppend(RedirectSpan1 + RedirectSpan2 + RedirectSpan3 + RedirectSpan4 + RedirectSpan5 + RedirectSpan6, RedirectSpan7);
    RenderAppend(RedirectSpan1 + RedirectSpan2 + RedirectSpan3 + RedirectSpan4 + RedirectSpan5 + RedirectSpan6 + RedirectSpan7, RedirectSpan8);
    WellFormedAppend(RedirectSpan1 + RedirectSpan2 + RedirectSpan3 + RedirectSpan4 + RedirectSpan5 + RedirectSpan6 + RedirectSpan7, RedirectSpan8);
    RenderAppend(RedirectSpan1 + RedirectSpan2 + RedirectSpan3 + RedirectSpan4 + RedirectSpan5 + RedirectSpan6 + RedirectSpan7 + RedirectSpan8, RedirectSpan9);
    WellFormedAppend(RedirectSpan1 + RedirectSpan2 + RedirectSpan3 + RedirectSpan4 + RedirectSpan5 + RedirectSpan6 + RedirectSpan7 + RedirectSpan8, RedirectSpan9);
    RenderAppend(RedirectSpan1 + RedirectSpan2 + RedirectSpan3 + RedirectSpan4 + RedirectSpan5 + RedirectSpan6 + RedirectSpan7 + RedirectSpan8 + RedirectSpan9, RedirectSpan10);
    WellFormedAppend(RedirectSpan1 + RedirectSpan2 + RedirectSpan3 + RedirectSpan4 + RedirectSpan5 + RedirectSpan6 + RedirectSpan7 + RedirectSpan8 + RedirectSpan9, RedirectSpan10);
    RenderAppend(RedirectSpan1 + RedirectSpan2 + RedirectSpan3 + RedirectSpan4 + RedirectSpan5 + RedirectSpan6 + RedirectSpan7 + RedirectSpan8 + RedirectSpan9 + RedirectSpan10, RedirectSpan11);
    WellFormedAppend(RedirectSpan1 + RedirectSpan2 + RedirectSpan3 + RedirectSpan4 + RedirectSpan5 + RedirectSpan6 + RedirectSpan7 + RedirectSpan8 + RedirectSpan9 + RedirectSpan10, RedirectSpan11);
    RenderAppend(RedirectSpan1 + RedirectSpan2 + RedirectSpan3 + RedirectSpan4 + RedirectSpan5 + RedirectSpan6 + RedirectSpan7 + RedirectSpan8 + RedirectSpan9 + RedirectSpan10 + RedirectSpan11, RedirectSpan12);
    WellFormedAppend(RedirectSpan1 + RedirectSpan2 + RedirectSpan3 + RedirectSpan4 + RedirectSpan5 + RedirectSpan6 + RedirectSpan7 + RedirectSpan8 + RedirectSpan9 + RedirectSpan10 + RedirectSpan11, RedirectSpan12);
    RenderAppend(RedirectSpan1 + RedirectSpan2 + RedirectSpan3 + RedirectSpan4 + RedirectSpan5 + RedirectSpan6 + RedirectSpan7 + RedirectSpan8 + RedirectSpan9 + RedirectSpan10 + RedirectSpan11 + RedirectSpan12, RedirectSpan13);
    WellFormedAppend(RedirectSpan1 + RedirectSpan2 + RedirectSpan3 + RedirectSpan4 + RedirectSpan5 + RedirectSpan6 + RedirectSpan7 + RedirectSpan8 + RedirectSpan9 + RedirectSpan10 + RedirectSpan11 + RedirectSpan12, RedirectSpan13);
    RenderAppend(RedirectSpan1 + RedirectSpan2 + RedirectSpan3 + RedirectSpan4 + RedirectSpan5 + RedirectSpan6 + RedirectSpan7 + RedirectSpan8 + RedirectSpan9 + RedirectSpan10 + RedirectSpan11 + RedirectSpan12 + RedirectSpan13, RedirectSpan14);
    WellFormedAppend(RedirectSpan1 + RedirectSpan2 + RedirectSpan3 + RedirectSpan4 + RedirectSpan5 + RedirectSpan6 + RedirectSpan7 + RedirectSpan8 + RedirectSpan9 + RedirectSpan10 + RedirectSpan11 + RedirectSpan12 + RedirectSpan13, RedirectSpan14);
    RenderAppend(RedirectSpan1 + RedirectSpan2 + RedirectSpan3 + RedirectSpan4 + RedirectSpan5 + RedirectSpan6 + RedirectSpan7 + RedirectSpan8 + RedirectSpan9 + RedirectSpan10 + RedirectSpan11 + RedirectSpan12 + RedirectSpan13 + RedirectSpan14, RedirectSpan15);
    WellFormedAppend(RedirectSpan1 + RedirectSpan2 + RedirectSpan3 + RedirectSpan4 + RedirectSpan5 + RedirectSpan6 + RedirectSpan7 + RedirectSpan8 + RedirectSpan9 + RedirectSpan10 + RedirectSpan11 + RedirectSpan12 + RedirectSpan13 + RedirectSpan14, RedirectSpan15);
    RenderAppend(RedirectSpan1 + RedirectSpan2 + RedirectSpan3 + RedirectSpan4 + RedirectSpan5 + RedirectSpan6 + RedirectSpan7 + RedirectSpan8 + RedirectSpan9 + RedirectSpan10 + RedirectSpan11 + RedirectSpan12 + RedirectSpan13 + RedirectSpan14 + RedirectSpan15, RedirectSpan16);
    WellFormedAppend(RedirectSpan1 + RedirectSpan2 + RedirectSpan3 + RedirectSpan4 + RedirectSpan5 + RedirectSpan6 + RedirectSpan7 + RedirectSpan8 + RedirectSpan9 + RedirectSpan10 + RedirectSpan11 + RedirectSpan12 + RedirectSpan13 + RedirectSpan14 + RedirectSpan15, RedirectSpan16);
  }

  /** No run starts a screened phrase. */
  lemma RedirectScreened()
    ensures PhrasesExcluded(RedirectRuns)
  {
    RedirectSpan1Screened();
    RedirectSpan2Screened();
    RedirectSpan3Screened();
    RedirectSpan4Screened();
    RedirectSpan5Screened();
    RedirectSpan6Screened();
    RedirectSpan7Screened();
    RedirectSpan8Screened();
    RedirectSpan9Screened();
    RedirectSpan10Screened();
    RedirectSpan11Screened();
    RedirectSpan12Screened();
    RedirectSpan13Screened();
    RedirectSpan14Screened();
    RedirectSpan15Screened();
    RedirectSpan16Screened();
    PhrasesExcludedAppend(RedirectSpan1, RedirectSpan2);
    PhrasesExcludedAppend(RedirectSpan1 + RedirectSpan2, RedirectSpan3);
    PhrasesExcludedAppend(RedirectSpan1 + RedirectSpan2 + RedirectSpan3, RedirectSpan4);
    PhrasesExcludedAppend(RedirectSpan1 + RedirectSpan2 + RedirectSpan3 + RedirectSpan4, RedirectSpan5);
    PhrasesExcludedAppend(RedirectSpan1 + RedirectSpan2 + RedirectSpan3 + RedirectSpan4 + RedirectSpan5, RedirectSpan6);
    PhrasesExcludedAppend(RedirectSpan1 + RedirectSpan2 + RedirectSpan3 + RedirectSpan4 + RedirectSpan5 + RedirectSpan6, RedirectSpan7);
    PhrasesExcludedAppend(RedirectSpan1 + RedirectSpan2 + RedirectSpan3 + RedirectSpan4 + RedirectSpan5 + RedirectSpan6 + RedirectSpan7, RedirectSpan8);
    PhrasesExcludedAppend(RedirectSpan1 + RedirectSpan2 + RedirectSpan3 + RedirectSpan4 + RedirectSpan5 + RedirectSpan6 + RedirectSpan7 + RedirectSpan8, RedirectSpan9);
    PhrasesExcludedAppend(RedirectSpan1 + RedirectSpan2 + RedirectSpan3 + RedirectSpan4 + RedirectSpan5 + RedirectSpan6 + RedirectSpan7 + RedirectSpan8 + RedirectSpan9, RedirectSpan10);
    PhrasesExcludedAppend(RedirectSpan1 + RedirectSpan2 + RedirectSpan3 + RedirectSpan4 + RedirectSpan5 + RedirectSpan6 + RedirectSpan7 + RedirectSpan8 + RedirectSpan9 + RedirectSpan10, RedirectSpan11);
    PhrasesExcludedAppend(RedirectSpan1 + RedirectSpan2 + RedirectSpan3 + RedirectSpan4 + RedirectSpan5 + RedirectSpan6 + RedirectSpan7 + RedirectSpan8 + RedirectSpan9 + RedirectSpan10 + RedirectSpan11, RedirectSpan12);
    PhrasesExcludedAppend(RedirectSpan1 + RedirectSpan2 + RedirectSpan3 + RedirectSpan4 + RedirectSpan5 + RedirectSpan6 + RedirectSpan7 + RedirectSpan8 + RedirectSpan9 + RedirectSpan10 + RedirectSpan11 + RedirectSpan12, RedirectSpan13);
    PhrasesExcludedAppend(RedirectSpan1 + RedirectSpan2 + RedirectSpan3 + RedirectSpan4 + RedirectSpan5 + RedirectSpan6 + RedirectSpan7 + RedirectSpan8 + RedirectSpan9 + RedirectSpan10 + RedirectSpan11 + RedirectSpan12 + RedirectSpan13, RedirectSpan14);
    PhrasesExcludedAppend(RedirectSpan1 + RedirectSpan2 + RedirectSpan3 + RedirectSpan4 + RedirectSpan5 + RedirectSpan6 + RedirectSpan7 + RedirectSpan8 + RedirectSpan9 + RedirectSpan10 + RedirectSpan11 + RedirectSpan12 + RedirectSpan13 + RedirectSpan14, RedirectSpan15);
    PhrasesExcludedAppend(RedirectSpan1 + RedirectSpan2 + RedirectSpan3 + RedirectSpan4 + RedirectSpan5 + RedirectSpan6 + RedirectSpan7 + RedirectSpan8 + RedirectSpan9 + RedirectSpan10 + RedirectSpan11 + RedirectSpan12 + RedirectSpan13 + RedirectSpan14 + RedirectSpan15, RedirectSpan16);
  }

  lemma RedirectSpan1Spelled()
    ensures Render(RedirectSpan1) == "I’m here "
  {
  }

  lemma RedirectSpan1WellFormed()
    ensures WellFormed(RedirectSpan1)
  {
  }

  lemma RedirectSpan1Screened()
    ensures forall j, k :: 0 <= j < |ScreeningPatterns| && 0 <= k < |ScreeningPatterns[j]| ==>
      ExcludedFrom(ScreeningPatterns[j][k], RedirectSpan1)
  {
  }

  lemma RedirectSpan2Spelled()
    ensures Render(RedirectSpan2) == "to help. "
  {
  }

  lemma RedirectSpan2WellFormed()
    ensures WellFormed(RedirectSpan2)
  {
  }

  lemma RedirectSpan2Screened()
    ensures forall j, k :: 0 <= j < |ScreeningPatterns| && 0 <= k < |ScreeningPatterns[j]| ==>
      ExcludedFrom(ScreeningPatterns[j][k], RedirectSpan2)
  {
  }

  lemma RedirectSpan3Spelled()
    ensures Render(RedirectSpan3) == "Let’s keep "
  {
  }

  lemma RedirectSpan3WellFormed()
    ensures WellFormed(RedirectSpan3)
  {
  }

  lemma RedirectSpan3Screened()
    ensures forall j, k :: 0 <= j < |ScreeningPatterns| && 0 <= k < |ScreeningPatterns[j]| ==>
      ExcludedFrom(ScreeningPatterns[j][k], RedirectSpan3)
  {
  }

  lemma RedirectSpan4Spelled()
    ensures Render(RedirectSpan4) == "things respectful "
  {
  }

  lemma RedirectSpan4WellFormed()
    ensures WellFormed(RedirectSpan4)
  {
  }

  lemma RedirectSpan4Screened()
    ensures forall j, k :: 0 <= j < |ScreeningPatterns| && 0 <= k < |ScreeningPatterns[j]| ==>
      ExcludedFrom(ScreeningPatterns[j][k], RedirectSpan4)
  {
  }

  lemma RedirectSpan5Spelled()
    ensures Render(RedirectSpan5) == "so I can "
  {
  }

  lemma RedirectSpan5WellFormed()
    ensures WellFormed(RedirectSpan5)
  {
  }

  lemma RedirectSpan5Screened()
    ensures forall j, k :: 0 <= j < |ScreeningPatterns| && 0 <= k < |ScreeningPatterns[j]| ==>
      ExcludedFrom(ScreeningPatterns[j][k], RedirectSpan5)
  {
  }

  lemma RedirectSpan6Spelled()
    ensures Render(RedirectSpan6) == "assist you "
  {
  }

  lemma RedirectSpan6WellFormed()
    ensures WellFormed(RedirectSpan6)
  {
  }

  lemma RedirectSpan6Screened()
    ensures forall j, k :: 0 <= j < |ScreeningPatterns| && 0 <= k < |ScreeningPatterns[j]| ==>
      ExcludedFrom(ScreeningPatterns[j][k], RedirectSpan6)
  {
  }

  lemma RedirectSpan7Spelled()
    ensures Render(RedirectSpan7) == "quickly. "
  {
  }

  lemma RedirectSpan7WellFormed()
    ensures WellFormed(RedirectSpan7)
  {
  }

  lemma RedirectSpan7Screened()
    ensures forall j, k :: 0 <= j < |ScreeningPatterns| && 0 <= k < |ScreeningPatterns[j]| ==>
      ExcludedFrom(ScreeningPatterns[j][k], RedirectSpan7)
  {
  }

  lemma RedirectSpan8Spelled()
    ensures Render(RedirectSpan8) == "Could you please "
  {
  }

  lemma RedirectSpan8WellFormed()
    ensures WellFormed(RedirectSpan8)
  {
  }

  lemma RedirectSpan8Screened()
    ensures forall j, k :: 0 <= j < |ScreeningPatterns| && 0 <= k < |ScreeningPatterns[j]| ==>
      ExcludedFrom(ScreeningPatterns[j][k], RedirectSpan8)
  {
  }

  lemma RedirectSpan9Spelled()
    ensures Render(RedirectSpan9) == "restate your "
  {
  }

  lemma RedirectSpan9WellFormed()
    ensures WellFormed(RedirectSpan9)
  {
  }

  lemma RedirectSpan9Screened()
    ensures forall j, k :: 0 <= j < |ScreeningPatterns| && 0 <= k < |ScreeningPatterns[j]| ==>
      ExcludedFrom(ScreeningPatterns[j][k], RedirectSpan9)
  {
  }

  lemma RedirectSpan10Spelled()
    ensures Render(RedirectSpan10) == "request? For "
  {
  }

  lemma RedirectSpan10WellFormed()
    ensures WellFormed(RedirectSpan10)
  {
  }

  lemma RedirectSpan10Screened()
    ensures forall j, k :: 0 <= j < |ScreeningPatterns| && 0 <= k < |ScreeningPatterns[j]| ==>
      ExcludedFrom(ScreeningPatterns[j][k], RedirectSpan10)
  {
  }

  lemma RedirectSpan11Spelled()
    ensures Render(RedirectSpan11) == "example: ‘Please "
  {
  }

  lemma RedirectSpan11WellFormed()
    ensures WellFormed(RedirectSpan11)
  {
  }

  lemma RedirectSpan11Screened()
    ensures forall j, k :: 0 <= j < |ScreeningPatterns| && 0 <= k < |ScreeningPatterns[j]| ==>
      ExcludedFrom(ScreeningPatterns[j][k], RedirectSpan11)
  {
  }

  lemma RedirectSpan12Spelled()
    ensures Render(RedirectSpan12) == "check my order "
  {
  }

  lemma RedirectSpan12WellFormed()
    ensures WellFormed(RedirectSpan12)
  {
  }

  lemma RedirectSpan12Screened()
    ensures forall j, k :: 0 <= j < |ScreeningPatterns| && 0 <= k < |ScreeningPatterns[j]| ==>
      ExcludedFrom(ScreeningPatterns[j][k], RedirectSpan12)
  {
  }

  lemma RedirectSpan13Spelled()
    ensures Render(RedirectSpan13) == "status ORD-1234’ "
  {
  }

  lemma RedirectSpan13WellFormed()
    ensures WellFormed(RedirectSpan13)
  {
  }

  lemma RedirectSpan13Screened()
    ensures forall j, k :: 0 <= j < |ScreeningPatterns| && 0 <= k < |ScreeningPatterns[j]| ==>
      ExcludedFrom(ScreeningPatterns[j][k], RedirectSpan13)
  {
  }

  lemma RedirectSpan14Spelled()
    ensures Render(RedirectSpan14) == "or ‘What is "
  {
  }

  lemma RedirectSpan14WellFormed()
    ensures WellFormed(RedirectSpan14)
  {
  }

  lemma RedirectSpan14Screened()
    ensures forall j, k :: 0 <= j < |ScreeningPatterns| && 0 <= k < |ScreeningPatterns[j]| ==>
      ExcludedFrom(ScreeningPatterns[j][k], RedirectSpan14)
  {
  }

  lemma RedirectSpan15Spelled()
    ensures Render(RedirectSpan15) == "your return "
  {
  }

  lemma RedirectSpan15WellFormed()
    ensures WellFormed(RedirectSpan15)
  {
  }

  lemma RedirectSpan15Screened()
    ensures forall j, k :: 0 <= j < |ScreeningPatterns| && 0 <= k < |ScreeningPatterns[j]| ==>
      ExcludedFrom(ScreeningPatterns[j][k], RedirectSpan15)
  {
  }

  lemma RedirectSpan16Spelled()
    ensures Render(RedirectSpan16) == "policy?’"
  {
  }

  lemma RedirectSpan16WellFormed()
    ensures WellFormed(RedirectSpan16)
  {
  }

  lemma RedirectSpan16Screened()
    ensures forall j, k :: 0 <= j < |ScreeningPatterns| && 0 <= k < |ScreeningPatterns[j]| ==>
      ExcludedFrom(ScreeningPatterns[j][k], RedirectSpan16)
  {
  }
}
