// The routing policy of `handle_user_message`: a first-match cascade over
// the classifiers that yields one action per message.

module Routing {
  import opened Wrappers
  import opened Text
  import opened Classifiers
  import opened Guardrail
  import opened OrderTool

  type Metadata = map<string, string>

  /** `ModelSettings`: the tool-choice mode and an optional caller-supplied metadata dict. */
  datatype ModelSettings = ModelSettings(toolChoice: string, metadata: Option<Metadata>)

  /** The default argument `ModelSettings(tool_choice="auto", metadata=None)`. */
  const DefaultModelSettings: ModelSettings := ModelSettings(AutoToolChoice, None)

  const RequiredToolChoice: string := "required"
  const AutoToolChoice: string := "auto"

  /** The context handed to the tool gate and to the human agent. */
  datatype Context = Context(lastUserMessage: string, customerId: string)

  /** The context as the dict `{"last_user_message": ..., "customer_id": ...}`. */
  function ContextMap(c: Context): map<string, string> {
    map[LastUserMessageKey := c.lastUserMessage, CustomerIdKey := c.customerId]
  }

  /**
   * What a message is routed to.  A ToolRun stands for the call into the
   * bot agent: the order id, the request text it is given, the tool-choice
   * mode and the metadata it is passed.
   */
  datatype Action =
    | DirectAnswer(text: string)
    | Handoff(reason: string, context: Context)
    | ToolRun(orderId: string, request: string, toolChoice: string, context: Context, metadata: Metadata)
    | Clarify(prompt: string)

  const NegativeReason: string := "Detected negative sentiment or offensive language. Human empathy required."
  const ToolUnavailableReason: string := "Order tool not available or order ID missing; requires human assistance."
  const ComplexReason: string := "Complex or ambiguous request."

  const ClarifyPrompt: string := "Could you share your order ID (e.g., ORD-1001) so I can check the status?"
  const DefaultHelp: string :=
    "I can help with order tracking (share your order ID like ORD-1001) "
    + "or answer policies like shipping time, warranty, and returns."

  function RequiredRequest(orderId: string): string {
    "Fetch the status for " + orderId + "."
  }

  function AutoRequest(orderId: string): string {
    "User asks to track order " + orderId + ". Use the tool if available."
  }

  /**
   * `model_settings.metadata or {}` followed by the `customer_id` write.
   * None and the empty dict are both falsy and give a fresh empty dict.
   */
  function OutgoingMetadata(callerMetadata: Option<Metadata>, customerId: string): (m: Metadata)
    ensures CustomerIdKey in m && m[CustomerIdKey] == customerId
    ensures forall k :: k != CustomerIdKey ==>
      (k in m <==> callerMetadata.Some? && k in callerMetadata.value)
    ensures forall k :: k != CustomerIdKey && k in m ==> m[k] == callerMetadata.value[k]
  {
    var base := if callerMetadata.Some? then callerMetadata.value else map[];
    base[CustomerIdKey := customerId]
  }

  /**
   * The escalation heuristic: more than 40 whitespace-separated words, or
   * "complicated" or "legal"; so no text shorter than "legal" is complex.
   */
  predicate IsComplex(message: string): (complex: bool)
    ensures complex ==> 5 <= |message|
  {
    WordCount(message) > 40 || Contains(Lower(message), "complicated") || Contains(Lower(message), "legal")
  }

  /** The message gets past the screening and FAQ steps, which is where the metadata is written. */
  predicate ReachesToolStep(message: string) {
    !NegativeOrOffensive(message) && !(FaqAnswer(message).Some? && !IsOrderIntent(message))
  }

  /**
   * `handle_user_message` as a function of its arguments.  Whatever the
   * branch, a hand-off or a tool run carries the message and customer as its
   * context, a hand-off gives one of the three fixed reasons, a direct answer
   * is a FAQ answer or the default help, and a tool run is on the id the
   * message names, in one of the two modes.
   */
  function Route(message: string, customerId: string, settings: ModelSettings): (action: Action)
    ensures (action.Handoff? || action.ToolRun?) ==> action.context == Context(message, customerId)
    ensures action.Handoff? ==>
      action.reason == NegativeReason || action.reason == ToolUnavailableReason || action.reason == ComplexReason
    ensures action.DirectAnswer? ==>
      action.text == DefaultHelp || exists k :: 0 <= k < |Faqs| && action.text == Faqs[k].1
    ensures action.Clarify? ==> action.prompt == ClarifyPrompt
    ensures action.ToolRun? ==>
      ExtractOrderId(message) == Some(action.orderId)
      && (action.toolChoice == RequiredToolChoice || action.toolChoice == AutoToolChoice)
  {
    var negative := NegativeOrOffensive(message);
    var orderIntent := IsOrderIntent(message);
    var orderId := ExtractOrderId(message);
    var context := Context(message, customerId);
    if negative then Handoff(NegativeReason, context)
    else
      var faqAnswer := FaqAnswer(message);
      if faqAnswer.Some? && !orderIntent then DirectAnswer(faqAnswer.value)
      else
        var metadata := OutgoingMetadata(settings.metadata, customerId);
        if orderIntent then
          if settings.toolChoice == RequiredToolChoice then
            if OrderToolEnabled(ContextMap(context)) && orderId.Some? then
              ToolRun(orderId.value, RequiredRequest(orderId.value), RequiredToolChoice, context, metadata)
            else
              Handoff(ToolUnavailableReason, context)
          else if orderId.Some? then
            ToolRun(orderId.value, AutoRequest(orderId.value), AutoToolChoice, context, metadata)
          else
            Clarify(ClarifyPrompt)
        else if IsComplex(message) then Handoff(ComplexReason, context)
        else DirectAnswer(DefaultHelp)
  }

  // ---------------------------------------------------------------------
  // Properties of the cascade
  // ---------------------------------------------------------------------

  /** Screening comes first: a flagged message is handed off with its own text and customer, whatever else it asks. */
  lemma NegativeHandsOff(message: string, customerId: string, settings: ModelSettings)
    requires NegativeOrOffensive(message)
    ensures Route(message, customerId, settings) == Handoff(NegativeReason, Context(message, customerId))
  {
  }

  /** A screened word anywhere in a message, standing as a whole word, forces the hand-off. */
  lemma ScreenedWordHandsOff(a: string, j: nat, k: nat, b: string, customerId: string, settings: ModelSettings)
    requires j < |ScreeningPatterns| && k < |ScreeningPatterns[j]|
    requires a == [] || !IsWordChar(a[|a| - 1])
    requires b == [] || !IsWordChar(b[0])
    ensures var message := a + ScreeningPatterns[j][k] + b;
      Route(message, customerId, settings) == Handoff(NegativeReason, Context(message, customerId))
  {
    ScreenedPhraseFlags(a, j, k, b);
  }

  /** The reasons and fixed texts are pairwise distinct, so each names its branch. */
  lemma FixedTextsDistinct()
    ensures NegativeReason != ToolUnavailableReason && NegativeReason != ComplexReason
    ensures ToolUnavailableReason != ComplexReason
    ensures forall k :: 0 <= k < |Faqs| ==> Faqs[k].1 != DefaultHelp
  {
    assert |NegativeReason| != |ToolUnavailableReason| && |NegativeReason| != |ComplexReason|;
    assert |ToolUnavailableReason| != |ComplexReason|;
    assert |Faqs[0].1| != |DefaultHelp| && |Faqs[1].1| != |DefaultHelp| && |Faqs[2].1| != |DefaultHelp|;
  }

  /** The guardrail blocks exactly the messages that routing hands off for their tone. */
  lemma GuardrailMatchesRouting(message: string, customerId: string, settings: ModelSettings)
    ensures !CivilityGuardrail(message).allowed
      <==> Route(message, customerId, settings) == Handoff(NegativeReason, Context(message, customerId))
  {
    FixedTextsDistinct();
  }

  /**
   * A FAQ answer comes back exactly when the message is not flagged, has no
   * order intent and names a FAQ key; the answer is that of the first key in
   * declaration order.
   */
  lemma FaqRule(message: string, customerId: string, settings: ModelSettings)
    ensures (exists k :: 0 <= k < |Faqs| && Route(message, customerId, settings) == DirectAnswer(Faqs[k].1))
      <==> !NegativeOrOffensive(message) && !IsOrderIntent(message) && FaqAnswer(message).Some?
    ensures !NegativeOrOffensive(message) && !IsOrderIntent(message) && FaqAnswer(message).Some? ==>
      exists k :: FirstFaqHit(Lower(message), k)
        && Route(message, customerId, settings) == DirectAnswer(Faqs[k].1)
  {
    FixedTextsDistinct();
    if !NegativeOrOffensive(message) && !IsOrderIntent(message) && FaqAnswer(message).Some? {
      var k :| FirstFaqHit(Lower(message), k) && FaqAnswer(message).value == Faqs[k].1;
      assert Route(message, customerId, settings) == DirectAnswer(Faqs[k].1);
    }
  }

  /** A FAQ hit without order intent is answered even when the message is long or mentions "legal". */
  lemma FaqBeforeComplexity(message: string, customerId: string, settings: ModelSettings)
    requires !NegativeOrOffensive(message) && !IsOrderIntent(message) && FaqAnswer(message).Some?
    requires IsComplex(message)
    ensures Route(message, customerId, settings) == DirectAnswer(FaqAnswer(message).value)
  {
  }

  /** Inside the required branch the tool gate reads back the message itself, so it is just order intent. */
  lemma GateIsOrderIntent(message: string, customerId: string)
    ensures OrderToolEnabled(ContextMap(Context(message, customerId))) == IsOrderIntent(message)
  {
    assert LastUserMessageKey != CustomerIdKey;
  }

  /**
   * With order intent and tool choice "required": a required-mode tool run on
   * the extracted id exactly when there is one, and otherwise the tool
   * hand-off, never the clarification.
   */
  lemma RequiredModeRule(message: string, customerId: string, metadata: Option<Metadata>)
    requires !NegativeOrOffensive(message) && IsOrderIntent(message)
    ensures var a := Route(message, customerId, ModelSettings(RequiredToolChoice, metadata));
      && (a.ToolRun? <==> ExtractOrderId(message).Some?)
      && (a.ToolRun? ==> a.toolChoice == RequiredToolChoice && a.orderId == ExtractOrderId(message).value
                         && a.request == RequiredRequest(a.orderId))
      && (!a.ToolRun? ==> a == Handoff(ToolUnavailableReason, Context(message, customerId)))
      && !a.Clarify?
  {
    GateIsOrderIntent(message, customerId);
  }

  /**
   * With order intent and any other tool choice: an auto-mode tool run on the
   * extracted id exactly when there is one, and otherwise the clarification
   * prompt.
   */
  lemma AutoModeRule(message: string, customerId: string, settings: ModelSettings)
    requires !NegativeOrOffensive(message) && IsOrderIntent(message)
    requires settings.toolChoice != RequiredToolChoice
    ensures var a := Route(message, customerId, settings);
      && (a.ToolRun? <==> ExtractOrderId(message).Some?)
      && (a.ToolRun? ==> a.toolChoice == AutoToolChoice && a.orderId == ExtractOrderId(message).value
                         && a.request == AutoRequest(a.orderId))
      && (!a.ToolRun? ==> a == Clarify(ClarifyPrompt))
  {
  }

  /** No tool-choice value is rejected: anything but "required" routes as "auto" does. */
  lemma OtherToolChoiceActsAsAuto(message: string, customerId: string, toolChoice: string, metadata: Option<Metadata>)
    requires toolChoice != RequiredToolChoice
    ensures Route(message, customerId, ModelSettings(toolChoice, metadata))
         == Route(message, customerId, ModelSettings(AutoToolChoice, metadata))
  {
  }

  /**
   * A tool run carries the caller's metadata with "customer_id" set to this
   * customer, overriding any earlier value, and every other key as it was.
   */
  lemma ToolRunMetadata(message: string, customerId: string, settings: ModelSettings)
    requires Route(message, customerId, settings).ToolRun?
    ensures var m := Route(message, customerId, settings).metadata;
      && CustomerIdKey in m && m[CustomerIdKey] == customerId
      && (forall k :: k != CustomerIdKey ==>
            (k in m <==> settings.metadata.Some? && k in settings.metadata.value))
      && (forall k :: k != CustomerIdKey && k in m ==> m[k] == settings.metadata.value[k])
    ensures ReachesToolStep(message) && IsOrderIntent(message)
  {
    assert ReachesToolStep(message) && IsOrderIntent(message);
    assert Route(message, customerId, settings).metadata == OutgoingMetadata(settings.metadata, customerId);
  }

  /**
   * Without a screened word, order intent or FAQ key, a message is handed off
   * as complex exactly when the escalation heuristic fires, and otherwise
   * gets the default help text.
   */
  lemma ComplexityRule(message: string, customerId: string, settings: ModelSettings)
    requires !NegativeOrOffensive(message) && !IsOrderIntent(message) && FaqAnswer(message).None?
    ensures var a := Route(message, customerId, settings);
      && (a.Handoff? <==> IsComplex(message))
      && (a.Handoff? ==> a == Handoff(ComplexReason, Context(message, customerId)))
      && (!a.Handoff? ==> a == DirectAnswer(DefaultHelp))
  {
  }

  /** No key, phrase or trigger word starts with whitespace, so none occurs in a blank text. */
  lemma BlankHasNoWord(t: string, w: string)
    requires Blank(t) && w != [] && !IsSpace(w[0])
    ensures !Contains(t, w) && !OccursAsWord(t, w)
  {
  }

  lemma LowerOfBlank(t: string)
    requires Blank(t)
    ensures Blank(Lower(t))
  {
  }

  /** An empty or all-whitespace message gets the default help text. */
  lemma BlankMessageGetsDefault(message: string, customerId: string, settings: ModelSettings)
    requires Blank(message)
    ensures Route(message, customerId, settings) == DirectAnswer(DefaultHelp)
  {
    var t := Lower(message);
    LowerOfBlank(message);
    forall j, k | 0 <= j < |ScreeningPatterns| && 0 <= k < |ScreeningPatterns[j]|
      ensures !OccursAsWord(t, ScreeningPatterns[j][k])
    {
      ScreeningPhrasesWellFormed(j, k);
      BlankHasNoWord(t, ScreeningPatterns[j][k]);
    }
    BlankHasNoWord(t, "order");
    BlankHasNoWord(t, "track");
    BlankHasNoWord(t, "status");
    BlankHasNoWord(t, Faqs[0].0);
    BlankHasNoWord(t, Faqs[1].0);
    BlankHasNoWord(t, Faqs[2].0);
    BlankHasNoWord(t, "complicated");
    BlankHasNoWord(t, "legal");
    NoWordsIffBlank(message);
  }
}
