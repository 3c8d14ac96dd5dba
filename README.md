# Smart support bot: the routing core

This project models the message-routing core of `smart_support_bot.py`. The core is a customer-support front end:
- It screens each message for offensive or negative wording.
- It answers a small set of FAQs.
- It looks up orders through a `get_order_status` tool.
- It hands difficult conversations to a human agent.

The project models four parts:

- **Text** (`text.dfy`): ASCII lower and upper case, substring search, the regular expression `\b` word boundary, `str.split()` and `str.join`.
- **Classifiers** (`classifiers.dfy`):
  - `is_order_intent`;
  - `extract_order_id`, the leftmost `\bORD[- ]?(\d{3,6})\b` match on the upper-cased text, rewritten as `ORD-<digits>`;
  - `is_negative_or_offensive`: the four screening patterns, written as lists of literal alternatives with `\*?` spelled out;
  - `match_faq`, over the FAQ table in declaration order.

  The two early-exit search loops are methods, each proved equal to a function.
- **Guardrail and tool** (`guardrail.dfy`, `order_tool.dfy`):
  - `civility_guardrail_fn` and its fixed redirect text;
  - the tool gate `_order_tool_enabled`;
  - the friendly error text `_order_tool_error`;
  - the status formatter of `get_order_status` over the simulated order table.
- **Routing** (`routing.dfy`, `handler.dfy`):
  - `handle_user_message` as a pure function `Route`. It returns an `Action`: a direct answer, a hand-off, a tool run or a clarification prompt.
  - The same cascade as a method `HandleUserMessage`. The method writes `customer_id` into the caller's dict in place, as the code does.

`word_runs.dfy` is a proof device, not part of the program. It describes a literal text as a list of words and the gaps between them. With it, the model certifies which screening phrases and keywords a fixed text does or does not contain. That is how the project proves that the guardrail's redirect passes the guardrail itself. `demos.dfy` routes each of the seven demonstration messages of the program's `__main__` block through the model.

Three behaviours of the code are worth spelling out:
- **`tool_choice` values.** The comment on `ModelSettings.tool_choice` (line 158) names only `"auto"` and `"required"`. Every value other than `"required"` is treated as `"auto"`; nothing is rejected (`Routing.OtherToolChoiceActsAsAuto`).
- **Caller's metadata.** The code writes `customer_id` into the caller's own dict whenever that dict is non-empty and the message passes the screening and FAQ steps. `Handler.HandleUserMessage` states this in place. `None` and an empty dict are both falsy, so they get a fresh dict.
- **Demo 7.** The program presents Demo 7 as "Complex/ambiguous → Handoff". The message does meet the complexity heuristic, since it contains "legal". It also contains "warranty" and no order word, so the FAQ step answers it first (`Demos.WarrantyClaimAnsweredNotHandedOff`).

## Model

| member | source | states |
|---|---|---|
| Text.Lower | smart_support_bot.py:62 | `str.lower`: same length, each character folded by the ASCII mapping; `LowerAppend` shows it distributes over concatenation, `LowerOfUpper` that upper-casing first changes nothing, `CaseMapPreservesClasses` that word characters and digits stay what they are |
| Text.Upper | smart_support_bot.py:67 | `str.upper`: same length, each character folded by the ASCII mapping; `UpperAppend` shows it distributes over concatenation |
| Text.LowerOfUpper | smart_support_bot.py:62-67 | lower-casing an upper-cased text gives the lower-cased text, which is why the id search on the upper-cased text and the keyword tests on the lower-cased text see the same letters |
| Text.Words | smart_support_bot.py:258 | `str.split()`: at most as many words as characters, every word non-empty and free of whitespace; `NoWordsIffBlank`, `WordsAcrossSpace` and `WordsOfJoin` carry the rest |
| Text.NoWordsIffBlank | smart_support_bot.py:258 | `message.split()` is empty exactly when the message is empty or all whitespace |
| Text.WordsAcrossSpace | smart_support_bot.py:258 | one whitespace character splits the words of the two sides apart and joins their lists |
| Text.WordsOfJoin | smart_support_bot.py:258 | splitting words joined by single spaces gives back those words, when each is non-empty and free of whitespace |
| Text.Join | smart_support_bot.py:151 | `sep.join(parts)`: the empty list gives ""; otherwise the length is the parts' total length plus one separator between each pair of neighbours; `JoinSnoc` gives the append step |
| Text.JoinSnoc | smart_support_bot.py:147-151 | joining a list with one more part appends the separator and that part, which is how appending to `parts` grows the report |
| Text.NotContainedWhenAbsent | smart_support_bot.py:63 | a text that passes the position-by-position check does not contain the substring |
| Classifiers.IsOrderIntent | smart_support_bot.py:61-63 | a text shorter than the five-letter keywords never shows order intent; `OrderIntentPadded` and `NoOrderIntentInEmpty` carry its other properties, and `Routing.FaqRule`, `RequiredModeRule` and `AutoModeRule` its role in routing |
| Classifiers.OrderIntentPadded | smart_support_bot.py:61-63 | order intent is a substring test on the lower-cased text: it survives any text around it and upper-casing |
| Classifiers.NoOrderIntentInEmpty | smart_support_bot.py:119-120 | the empty text, the gate's default, shows no order intent |
| Classifiers.FirstOrderToken | smart_support_bot.py:67 | the search result is the leftmost position where the expression matches, and None means no position matches |
| Classifiers.ExtractOrderId | smart_support_bot.py:65-71 | the result is None exactly when no position matches; otherwise it is "ORD-" plus the digits captured at the leftmost match, which is 3 to 6 digits |
| Classifiers.ExtractEmbeddedOrderId | smart_support_bot.py:65-71 | an `ORD` token in any case, with separator "-", " " or none and 3 to 6 digits, standing as a whole word after text with no id, gives "ORD-" plus exactly those digits |
| Classifiers.LongDigitRunRejected | smart_support_bot.py:67 | "ORD" followed by 7 or more digits never matches at that position |
| Classifiers.NoDigitsNoOrderId | smart_support_bot.py:65-71 | a text without digits yields None |
| Classifiers.ExtractCanonicalId | smart_support_bot.py:65-71 | an extracted id extracts to itself, so extraction is idempotent |
| Classifiers.NegativeOrOffensive | smart_support_bot.py:73-78 | a flagged text contains one of the screening alternatives in its lower-cased form; `ScreenedPhraseFlags` and `PhraseFlags` give the converse for whole words, `ScreeningIgnoresCase` the case independence, and `IsNegativeOrOffensive` the loop that computes it |
| Classifiers.IsNegativeOrOffensive | smart_support_bot.py:73-78 | the early-exit loop over the patterns returns exactly whether some pattern matches the lower-cased text |
| Classifiers.ScreeningPhrasesWellFormed | smart_support_bot.py:48-56 | each screening alternative is lower case and starts and ends with a word character |
| Classifiers.ScreenedPhraseFlags | smart_support_bot.py:48-56 | every alternative, in lower or upper case, standing as a whole word anywhere, flags the text |
| Classifiers.PhraseFlags | smart_support_bot.py:73-78 | any spelling of an alternative whose lower case is that alternative flags the text when it stands as a whole word |
| Classifiers.ScreeningIgnoresCase | smart_support_bot.py:73-78 | upper-casing a text does not change whether it is flagged |
| Classifiers.FaqFrom | smart_support_bot.py:82-84 | the answer is that of the first key from index i that occurs, and None when no key from i occurs |
| Classifiers.FaqAnswer | smart_support_bot.py:80-85 | None exactly when no key occurs in the lower-cased text; otherwise the answer of the first key in declaration order that occurs |
| Classifiers.MatchFaq | smart_support_bot.py:80-85 | the early-exit loop over the FAQ items returns the answer of the first matching key |
| Classifiers.FirstHitDecides | smart_support_bot.py:82-84 | the first matching key alone decides the answer, whatever keys after it match |
| Classifiers.FaqAnswersDistinct | smart_support_bot.py:42-46 | the three FAQ answers are pairwise different |
| Classifiers.ReturnPolicyFirst | smart_support_bot.py:42-46 | a text naming the return policy gets that answer, even if other keys occur too |
| Guardrail.CivilityGuardrail | smart_support_bot.py:95-105 | allowed exactly when the input is not flagged; an allowed input is returned unchanged, and a blocked one is replaced by the redirect; the returned text is never flagged, and a blocked input never equals it |
| Guardrail.RedirectIsCivil | smart_support_bot.py:98-102 | the fixed redirect matches none of the screening patterns |
| Guardrail.OutputPassesGuardrail | smart_support_bot.py:95-105 | screening the guardrail's own output again lets it through unchanged |
| Guardrail.BlockedVerdictsAgree | smart_support_bot.py:96-103 | all blocked inputs get the same verdict |
| Guardrail.CertifiedCivil | smart_support_bot.py:73-78 | a text whose word runs exclude every screening alternative is not flagged |
| OrderTool.OrderToolEnabled | smart_support_bot.py:117-122 | the gate is open exactly when the context has a last message and that message shows order intent |
| OrderTool.ReportedOrderId | smart_support_bot.py:126 | the id read with default "UNKNOWN" is empty only when the arguments themselves carry an empty id; `ErrorEchoesOrderId` states both cases |
| OrderTool.OrderToolError | smart_support_bot.py:124-132 | the text is the fixed head, the reported id and the fixed tail, and the id can be read back from it |
| OrderTool.ErrorEchoesOrderId | smart_support_bot.py:126-130 | the text quotes `args["order_id"]`, or "UNKNOWN" when the key is missing |
| OrderTool.ErrorTextDeterminesId | smart_support_bot.py:124-132 | two error texts are equal only if they report the same id |
| OrderTool.StatusParts | smart_support_bot.py:146-150 | the status part always comes first; the ETA part appears unless the ETA is empty or "N/A"; the carrier part comes last when a carrier is set |
| OrderTool.JoinedStatusParts | smart_support_bot.py:145-151 | for every record, the joined parts read "Status: <status>", then ", ETA: <eta>" when the ETA is shown, then ", Carrier: <carrier>" when a carrier is set |
| OrderTool.GetOrderStatus | smart_support_bot.py:140-151 | an id outside the table raises the missing-key error carrying that id, and only such an id does; a known id reports "Order <id> → Status: <status>", followed by ", ETA: <eta>" unless the ETA is empty or "N/A" and by ", Carrier: <carrier>" when a carrier is set |
| OrderTool.ReportStartsWithStatus | smart_support_bot.py:145-151 | every report opens with the order id and "Status: " and the order's status |
| OrderTool.KnownOrderReports | smart_support_bot.py:36-40 | the three simulated orders read as their reports, without the "N/A" ETAs and the missing carrier |
| OrderTool.UnknownOrderNotFound | smart_support_bot.py:142-144 | the well-formed but unknown id ORD-9999 raises the missing-key error |
| Routing.OutgoingMetadata | smart_support_bot.py:224-225 | "customer_id" is set to the customer; every other key is present and carries its value exactly as in the caller's dict, and None gives no other keys |
| Routing.Route | smart_support_bot.py:189-271 | for every message: a hand-off or tool run carries the message and customer as its context; a hand-off gives one of the three fixed reasons; a direct answer is a FAQ answer or the default help; a clarification is the fixed prompt; a tool run is on the id the message names, in "required" or "auto" mode; the per-branch rules below pin down which action each message gets |
| Routing.NegativeHandsOff | smart_support_bot.py:203-214 | a flagged message is handed off with its own text and customer, whatever FAQ key or order id it also holds |
| Routing.ScreenedWordHandsOff | smart_support_bot.py:203-214 | any screening alternative standing as a whole word anywhere in a message forces that hand-off |
| Routing.GuardrailMatchesRouting | smart_support_bot.py:208-214 | the guardrail blocks exactly the messages that routing hands off for their tone |
| Routing.FixedTextsDistinct | smart_support_bot.py:212-270 | the three hand-off reasons are pairwise distinct, and no FAQ answer equals the default help text |
| Routing.FaqRule | smart_support_bot.py:216-220 | a FAQ answer comes back exactly when the message is not flagged, shows no order intent and names a key; it is the answer of the first key that matches |
| Routing.FaqBeforeComplexity | smart_support_bot.py:216-258 | a FAQ hit without order intent is answered even when the message is long or names "legal" |
| Routing.GateIsOrderIntent | smart_support_bot.py:223-230 | inside the required branch the tool gate equals order intent of the message |
| Routing.RequiredModeRule | smart_support_bot.py:227-242 | with order intent and "required": a required-mode tool run on the extracted id exactly when there is one; otherwise the tool hand-off, never the clarification |
| Routing.AutoModeRule | smart_support_bot.py:243-254 | with order intent and any other tool choice: an auto-mode tool run on the extracted id exactly when there is one; otherwise the clarification prompt |
| Routing.OtherToolChoiceActsAsAuto | smart_support_bot.py:228-243 | every tool-choice value other than "required" routes exactly as "auto" |
| Routing.ToolRunMetadata | smart_support_bot.py:224-250 | a tool run carries the caller's metadata: "customer_id" is overridden with this customer and every other key is unchanged; a tool run happens only past the screening and FAQ steps and with order intent |
| Routing.IsComplex | smart_support_bot.py:258 | a text shorter than "legal" is never complex; `ComplexityRule` and `FaqBeforeComplexity` carry its place in routing, `BlankMessageGetsDefault` that a blank message is not complex |
| Routing.ComplexityRule | smart_support_bot.py:256-271 | with no flag, no order intent and no FAQ hit: a "Complex or ambiguous request." hand-off exactly when the message has over 40 words or names "complicated" or "legal"; otherwise the default help text |
| Routing.BlankMessageGetsDefault | smart_support_bot.py:256-271 | an empty or all-whitespace message gets the default help text |
| Handler.MetadataDict.Set | smart_support_bot.py:225 | the dict afterwards is the old one with the key set to the value |
| Handler.HandleUserMessage | smart_support_bot.py:189-271 | returns the action `Route` prescribes; a non-empty caller dict is written in place with "customer_id" exactly when the message reaches the tool step, and a tool run then carries the dict's contents after the write |
| Demos.ReturnPolicyQuestionAnswered | smart_support_bot.py:277-281 | Demo 1 gets the return-policy answer |
| Demos.TrackingRequestRunsTool | smart_support_bot.py:284-289 | Demo 2 goes to the agent in auto mode with ORD-1001, and its metadata is {"channel": "web", "customer_id": "CUST-789"} |
| Demos.StatusRequestRequiresTool | smart_support_bot.py:295-300 | Demo 3 passes the gate and goes to the agent in required mode with ORD-1002 |
| Demos.MissingIdAsksForId | smart_support_bot.py:303-308 | Demo 4, which shows order intent but has no id, gets the clarification prompt |
| Demos.UnknownOrderReportsError | smart_support_bot.py:311-316 | Demo 5 goes to the agent with ORD-9999; the tool raises the missing-key error, and its friendly text names ORD-9999 |
| Demos.FuriousTrackingRequestHandsOff | smart_support_bot.py:319-324 | Demo 6 is handed off for its tone, although it also asks to track an order with an id |
| Demos.WarrantyClaimAnsweredNotHandedOff | smart_support_bot.py:330-336 | Demo 7 meets the complexity heuristic but gets the warranty FAQ answer |

## Left out

- The OpenAI client, the two `Agent` objects and the `bot_agent.run` calls (lines 31, 162-184, 231-235, 246-250). These are calls into a language-model runtime. A tool run is returned as a `ToolRun` descriptor: the id, the request text, the tool-choice mode, the context and the metadata. The reply the agent would produce is not modelled.
- The `@guardrail`, `Guardrail(...)` and `@function_tool` registrations (lines 90-94, 107-112, 134-139). This is framework plumbing, and its behaviour is not visible in the repository.
- Logging (lines 26-29, 121, 131, 141 and the `[Decision]` lines). It is observability only. The exception argument of `_order_tool_error` only feeds the log, so `OrderTool.OrderToolError` does not take it.
- The printing in the `__main__` block (lines 276-337). Its seven inputs are routed in `demos.dfy`.
- A general regular-expression engine. The four screening patterns and the id pattern are modelled as the fixed alternatives they denote, with `\b` over ASCII word characters.
- Unicode case mapping, Unicode digits and Unicode whitespace. Lower and upper case, `\d` and `\w` are ASCII. `split()` whitespace is the ASCII whitespace set plus `\x1c`-`\x1f`.
- Metadata values of types other than string. The caller's dict is modelled as `map<string, string>`.
- Handler.HandleUserMessage: a tool run carries a copy of the dict's contents after the write. The program passes the dict object itself on to the agent; `Action` is a value, so that sharing is not modelled.
- The FAQ and order tables are modelled as the constants the code declares. The model does not cover other table contents.

