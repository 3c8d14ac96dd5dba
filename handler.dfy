// `handle_user_message` as the program runs it: the classifier loops are
// executed in order and the outgoing metadata is written into the caller's
// own dict, which the caller therefore sees changed afterwards.

module Handler {
  import opened Wrappers
  import opened Classifiers
  import opened OrderTool
  import opened Routing

  /** A mutable string-keyed dict, as the caller's `model_settings.metadata`. */
  class MetadataDict {
    var entries: map<string, string>

    constructor (entries: map<string, string>)
      ensures this.entries == entries
    {
      this.entries := entries;
    }

    /** `d[key] = value` */
    method Set(key: string, value: string)
      modifies this
      ensures entries == old(entries)[key := value]
    {
      entries := entries[key := value];
    }
  }

  /**
   * `handle_user_message(message, customer_id, ModelSettings(toolChoice, metadata))`,
   * where a null metadata stands for None.  The action is the one the routing
   * policy prescribes for the caller's metadata as it was on entry.  A
   * non-empty caller dict is the very dict that receives "customer_id" and
   * travels with a tool run; None or an empty dict is replaced by a fresh one
   * and the caller's object is left alone.
   */
  method HandleUserMessage(message: string, customerId: string, toolChoice: string, metadata: MetadataDict?)
    returns (action: Action)
    modifies metadata
    ensures action == Route(message, customerId,
      ModelSettings(toolChoice, if metadata == null then None else Some(old(metadata.entries))))
    ensures metadata != null ==>
      metadata.entries == (if ReachesToolStep(message) && old(metadata.entries) != map[]
                           then old(metadata.entries)[CustomerIdKey := customerId]
                           else old(metadata.entries))
    ensures metadata != null && old(metadata.entries) != map[] && action.ToolRun? ==>
      action.metadata == metadata.entries
  {
    var negative := IsNegativeOrOffensive(message);
    var orderIntent := IsOrderIntent(message);
    var orderId := ExtractOrderId(message);
    var context := Context(message, customerId);

    if negative {
      return Handoff(NegativeReason, context);
    }

    var faqAnswer := MatchFaq(message);
    if faqAnswer.Some? && !orderIntent {
      return DirectAnswer(faqAnswer.value);
    }

    var responseMetadata: MetadataDict;
    if metadata != null && metadata.entries != map[] {
      responseMetadata := metadata;
    } else {
      responseMetadata := new MetadataDict(map[]);
    }
    responseMetadata.Set(CustomerIdKey, customerId);

    if orderIntent {
      if toolChoice == RequiredToolChoice {
        if OrderToolEnabled(ContextMap(context)) && orderId.Some? {
          return ToolRun(orderId.value, RequiredRequest(orderId.value), RequiredToolChoice, context,
                         responseMetadata.entries);
        } else {
          return Handoff(ToolUnavailableReason, context);
        }
      } else {
        if orderId.Some? {
          return ToolRun(orderId.value, AutoRequest(orderId.value), AutoToolChoice, context,
                         responseMetadata.entries);
        } else {
          return Clarify(ClarifyPrompt);
        }
      }
    }

    if IsComplex(message) {
      return Handoff(ComplexReason, context);
    }
    return DirectAnswer(DefaultHelp);
  }
}
