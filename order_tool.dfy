// The `get_order_status` tool: its enablement gate, its friendly error text
// and its formatter over the simulated order table.

module OrderTool {
  import opened Wrappers
  import opened Classifiers
  import opened Text

  // ---------------------------------------------------------------------
  // Enablement gate
  // ---------------------------------------------------------------------

  const LastUserMessageKey: string := "last_user_message"
  const CustomerIdKey: string := "customer_id"

  /** `_order_tool_enabled`: order intent of the context's last message, read with default "". */
  function OrderToolEnabled(context: map<string, string>): (enabled: bool)
    ensures enabled <==> LastUserMessageKey in context && IsOrderIntent(context[LastUserMessageKey])
  {
    NoOrderIntentInEmpty();
    IsOrderIntent(if LastUserMessageKey in context then context[LastUserMessageKey] else "")
  }

  // ---------------------------------------------------------------------
  // Error text
  // ---------------------------------------------------------------------

  const OrderIdKey: string := "order_id"
  const UnknownOrderId: string := "UNKNOWN"

  const ErrorHead: string := "Sorry, I couldn’t find details for order '"
  const ErrorTail: string :=
    "'. " + "Please double-check the ID (e.g., ORD-1001) or ask me to connect you to a human agent."

  /** `args.get("order_id", "UNKNOWN")`: the default is never empty, so an empty id was passed in. */
  function ReportedOrderId(args: map<string, string>): (id: string)
    ensures id == "" ==> OrderIdKey in args && args[OrderIdKey] == ""
  {
    if OrderIdKey in args then args[OrderIdKey] else UnknownOrderId
  }

  /** Reads back the id quoted in an error text (the inverse of the formatting below). */
  function QuotedOrderId(msg: string): string {
    if |ErrorHead| + |ErrorTail| <= |msg| then msg[|ErrorHead|..|msg| - |ErrorTail|] else ""
  }

  /** `_order_tool_error`; the exception argument only feeds the log and is not modelled. */
  function OrderToolError(args: map<string, string>): (msg: string)
    ensures |msg| == |ErrorHead| + |ReportedOrderId(args)| + |ErrorTail|
    ensures msg[..|ErrorHead|] == ErrorHead
    ensures msg[|msg| - |ErrorTail|..] == ErrorTail
    ensures QuotedOrderId(msg) == ReportedOrderId(args)
  {
    var m := ErrorHead + ReportedOrderId(args) + ErrorTail;
    assert m[..|ErrorHead|] == ErrorHead;
    assert m[|ErrorHead|..|m| - |ErrorTail|] == ReportedOrderId(args);
    m
  }

  /** The text names the requested id, or "UNKNOWN" when the arguments carry none. */
  lemma ErrorEchoesOrderId(args: map<string, string>)
    ensures OrderIdKey in args ==> QuotedOrderId(OrderToolError(args)) == args[OrderIdKey]
    ensures OrderIdKey !in args ==> QuotedOrderId(OrderToolError(args)) == "UNKNOWN"
  {
  }

  /** Different reported ids give different texts. */
  lemma ErrorTextDeterminesId(a: map<string, string>, b: map<string, string>)
    requires OrderToolError(a) == OrderToolError(b)
    ensures ReportedOrderId(a) == ReportedOrderId(b)
  {
    assert QuotedOrderId(OrderToolError(a)) == QuotedOrderId(OrderToolError(b));
  }

  // ---------------------------------------------------------------------
  // Simulated order table and status formatter
  // ---------------------------------------------------------------------

  datatype OrderRecord = OrderRecord(status: string, eta: string, carrier: Option<string>)

  const Orders: map<string, OrderRecord> := map[
    "ORD-1001" := OrderRecord("Shipped", "2-3 business days", Some("DHL")),
    "ORD-1002" := OrderRecord("Processing", "N/A", None),
    "ORD-1003" := OrderRecord("Delivered", "N/A", Some("FedEx"))
  ]

  /** `data["eta"] and data["eta"] != "N/A"` */
  predicate ShowsEta(r: OrderRecord) {
    r.eta != "" && r.eta != "N/A"
  }

  /** `data["carrier"]` is truthy: present and not the empty string. */
  predicate ShowsCarrier(r: OrderRecord) {
    r.carrier.Some? && r.carrier.value != ""
  }

  /** The report fragments for one order, in the order they are appended. */
  function StatusParts(r: OrderRecord): (parts: seq<string>)
    ensures |parts| == 1 + (if ShowsEta(r) then 1 else 0) + (if ShowsCarrier(r) then 1 else 0)
    ensures parts[0] == "Status: " + r.status
    ensures ShowsEta(r) ==> parts[1] == "ETA: " + r.eta
    ensures ShowsCarrier(r) ==> parts[|parts| - 1] == "Carrier: " + r.carrier.value
  {
    ["Status: " + r.status]
    + (if ShowsEta(r) then ["ETA: " + r.eta] else [])
    + (if ShowsCarrier(r) then ["Carrier: " + r.carrier.value] else [])
  }

  /** The joined report fragments of any record, written out. */
  lemma JoinedStatusParts(r: OrderRecord)
    ensures Join(StatusParts(r), ", ")
      == "Status: " + r.status
         + (if ShowsEta(r) then ", ETA: " + r.eta else "")
         + (if ShowsCarrier(r) then ", Carrier: " + r.carrier.value else "")
  {
    var head := ["Status: " + r.status];
    var withEta := head + (if ShowsEta(r) then ["ETA: " + r.eta] else []);
    var etaText := if ShowsEta(r) then ", ETA: " + r.eta else "";
    assert Join(head, ", ") == "Status: " + r.status;
    if ShowsEta(r) {
      JoinSnoc(head, "ETA: " + r.eta, ", ");
    } else {
      assert withEta == head;
    }
    assert Join(withEta, ", ") == "Status: " + r.status + etaText;
    if ShowsCarrier(r) {
      JoinSnoc(withEta, "Carrier: " + r.carrier.value, ", ");
    } else {
      assert StatusParts(r) == withEta;
    }
  }

  /** The outcome of the tool: a report, or the missing-key error raised for an unknown id. */
  datatype StatusLookup = Found(report: string) | NotFound(orderId: string)

  /** `get_order_status` */
  function GetOrderStatus(orderId: string): (r: StatusLookup)
    ensures r.NotFound? <==> orderId !in Orders
    ensures r.NotFound? ==> r.orderId == orderId
    ensures r.Found? ==> var s := Orders[orderId];
      r.report == "Order " + orderId + " → Status: " + s.status
                  + (if ShowsEta(s) then ", ETA: " + s.eta else "")
                  + (if ShowsCarrier(s) then ", Carrier: " + s.carrier.value else "")
  {
    if orderId !in Orders then NotFound(orderId)
    else
      ReportText(orderId, Orders[orderId]);
      Found("Order " + orderId + " → " + Join(StatusParts(Orders[orderId]), ", "))
  }

  /** The report line for an id and its record, written out. */
  lemma ReportText(orderId: string, r: OrderRecord)
    ensures "Order " + orderId + " → " + Join(StatusParts(r), ", ")
      == "Order " + orderId + " → Status: " + r.status
         + (if ShowsEta(r) then ", ETA: " + r.eta else "")
         + (if ShowsCarrier(r) then ", Carrier: " + r.carrier.value else "")
  {
    JoinedStatusParts(r);
    assert " → " + "Status: " == " → Status: ";
  }

  /** Every report opens with the order id and its status. */
  lemma ReportStartsWithStatus(orderId: string)
    requires orderId in Orders
    ensures var head := "Order " + orderId + " → " + ("Status: " + Orders[orderId].status);
      |head| <= |GetOrderStatus(orderId).report| && GetOrderStatus(orderId).report[..|head|] == head
  {
    ReportHead(orderId, Orders[orderId]);
  }

  lemma ReportHead(orderId: string, r: OrderRecord)
    ensures var head := "Order " + orderId + " → " + ("Status: " + r.status);
      var report := "Order " + orderId + " → " + Join(StatusParts(r), ", ");
      |head| <= |report| && report[..|head|] == head
  {
    var parts := StatusParts(r);
    var lead := "Order " + orderId + " → ";
    var report := lead + Join(parts, ", ");
    if |parts| > 1 {
      assert Join(parts, ", ") == parts[0] + (", " + Join(parts[1..], ", "));
    }
    assert report[..|lead| + |parts[0]|] == lead + parts[0];
  }

  /**
   * The three simulated orders, as their reports read: the ETA is hidden
   * when it is "N/A" and the carrier when there is none.
   */
  lemma KnownOrderReports()
    ensures GetOrderStatus("ORD-1001")
      == Found("Order " + "ORD-1001" + " → Status: " + "Shipped" + ", ETA: " + "2-3 business days" + ", Carrier: " + "DHL")
    ensures GetOrderStatus("ORD-1002") == Found("Order " + "ORD-1002" + " → Status: " + "Processing")
    ensures GetOrderStatus("ORD-1003") == Found("Order " + "ORD-1003" + " → Status: " + "Delivered" + ", Carrier: " + "FedEx")
  {
    ShippedReport();
    ProcessingReport();
    DeliveredReport();
  }

  lemma ShippedReport()
    ensures GetOrderStatus("ORD-1001")
      == Found("Order " + "ORD-1001" + " → Status: " + "Shipped" + ", ETA: " + "2-3 business days" + ", Carrier: " + "DHL")
  {
    var r := Orders["ORD-1001"];
    assert r == OrderRecord("Shipped", "2-3 business days", Some("DHL"));
    assert ShowsEta(r) && ShowsCarrier(r);
  }

  lemma ProcessingReport()
    ensures GetOrderStatus("ORD-1002") == Found("Order " + "ORD-1002" + " → Status: " + "Processing")
  {
    var r := Orders["ORD-1002"];
    assert r == OrderRecord("Processing", "N/A", None);
    assert !ShowsEta(r) && !ShowsCarrier(r);
    assert GetOrderStatus("ORD-1002").report == "Order " + "ORD-1002" + " → Status: " + "Processing" + "" + "";
  }

  lemma DeliveredReport()
    ensures GetOrderStatus("ORD-1003") == Found("Order " + "ORD-1003" + " → Status: " + "Delivered" + ", Carrier: " + "FedEx")
  {
    var r := Orders["ORD-1003"];
    assert r == OrderRecord("Delivered", "N/A", Some("FedEx"));
    assert !ShowsEta(r) && ShowsCarrier(r);
    assert GetOrderStatus("ORD-1003").report == "Order " + "ORD-1003" + " → Status: " + "Delivered" + "" + ", Carrier: " + "FedEx";
  }

  /** Ids outside the table, including well-formed ones such as ORD-9999, raise the missing-key error. */
  lemma UnknownOrderNotFound()
    ensures GetOrderStatus("ORD-9999") == NotFound("ORD-9999")
  {
  }
}
