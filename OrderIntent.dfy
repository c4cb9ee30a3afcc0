/** intents/orderIntent.js: `handleVoiceInput`, which answers order and
    product questions from the cached order list and hands everything else
    to the agent, after telling it what the orders are. */
module OrderIntent {
  import opened Outcomes
  import opened Text
  import opened Agent

  /** One order as the order service returns it. Each field is the text
      its template interpolation prints; "" stands for a falsy
      `expectedDeliveryDate`. */
  datatype OrderRecord = OrderRecord(orderNumber: string, product: string, quantity: string,
                                     status: string, orderDate: string, expectedDeliveryDate: string)

  const NoOrderDetails := "I don't have any order details for you at the moment."
  // The headers of the three listings, without their newline.
  const StatusTitle := "Your order statuses:"
  const DeliveryTitle := "The expected delivery dates for your orders:"
  const ProductTitle := "Here are the products you ordered:"

  function RecentLine(o: OrderRecord): string
  {
    "Your most recent order is: " + o.product + ", Quantity: " + o.quantity + ", Status: " + o.status
      + ", Ordered on: " + o.orderDate + "."
  }

  /** The date a delivery line shows: the order's date, or "Not available"
      when it has none. */
  function DeliveryDate(o: OrderRecord): string
  {
    if o.expectedDeliveryDate != "" then o.expectedDeliveryDate else "Not available"
  }

  /** The three per-order listings. */
  datatype Format = Statuses | Deliveries | Products

  function Title(f: Format): string
  {
    match f
    case Statuses => StatusTitle
    case Deliveries => DeliveryTitle
    case Products => ProductTitle
  }

  /** The line a listing prints for one order, without its newline. */
  function Entry(f: Format, o: OrderRecord): string
  {
    match f
    case Statuses => "Order " + o.orderNumber + " - Status: " + o.status
    case Deliveries => o.orderNumber + " - Expected Delivery Date: " + DeliveryDate(o)
    case Products => "- " + o.product
  }

  /** The lines of a listing, one per order, in list order. */
  function Entries(f: Format, orders: seq<OrderRecord>): seq<string>
  {
    if |orders| == 0 then [] else Entries(f, orders[..|orders| - 1]) + [Entry(f, orders[|orders| - 1])]
  }

  /** A listing has exactly one line per order, and line k is order k's. */
  lemma {:induction false} EntriesExact(f: Format, orders: seq<OrderRecord>)
    ensures |Entries(f, orders)| == |orders|
    ensures forall k :: 0 <= k < |orders| ==> Entries(f, orders)[k] == Entry(f, orders[k])
    decreases |orders|
  {
    if |orders| > 0 {
      var init := orders[..|orders| - 1];
      EntriesExact(f, init);
      assert forall k :: 0 <= k < |init| ==> init[k] == orders[k];
    }
  }

  /** Entries grow by one line per order. */
  lemma EntriesSnoc(f: Format, orders: seq<OrderRecord>, i: nat)
    requires i < |orders|
    ensures Entries(f, orders[..i + 1]) == Entries(f, orders[..i]) + [Entry(f, orders[i])]
  {
    assert orders[..i + 1][..i] == orders[..i];
  }

  /** The text of a listing: the title and each order's line, each
      followed by a newline. */
  function Listing(f: Format, orders: seq<OrderRecord>): string
  {
    Lines([Title(f)] + Entries(f, orders))
  }

  /** The `forEach` that builds a listing with `+=` (intents/orderIntent.js
      19-22, 25-28, 31-34). */
  method BuildListing(f: Format, orders: seq<OrderRecord>) returns (text: string)
    ensures text == Listing(f, orders)
  {
    text := Title(f) + "\n";
    ListingEmpty(f, orders[..0]);
    for i := 0 to |orders|
      invariant text == Listing(f, orders[..i])
    {
      ListingStep(f, orders, i);
      text := text + Entry(f, orders[i]) + "\n";
    }
    assert orders[..|orders|] == orders;
  }

  /** A listing of no orders is the title and its newline. */
  lemma ListingEmpty(f: Format, orders: seq<OrderRecord>)
    requires orders == []
    ensures Listing(f, orders) == Title(f) + "\n"
  {
    assert [Title(f)] + Entries(f, orders) == [Title(f)];
    LinesSnoc([], Title(f));
  }

  /** One more order adds its line and a newline at the end. */
  lemma ListingStep(f: Format, orders: seq<OrderRecord>, i: nat)
    requires i < |orders|
    ensures Listing(f, orders[..i + 1]) == Listing(f, orders[..i]) + Entry(f, orders[i]) + "\n"
  {
    var before := [Title(f)] + Entries(f, orders[..i]);
    EntriesSnoc(f, orders, i);
    assert [Title(f)] + Entries(f, orders[..i + 1]) == before + [Entry(f, orders[i])];
    LinesSnoc(before, Entry(f, orders[i]));
  }

  /** No title holds a newline. */
  lemma TitleOneLine(f: Format)
    ensures '\n' !in Title(f)
  {
    match f
    case Statuses => assert forall i :: 0 <= i < |StatusTitle| ==> StatusTitle[i] != '\n';
    case Deliveries => assert forall i :: 0 <= i < |DeliveryTitle| ==> DeliveryTitle[i] != '\n';
    case Products => assert forall i :: 0 <= i < |ProductTitle| ==> ProductTitle[i] != '\n';
  }

  /** When no line holds a newline, splitting a listing at newlines gives
      the title, one line per order in list order, and the empty piece
      after the final newline: the listing has one line more than there
      are orders, besides that empty piece. */
  lemma ListingLines(f: Format, orders: seq<OrderRecord>)
    requires forall k :: 0 <= k < |orders| ==> '\n' !in Entry(f, orders[k])
    ensures |Split(Listing(f, orders))| == |orders| + 2
    ensures Split(Listing(f, orders))[0] == Title(f)
    ensures forall k :: 0 <= k < |orders| ==> Split(Listing(f, orders))[k + 1] == Entry(f, orders[k])
    ensures Split(Listing(f, orders))[|orders| + 1] == ""
  {
    var es := Entries(f, orders);
    EntriesExact(f, orders);
    var all := [Title(f)] + es;
    TitleOneLine(f);
    assert forall k :: 0 <= k < |all| ==> '\n' !in all[k] by {
      forall k | 0 <= k < |all| ensures '\n' !in all[k] {
        if k > 0 {
          assert all[k] == es[k - 1] == Entry(f, orders[k - 1]);
        }
      }
    }
    SplitLines(all);
  }

  /** The local answer, or `None` when the input is not about orders or
      products and goes to the agent (intents/orderIntent.js:12-36). The
      test of line 12 decides alone whether the agent is asked, and an
      empty list then always gets the no-details answer, whatever the
      other keywords say. */
  function LocalReply(voiceInput: string, orders: seq<OrderRecord>): (r: Option<string>)
    ensures r.Some? <==> Contains(voiceInput, "order") || Contains(voiceInput, "product")
    ensures r.Some? && orders == [] ==> r == Some(NoOrderDetails)
  {
    if !(Contains(voiceInput, "order") || Contains(voiceInput, "product")) then None
    else if |orders| == 0 then Some(NoOrderDetails)
    else if Contains(voiceInput, "recent") then Some(RecentLine(orders[|orders| - 1]))
    else if Contains(voiceInput, "status") then Some(Listing(Statuses, orders))
    else if Contains(voiceInput, "expected delivery") || Contains(voiceInput, "delivery date") then
      Some(Listing(Deliveries, orders))
    else Some(Listing(Products, orders))
  }

  /** "recent" wins over every other sub-keyword and reads only the last
      order: whatever comes before it in the list does not matter. */
  lemma RecentReadsOnlyLast(voiceInput: string, earlier: seq<OrderRecord>, others: seq<OrderRecord>, last: OrderRecord)
    requires Contains(voiceInput, "order") || Contains(voiceInput, "product")
    requires Contains(voiceInput, "recent")
    ensures LocalReply(voiceInput, earlier + [last]) == LocalReply(voiceInput, others + [last]) == Some(RecentLine(last))
  {
    assert (earlier + [last])[|earlier|] == last;
    assert (others + [last])[|others|] == last;
  }

  /** Precedence of the sub-keywords after "recent": "status" before the
      delivery words, the delivery words before the product list. */
  lemma SubIntentPrecedence(voiceInput: string, orders: seq<OrderRecord>)
    requires Contains(voiceInput, "order") || Contains(voiceInput, "product")
    requires orders != [] && !Contains(voiceInput, "recent")
    ensures Contains(voiceInput, "status") ==> LocalReply(voiceInput, orders) == Some(Listing(Statuses, orders))
    ensures (!Contains(voiceInput, "status") &&
             (Contains(voiceInput, "expected delivery") || Contains(voiceInput, "delivery date"))) ==>
      LocalReply(voiceInput, orders) == Some(Listing(Deliveries, orders))
    ensures !Contains(voiceInput, "status") && !Contains(voiceInput, "expected delivery") && !Contains(voiceInput, "delivery date") ==>
      LocalReply(voiceInput, orders) == Some(Listing(Products, orders))
  {
  }

  /** A character that does not occur in s rules out every non-empty text
      starting with it. */
  lemma AbsentFirstChar(s: string, t: string)
    requires |t| > 0 && t[0] !in s
    ensures !Contains(s, t)
  {
    ContainsIff(s, t);
  }

  /** The keyword tests are case-sensitive and the input is not
      lower-cased here, so a question without lower-case letters, such as
      an order question in capitals, is never answered locally: it goes to
      the agent. */
  lemma CapitalsGoToAgent(voiceInput: string, orders: seq<OrderRecord>)
    requires forall i :: 0 <= i < |voiceInput| ==> !('a' <= voiceInput[i] <= 'z')
    ensures LocalReply(voiceInput, orders) == None
  {
    AbsentFirstChar(voiceInput, "order");
    AbsentFirstChar(voiceInput, "product");
  }

  /** The order of the worked example below. */
  const Widget := OrderRecord("1", "Widget", "2", "Shipped", "Jan 1, 2024", "")

  /** The question of the worked example asks for the recent order. */
  lemma AsksForRecentOrder()
    ensures Contains("what's my recent order", "order") && Contains("what's my recent order", "recent")
  {
    assert "what's my recent order" == "what's my " + "recent order";
    assert StartsWith("recent order", "recent");
    ContainsInConcat("what's my ", "recent order", "recent");
    assert "what's my recent order" == "what's my recent " + "order";
    assert StartsWith("order", "order");
    ContainsInConcat("what's my recent ", "order", "order");
  }

  /** The recent line of the worked example, written out. */
  lemma WidgetRecentLine()
    ensures RecentLine(Widget)
      == "Your most recent order is: Widget, Quantity: 2, Status: Shipped, Ordered on: Jan 1, 2024."
  {
    WidgetLineStart();
    assert "Your most recent order is: Widget, Quantity: 2" + ", Status: " + "Shipped"
        == "Your most recent order is: Widget, Quantity: 2, Status: Shipped";
    assert "Your most recent order is: Widget, Quantity: 2, Status: Shipped" + ", Ordered on: " + "Jan 1, 2024" + "."
        == "Your most recent order is: Widget, Quantity: 2, Status: Shipped, Ordered on: Jan 1, 2024.";
  }

  lemma WidgetLineStart()
    ensures "Your most recent order is: " + Widget.product + ", Quantity: " + Widget.quantity
      == "Your most recent order is: Widget, Quantity: 2"
  {
    assert "Your most recent order is: " + "Widget" == "Your most recent order is: Widget";
    assert "Your most recent order is: Widget" + ", Quantity: " + "2" == "Your most recent order is: Widget, Quantity: 2";
  }

  /** A one-order list and a question about the recent order. */
  lemma RecentWidget()
    ensures LocalReply("what's my recent order", [Widget])
            == Some("Your most recent order is: Widget, Quantity: 2, Status: Shipped, Ordered on: Jan 1, 2024.")
  {
    AsksForRecentOrder();
    WidgetRecentLine();
    assert [Widget][0] == Widget;
  }

  /** The caller's message array, which the agent path extends in place. */
  class MessageList {
    var items: seq<Message>

    constructor (initial: seq<Message>)
      ensures items == initial
    {
      items := initial;
    }

    /** `messages.push(m)` */
    method Push(m: Message)
      modifies this
      ensures items == old(items) + [m]
    {
      items := items + [m];
    }
  }

  /** The system message that hands the order list to the agent. */
  function OrdersNote(serialized: string): Message
  {
    SystemMessage("Order details available: " + serialized)
  }

  /** `handleVoiceInput` (intents/orderIntent.js:9-47). A local answer
      leaves `messages` as it was; otherwise exactly one system message
      with the serialised orders (`serialize` is `JSON.stringify`) is
      pushed, the agent is run on the extended list, and its last message
      is the answer. The agent fails when it reaches its step limit. */
  method HandleVoiceInput(voiceInput: string, orders: seq<OrderRecord>, serialize: seq<OrderRecord> -> string,
                          llm: Llm, tools: Registry, fuel: nat, messages: MessageList) returns (r: Result<string>)
    modifies messages
    ensures LocalReply(voiceInput, orders).Some? ==>
      r == Ok(LocalReply(voiceInput, orders).value) && messages.items == old(messages.items)
    ensures LocalReply(voiceInput, orders).None? ==>
      && messages.items == old(messages.items) + [OrdersNote(serialize(orders))]
      && (Invoke(messages.items, llm, tools, fuel).None? <==> r.Err?)
      && (Invoke(messages.items, llm, tools, fuel).Some? ==>
            var out := Invoke(messages.items, llm, tools, fuel).value;
            r == Ok(out[|out| - 1].content))
  {
    var assistantResponse := "I'm sorry, I couldn't process your request.";
    if Contains(voiceInput, "order") || Contains(voiceInput, "product") {
      if |orders| == 0 {
        assistantResponse := NoOrderDetails;
      } else if Contains(voiceInput, "recent") {
        var recentOrder := orders[|orders| - 1];
        assistantResponse := RecentLine(recentOrder);
      } else if Contains(voiceInput, "status") {
        assistantResponse := BuildListing(Statuses, orders);
      } else if Contains(voiceInput, "expected delivery") || Contains(voiceInput, "delivery date") {
        assistantResponse := BuildListing(Deliveries, orders);
      } else {
        assistantResponse := BuildListing(Products, orders);
      }
    } else {
      messages.Push(OrdersNote(serialize(orders)));
      assert LocalReply(voiceInput, orders).None?;
      var result := Invoke(messages.items, llm, tools, fuel);
      if result.None? {
        return Err("the agent stopped at its step limit");
      }
      assistantResponse := result.value[|result.value| - 1].content;
    }
    r := Ok(assistantResponse);
  }
}
