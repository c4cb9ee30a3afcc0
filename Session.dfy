/** The two webhooks of index.js that carry the conversation across
    stateless HTTP requests: `/incoming-call` creates the history with a
    greeting when the caller has none, and `/respond` runs one turn,
    appending the caller's words and the assistant's answer. The cookie
    is modelled by the history it holds, the order file by its text, and
    the order service's reply by what `JSON.parse` makes of it. */
module Session {
  import opened Outcomes
  import opened Text
  import opened Agent
  import OrderFile

  // ---------------------------------------------------------------------
  // /incoming-call
  // ---------------------------------------------------------------------

  /** An element of the parsed order data; `name` is its `Name` field,
      "" when the field is missing or empty. */
  datatype Customer = Customer(name: string)

  /** What `JSON.parse(orderData)` yields, as far as the greeting looks. */
  datatype Parsed = NotAnArray | Array(elements: seq<Customer>)

  /** The order service's reply: empty (falsy, not parsed), text that
      `JSON.parse` rejects, or parsed data. */
  datatype OrderData = Falsy | Unparsable | Json(parsed: Parsed)

  /** The first element of the parsed data has a name to greet. */
  predicate NamesCustomer(data: OrderData)
  {
    data.Json? && data.parsed.Array? && |data.parsed.elements| > 0 && data.parsed.elements[0].name != ""
  }

  function Greeting(customerName: string): string
  {
    "Hi " + customerName + ", I am your AI assistant. I'm here to help you with your order details. How can I assist you today?"
  }

  /** The name the greeting uses (index.js:152-162): the first element's
      `Name` when there is one, "there" otherwise; a reply `JSON.parse`
      rejects makes the handler throw. */
  method CustomerName(data: OrderData) returns (r: Result<string>)
    ensures data == Unparsable <==> r.Err?
    ensures NamesCustomer(data) ==> r == Ok(data.parsed.elements[0].name)
    ensures !NamesCustomer(data) && data != Unparsable ==> r == Ok("there")
  {
    var customerName := "there";
    if data != Falsy {
      if data == Unparsable {
        return Err("SyntaxError: JSON.parse could not parse the order data");
      }
      var parsedData := data.parsed;
      if parsedData.Array? && |parsedData.elements| > 0 && parsedData.elements[0].name != "" {
        customerName := parsedData.elements[0].name;
      }
    }
    r := Ok(customerName);
  }

  /** What `/incoming-call` leaves behind: the history, the text it says
      (the greeting, when it greets), and whether it writes the cookie. */
  datatype CallStart = CallStart(history: seq<Message>, spoken: Option<string>, cookieWritten: bool)

  /** `/incoming-call` (index.js:143-187). `cookie` is the parsed history
      cookie, `None` when there is none: only then is a history created,
      holding exactly one assistant message with the greeting. A cookie
      that is present, even holding an empty list, is kept as it is. */
  method IncomingCall(cookie: Option<seq<Message>>, data: OrderData) returns (r: Result<CallStart>)
    ensures data == Unparsable <==> r.Err?
    ensures r.Ok? && cookie.None? ==>
      var name := if NamesCustomer(data) then data.parsed.elements[0].name else "there";
      r.value == CallStart([AssistantMessage(Greeting(name))], Some(Greeting(name)), true)
    ensures r.Ok? && cookie.Some? ==> r.value == CallStart(cookie.value, None, false)
  {
    var name := CustomerName(data);
    if name.Err? {
      return Err(name.message);
    }
    var greeting := Greeting(name.value);
    var messages: seq<Message>;
    var spoken: Option<string> := None;
    var written := false;
    if cookie.None? {
      messages := [AssistantMessage(greeting)];
      written := true;
      spoken := Some(greeting);
    } else {
      messages := cookie.value;
    }
    r := Ok(CallStart(messages, spoken, written));
  }

  // ---------------------------------------------------------------------
  // /respond
  // ---------------------------------------------------------------------

  const FileMissing := "I couldn't find the order details file. Please try again later."
  const NoDetails := "I don't have any order details for you at the moment."

  /** The keyword test that keeps a turn away from the model. */
  predicate IsOrderQuery(input: string)
  {
    Contains(input, "order") || Contains(input, "recent") || Contains(input, "status")
  }

  /** The file says that there are no orders. */
  predicate SaysNoOrders(text: string)
  {
    Contains(text, "No order details received") || Contains(text, "No orders found")
  }

  /** The local answer to an order query; `file` is the order file's
      text, `None` when the file does not exist. */
  function FileReply(input: string, file: Option<string>): (r: string)
    ensures file.None? ==> r == FileMissing
    ensures file.Some? && SaysNoOrders(file.value) ==> r == NoDetails
  {
    if file.None? then FileMissing
    else if SaysNoOrders(file.value) then NoDetails
    else
      var lines := Split(file.value);
      if Contains(input, "recent") then OrderFile.RecentReply(lines)
      else if Contains(input, "status") then OrderFile.StatusReply(lines)
      else OrderFile.ListReply(lines)
  }

  /** The history the cookie holds, `[]` when there is none. */
  function Stored(cookie: Option<seq<Message>>): seq<Message>
  {
    if cookie.Some? then cookie.value else []
  }

  /** What a turn leaves behind: the history written back to the cookie
      and the answer that is spoken. */
  datatype Turn = Turn(history: seq<Message>, answer: string)

  /** `/respond` (index.js:272-380). The turn appends the lower-cased
      speech as a user message and then the answer as an assistant
      message, and changes nothing else in the history. Order queries are
      answered from the file; anything else goes to the agent, whose last
      message is the answer. When the agent fails (here: the step limit
      runs out) the request fails and no history is written. */
  method Respond(cookie: Option<seq<Message>>, speech: string, file: Option<string>,
                 llm: Llm, tools: Registry, fuel: nat) returns (r: Result<Turn>)
    ensures var input := ToLower(speech);
      var asked := Stored(cookie) + [UserMessage(input)];
      && (IsOrderQuery(input) ==>
            r == Ok(Turn(asked + [AssistantMessage(FileReply(input, file))], FileReply(input, file))))
      && (!IsOrderQuery(input) && Invoke(asked, llm, tools, fuel).None? ==> r.Err?)
      && (!IsOrderQuery(input) && Invoke(asked, llm, tools, fuel).Some? ==>
            var out := Invoke(asked, llm, tools, fuel).value;
            var answer := out[|out| - 1].content;
            r == Ok(Turn(asked + [AssistantMessage(answer)], answer)))
    ensures Alternates(Stored(cookie)) && r.Ok? ==> Alternates(r.value.history)
  {
    var voiceInput := ToLower(speech);
    var messages := Stored(cookie);
    messages := messages + [UserMessage(voiceInput)];
    var assistantResponse := "I'm sorry, I couldn't process your request.";
    if IsOrderQuery(voiceInput) {
      if file.Some? {
        var fileContent := file.value;
        if SaysNoOrders(fileContent) {
          assistantResponse := NoDetails;
        } else if Contains(voiceInput, "recent") {
          assistantResponse := OrderFile.RecentAnswer(Split(fileContent));
        } else if Contains(voiceInput, "status") {
          assistantResponse := OrderFile.StatusAnswer(Split(fileContent));
        } else {
          assistantResponse := OrderFile.ListAnswer(Split(fileContent));
        }
      } else {
        assistantResponse := FileMissing;
      }
    } else {
      var result := Invoke(messages, llm, tools, fuel);
      if result.None? {
        return Err("the agent stopped at its step limit");
      }
      assistantResponse := result.value[|result.value| - 1].content;
    }
    messages := messages + [AssistantMessage(assistantResponse)];
    if Alternates(Stored(cookie)) {
      TurnsAlternate(voiceInput, assistantResponse, Stored(cookie));
    }
    r := Ok(Turn(messages, assistantResponse));
  }

  /** The file `/incoming-call` writes when the service reports no orders
      makes every order query answer the fixed no-details message,
      whatever "recent" or "status" say. */
  lemma EmptyOrderFileAnswersNoDetails(input: string)
    ensures FileReply(input, Some("No order details received from the server.")) == NoDetails
  {
    assert StartsWith("No order details received from the server.", "No order details received");
  }

  /** The same holds for a customer without orders, whose file ends in
      "No orders found for this customer.", whatever precedes it. */
  lemma CustomerWithoutOrdersAnswersNoDetails(input: string, header: string)
    ensures FileReply(input, Some(header + "No orders found for this customer.\n")) == NoDetails
  {
    var tail := "No orders found for this customer.\n";
    assert StartsWith(tail, "No orders found");
    ContainsInConcat(header, tail, "No orders found");
  }

  /** A history as the two webhooks build it: the greeting, then pairs of
      a user message and an assistant message. */
  ghost predicate Alternates(h: seq<Message>)
  {
    && |h| % 2 == 1
    && h[0].role == Assistant
    && forall i :: 1 <= i < |h| ==> h[i].role == (if i % 2 == 1 then User else Assistant)
  }

  /** A new call's history alternates. */
  lemma GreetingAlternates(name: string)
    ensures Alternates([AssistantMessage(Greeting(name))])
  {
  }

  /** Every successful turn keeps the history alternating and makes it two
      messages longer. */
  lemma TurnsAlternate(input: string, answer: string, h: seq<Message>)
    requires Alternates(h)
    ensures Alternates(h + [UserMessage(input)] + [AssistantMessage(answer)])
  {
    var h' := h + [UserMessage(input)] + [AssistantMessage(answer)];
    assert |h'| == |h| + 2;
    forall i | 1 <= i < |h'| ensures h'[i].role == (if i % 2 == 1 then User else Assistant) {
      if i < |h| {
        assert h'[i] == h[i];
      }
    }
  }
}
