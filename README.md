# Voice order assistant: a Dafny model of its conversation core

The system is a telephone assistant. A caller's speech arrives as text in
a webhook. The assistant answers order questions from a cached order file
or, otherwise, runs a tool-calling language-model agent. The conversation
history travels between requests in a cookie. This project models:

- **The agent** (`Agent.dfy`, index.js):
  - the `toolNode` dispatch step;
  - the `shouldContinue` routing decision;
  - the `llmCall` node with its fixed system instruction;
  - the graph llmCall → tools → llmCall … → end, run under a step limit.
- **The order-file readers** (`OrderFile.dfy`, index.js). These are the
  three line-based parsers `/respond` applies to the cached file: the
  "recent" backward scan, the "status" scan and the general list scan,
  which skips seven lines after each hit.
- **The two webhooks** (`Session.dfy`, index.js):
  - the greeting and fresh history of `/incoming-call`;
  - one turn of `/respond`: lower-casing, keyword routing, the file
    answer or the agent's answer, and the history update.
- **`handleVoiceInput`** (`OrderIntent.dfy`, intents/orderIntent.js).
  Keyword routing over a structured order list, the four reply formats,
  and the agent fallback that pushes one system message into the
  caller's message array (a `MessageList` class).
- **`getSystemPrompt`** (`Prompts.dfy`, prompts.js).
- **Shared pieces.** `Text.dfy` holds the JavaScript string operations
  used: `includes`, `startsWith`, ASCII `toLowerCase`, `split("\n")`,
  `join("\n")`, and lines built with `+=`. `Outcomes.dfy` holds `Option`
  and `Result`.

Neither `handleVoiceInput` nor `getSystemPrompt` is called from index.js.
Each is modelled as a stand-alone operation.

### Behaviour of the code worth knowing

- **Whole history kept.** index.js keeps the whole history; nothing
  truncates it. `Session.Respond` states that exactly two messages are
  appended per turn and nothing is dropped.
- **Empty cookie history.** A cookie holding an empty history (`[]`) is
  truthy (index.js:167-169). `/incoming-call` then neither greets nor
  rewrites it (`Session.IncomingCall`).
- **`handleVoiceInput` matches its input as given.** It does not
  lower-case it; only `/respond` does (index.js:274). An input without
  lower-case letters therefore never gets a local answer
  (`OrderIntent.CapitalsGoToAgent`).
- **Unknown tools produce nothing.** A tool call whose name is neither a
  tool nor a property inherited from `Object.prototype` produces no result
  message at all (index.js:103-105, `Agent.UnregisteredDropped`).
- **Header misreads.** The "Order " header test (index.js:309, 326, 341)
  also matches the file's own "Order Summary for …" and "Order Details:"
  lines. In the general list, the summary line hides "Order 1:"
  (`OrderFile.FirstHeaderHidesSeven`).

## Model

| member | source | states |
|---|---|---|
| Text.ToLower | index.js:274 | lower-casing keeps the length (ASCII letters only) |
| Text.ToLowerIdempotent | index.js:274 | no capital is left after lower-casing, so lower-casing twice is lower-casing once |
| Text.ContainsIff | index.js:287-291 | `includes` holds exactly when the piece occurs at some offset |
| Text.ContainsInConcat | index.js:297-300 | a piece found in either part of a concatenation is found in the whole |
| Text.Split | index.js:305 | `split("\n")` gives at least one piece and no piece holds a newline |
| Text.JoinSplit | index.js:310 | joining the pieces of a split with newlines gives the text back |
| Text.SplitJoin | index.js:305 | splitting a newline-join of newline-free pieces gives the pieces back |
| Text.LinesSnoc | index.js:328 | appending `line + "\n"` appends one line to the built text |
| Text.SplitLines | index.js:323-331 | text built line by line splits into its lines plus one empty last piece |
| Agent.ToolNode | index.js:62-111 | the loop's results are exactly the per-call results of the last message's tool calls, in order |
| Agent.ToolResultsAppend | index.js:78-106 | a call, whether it returns, throws or names no tool, never stops the calls after it |
| Agent.ToolResultsExact | index.js:78-106 | one result per registered call, in call order, carrying the call's id and the observation or "Error: " and the message |
| Agent.AllRegisteredResults | index.js:83-101 | when every tool is registered, result k is a tool message answering call k |
| Agent.UnregisteredDropped | index.js:103-105 | calls to unknown tools produce no result message |
| Agent.ThrowingToolRecovered | index.js:94-101 | a throwing tool yields "Error: " and its message with the call's id, and processing continues |
| Agent.ShouldContinue | index.js:113-122 | "tools" exactly when the last message has at least one tool call, "__end__" otherwise and on an empty history |
| Agent.Step | index.js:124-133 | llmCall appends exactly the model's message and follows `shouldContinue`; tools appends exactly the `toolNode` results for the last message's calls and leads back to llmCall |
| Agent.Run | index.js:124-133 | a run that finishes within the step limit ends at `__end__` and extends the history it started from |
| Agent.CallModel | index.js:44-60 | the model is shown the instruction and then the history, and its reply's content and tool calls become one assistant message |
| Agent.StepConsistent | index.js:124-133 | every node only appends messages, tools is only entered when tools are requested, and tools always leads back to llmCall |
| Agent.RunFinishes | index.js:124-133 | a finished run ends after an assistant message asking for no tools, and extends the starting history |
| Agent.RunMoreFuel | index.js:124-133 | a larger step limit never changes a run that already finished |
| Agent.Invoke | index.js:359-360 | the agent keeps the input history, adds at least one message, and its last message is an assistant answer with no tool calls |
| Agent.DirectAnswer | index.js:127-131 | when the model asks for no tools, one model call is the whole run |
| OrderFile.LastHeaderIff | index.js:308-314 | the backward scan finds the last "Order " line, and finds none exactly when there is none |
| OrderFile.RecentReplyMeaning | index.js:303-319 | the recent reply is the intro and the 8-line block of the last header, or the no-recent text when there is no header |
| OrderFile.RecentAnswer | index.js:303-319 | the backward loop with `break` computes the recent reply |
| OrderFile.HeadersExact | index.js:325-331 | the scan lists every header exactly once, in increasing order, and nothing else |
| OrderFile.StatusEntriesPerHeader | index.js:325-331 | status entry k pairs header k with the line six below it ("undefined" past the end) |
| OrderFile.StatusAnswer | index.js:320-334 | the forward loop computes the status reply: intro, one line per header, or the no-statuses text |
| OrderFile.VisitedHeaders | index.js:340-348 | the general scan visits only header lines, from its starting line on |
| OrderFile.VisitedApart | index.js:340-348 | visited headers are in order and at least eight lines apart (the `i += 7` and the loop's `i++`) |
| OrderFile.VisitedSkips | index.js:340-348 | a header that is not visited lies within the seven lines skipped after a visited one |
| OrderFile.VisitedNonEmpty | index.js:340-351 | the scan visits something exactly when the file has a header |
| OrderFile.ListFromPerVisit | index.js:341-347 | one list entry per visited header: the header, the next line and the one after |
| OrderFile.ListReplyMeaning | index.js:335-352 | the list reply is the intro and the visited entries when there is a header, the no-orders text otherwise |
| OrderFile.FirstHeaderHidesSeven | index.js:340-347 | a header in the first line is the first entry and hides the seven lines after it |
| OrderFile.ListAnswer | index.js:335-352 | the loop with `i += 7` computes the list reply |
| Session.CustomerName | index.js:152-162 | the first element's `Name` when present, "there" otherwise; unparsable data is an error |
| Session.IncomingCall | index.js:143-187 | without a history cookie, the history is the greeting alone, which is spoken and written; a present cookie is kept unchanged and nothing is said |
| Session.Respond | index.js:272-380 | a turn appends the lower-cased speech and the answer and nothing else; order words get the file answer, other speech the agent's last message; an agent failure is an error; an alternating history stays alternating |
| Session.FileReply | index.js:292-356 | the file-missing text when there is no file; the no-details text when the file says there are no orders, whatever "recent" or "status" say |
| Session.EmptyOrderFileAnswersNoDetails | index.js:198-201 | the file written for an empty order reply makes every order query answer the no-details text |
| Session.CustomerWithoutOrdersAnswersNoDetails | index.js:243-245 | the file of a customer without orders does the same, whatever precedes the marker line |
| Session.GreetingAlternates | index.js:169-175 | the greeting alone is an alternating history |
| Session.TurnsAlternate | index.js:279-363 | every turn keeps an alternating history alternating and makes it two messages longer |
| OrderIntent.EntriesExact | intents/orderIntent.js:19-35 | a listing has one line per order, and line k is order k's |
| OrderIntent.ListingStep | intents/orderIntent.js:20-22 | each order adds its line and a newline at the end |
| OrderIntent.BuildListing | intents/orderIntent.js:19-35 | the `forEach` loop builds the title followed by one line per order |
| OrderIntent.ListingLines | intents/orderIntent.js:30-35 | a listing splits into the title, one line per order in order, and an empty last piece: orders plus two pieces |
| OrderIntent.LocalReply | intents/orderIntent.js:12-36 | a local answer exists exactly when the input mentions "order" or "product"; with an empty list it is the no-details answer whatever the other keywords |
| OrderIntent.RecentReadsOnlyLast | intents/orderIntent.js:15-17 | "recent" wins, and its answer depends only on the last order |
| OrderIntent.SubIntentPrecedence | intents/orderIntent.js:18-36 | after "recent", "status" wins; then either "expected delivery" or "delivery date" gives the delivery listing; otherwise the product list |
| OrderIntent.CapitalsGoToAgent | intents/orderIntent.js:12 | input without lower-case letters is never answered locally |
| OrderIntent.RecentWidget | intents/orderIntent.js:15-17 | the one-order example answers "Your most recent order is: Widget, Quantity: 2, Status: Shipped, Ordered on: Jan 1, 2024." |
| OrderIntent.MessageList.Push | intents/orderIntent.js:38-41 | `push` appends exactly one message |
| OrderIntent.HandleVoiceInput | intents/orderIntent.js:9-47 | a local answer leaves the messages untouched; otherwise exactly one system message with the serialised orders is pushed and the agent's last message is the answer |
| Prompts.SystemPrompt | prompts.js:2-16 | `getSystemPrompt`: the prompt starts with the base prompt, and is the base prompt exactly when the list is absent or empty |
| Prompts.PromptShape | prompts.js:11-15 | the prompt starts with the base text; it is the base text exactly when the list is absent or empty, otherwise the intro, the serialised list and a full stop follow (for every base text, `BasePrompt` included, since `SystemPrompt` is `PromptWith(BasePrompt, …)`) |
| Prompts.PromptDeterminedBySerialisation | prompts.js:11-13 | for non-empty lists two prompts are equal exactly when the serialisations are |

## Left out

- HTTP, TwiML, cookies as headers, ngrok and logging are not modelled. A cookie is modelled by the history it holds. A spoken reply is the answer string.
- The language model and the tools are oracles. The CRM tools and services under lib/ are not part of this model.
- The order service call (`getOrderSummaryStatus`) is an input. So is the order file's text, and writing it is not modelled (index.js:188-263). Two lemmas state what the two "no orders" texts it writes make the readers answer.
- `JSON.parse` of the order data is abstracted to the three cases the greeting distinguishes. `JSON.stringify` is a `serialize` parameter.
- Session.CustomerName: a parsed array whose first element is `null` makes `parsedData[0].Name` throw a TypeError (index.js:158); `Customer` cannot express such an element, so this error is not modelled.
- Session.IncomingCall: the cookie is either absent (`None`) or a history. A cookie that does not parse makes the handler throw; one that parses to a falsy value (`null`, `0`, `false`, `""`) leads to the greeting like an absent one; one that parses to a truthy non-array (`{}`, `5`) is kept without error. These cases are not modelled.
- Session.Respond: a cookie that does not parse, or parses to something without `push` (index.js:276-279), makes the handler throw; a missing `SpeechResult` (index.js:274) does the same. These cases are not modelled.
- Agent.Invoke: the graph runtime's step limit is the `fuel` parameter. Reaching it is the error `None`, which `/respond` turns into its 500 response. The model oracle is total, so a rejected model call (index.js:49), which ends in the same 500 (index.js:376-379), is not represented separately.
- OrderIntent.HandleVoiceInput: `handleVoiceInput` accepts any object with an `invoke` method as its agent (intents/orderIntent.js:5, 42); the model fixes it to the graph of index.js (`Agent.Invoke`).
- Agent.ToolNode: `Registry` stands for the lookup in the plain object `toolsByName` (index.js:39). A call named after an inherited `Object.prototype` member ("toString", "constructor", "__proto__") finds a truthy value without `_call`, throws inside the `try` and yields an "Error: …" result (index.js:83-101); the model covers that only if such names are mapped to a tool that throws.
- Text.ToLower: lower-cases ASCII letters only. JavaScript's full Unicode case mapping is not modelled.
- OrderIntent.OrderRecord: fields are the strings their template interpolation prints. Only `expectedDeliveryDate` is checked for falsiness, and "" stands for every falsy value.
- Concurrency between calls and the shared order file are not modelled. Each call sees the file as it is.
- index.ts, server.js and the remaining files of the repository are not part of this model.
