/** prompts.js: the system prompt, with the caller's orders appended when
    there are any. `JSON.stringify` is the `serialize` parameter. */
module Prompts {
  import opened Outcomes

  const BasePrompt: string :=
    "You are a customer support assistant for a voice-based service company. Your role is to assist users with order-related queries in a friendly, concise, and professional manner.\n"
    + "                      Act as a polite and empathetic customer support representative, keeping responses short and helpful, ideally one line when possible.\n"
    + "                      If processing a request takes time, say \"Just a moment, I\U{2019}m checking that for you\" before providing the answer.\n"
    + "                      In your first response, use the user's name if available, then switch to \"you\" or \"your\" in subsequent messages.\n"
    + "                      Avoid repeating \"order summary\" unless the user asks for it explicitly.\n"
    + "                      If the user wants to reschedule their order or isn\U{2019}t available to receive it, ask: \"Could you please provide a new expected delivery date?\"\n"
    + "                      Always maintain a warm, supportive tone, and if unsure, offer to assist further with: \"How else can I help you today?\""

  /** The text between the base prompt and the serialised orders. */
  const OrdersIntro: string := "\n            Provide order information from the following orderDetailsArray: "

  /** `getSystemPrompt(orderDetailsArray)`; `None` stands for a null or
      undefined argument. */
  function SystemPrompt<T>(orders: Option<seq<T>>, serialize: seq<T> -> string): (p: string)
    ensures |BasePrompt| <= |p| && p[..|BasePrompt|] == BasePrompt
    ensures p == BasePrompt <==> orders.None? || orders.value == []
  {
    PromptShape(BasePrompt, orders, serialize);
    PromptWith(BasePrompt, orders, serialize)
  }

  /** The shape of `getSystemPrompt` for a given base text: the base text
      alone, or followed by the introduction, the serialised list and a
      full stop when the list is present and not empty. The lemmas below
      hold for every base text, so in particular for `BasePrompt`. */
  function PromptWith<T>(base: string, orders: Option<seq<T>>, serialize: seq<T> -> string): string
  {
    if orders.Some? && |orders.value| > 0 then base + OrdersIntro + serialize(orders.value) + "."
    else base
  }

  /** Without orders the prompt is the base text; with orders it is the
      base text, the newline-indented introduction, the serialised list
      and a full stop, so it is always strictly longer. */
  lemma PromptShape<T>(base: string, orders: Option<seq<T>>, serialize: seq<T> -> string)
    ensures var p := PromptWith(base, orders, serialize);
      |base| <= |p| && p[..|base|] == base &&
      (orders.None? || orders.value == [] <==> p == base) &&
      (orders.Some? && orders.value != [] ==>
         p[|base|..] == OrdersIntro + serialize(orders.value) + "." && p[|p| - 1] == '.')
  {
    var p := PromptWith(base, orders, serialize);
    if orders.Some? && orders.value != [] {
      var tail := OrdersIntro + serialize(orders.value) + ".";
      assert p == base + tail;
      assert |p| > |base|;
    }
  }

  /** For non-empty lists the prompt depends on the list only through its
      serialisation, and the serialisation can be read back from it. */
  lemma PromptDeterminedBySerialisation<T>(base: string, a: seq<T>, b: seq<T>, serialize: seq<T> -> string)
    requires a != [] && b != []
    ensures PromptWith(base, Some(a), serialize) == PromptWith(base, Some(b), serialize) <==> serialize(a) == serialize(b)
  {
    var n := |base + OrdersIntro|;
    var pa, pb := PromptWith(base, Some(a), serialize), PromptWith(base, Some(b), serialize);
    if pa == pb {
      assert pa == (base + OrdersIntro) + serialize(a) + ".";
      assert pb == (base + OrdersIntro) + serialize(b) + ".";
      assert pa[n..|pa| - 1] == serialize(a);
      assert pb[n..|pb| - 1] == serialize(b);
    }
  }
}
