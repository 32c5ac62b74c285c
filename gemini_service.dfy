/**
 * The assistant back end (geminiService.ts): choosing the API key, building
 * the catalog and cart context into a system instruction, and turning the
 * outcome of the remote `generateContent` call into the reply text. The
 * remote call itself is outside the model: its outcome is a parameter.
 */
module GeminiService {
  import opened Types
  import opened Text
  import Constants

  /** Returned without any request when no API key is configured. */
  const Unavailable :=
    "I'm currently unavailable, "
    + "but you can browse our "
    + "curated collections above! "
    + "Use the search bar or "
    + "category filters to find "
    + "exactly what you're looking "
    + "for."

  /** Returned when the response carries no text. */
  const NoText :=
    "I'm sorry, I couldn't process "
    + "that request right now. How "
    + "else can I assist you with "
    + "your shopping?"

  /** Returned when the remote call throws. */
  const TechnicalMoment :=
    "I'm having a brief technical "
    + "moment. Please try again or "
    + "browse our latest collections!"

  const ModelName := "gemini-3-flash-preview"
  const Temperature: real := 0.7
  const TopP: real := 0.95

  /** JavaScript truthiness of an optional string: present and not empty. */
  predicate IsSet(v: Option<string>)
  {
    v.Some? && v.value != ""
  }

  /**
   * `process.env.API_KEY || process.env.GEMINI_API_KEY || ''`: the first
   * variable that is set and non-empty, otherwise the empty string.
   */
  function SelectApiKey(apiKeyVar: Option<string>, geminiKeyVar: Option<string>): (key: string)
    ensures key != "" <==> IsSet(apiKeyVar) || IsSet(geminiKeyVar)
    ensures IsSet(apiKeyVar) ==> key == apiKeyVar.value
    ensures !IsSet(apiKeyVar) && IsSet(geminiKeyVar) ==> key == geminiKeyVar.value
  {
    if IsSet(apiKeyVar) then apiKeyVar.value
    else if IsSet(geminiKeyVar) then geminiKeyVar.value
    else ""
  }

  // ---------------------------------------------------------------------
  // the context block

  /** `${p.name} ($${p.price}) in ${p.category}: ${p.description}`. */
  function ProductLine(p: Product): string
  {
    p.name + " ($" + CentsToString(p.price) + ") in " + p.category + ": " + p.description
  }

  function ProductLines(products: seq<Product>): (lines: seq<string>)
    ensures |lines| == |products|
  {
    seq(|products|, i requires 0 <= i < |products| => ProductLine(products[i]))
  }

  /** `productsContext`: one line per product, joined by "\n". */
  function ProductsContext(products: seq<Product>): string
  {
    Join(ProductLines(products), "\n")
  }

  /** The text fields of a product hold no line break. */
  predicate SingleLine(p: Product)
  {
    '\n' !in p.name && '\n' !in p.category && '\n' !in p.description
  }

  lemma NoLineBreakInConcat(a: string, b: string)
    requires '\n' !in a && '\n' !in b
    ensures '\n' !in a + b
  {
  }

  lemma ProductLineSingle(p: Product)
    requires SingleLine(p)
    ensures '\n' !in ProductLine(p)
  {
    CentsToStringValue(p.price);
    var price := CentsToString(p.price);
    assert forall k | 0 <= k < |price| :: price[k] != '\n';
    NoLineBreakInConcat(p.name, " ($");
    NoLineBreakInConcat(p.name + " ($", price);
    NoLineBreakInConcat(p.name + " ($" + price, ") in ");
    NoLineBreakInConcat(p.name + " ($" + price + ") in ", p.category);
    NoLineBreakInConcat(p.name + " ($" + price + ") in " + p.category, ": ");
    NoLineBreakInConcat(p.name + " ($" + price + ") in " + p.category + ": ", p.description);
  }

  /**
   * When no product text holds a line break, the catalog context splits
   * back into exactly one line per product, in catalog order.
   */
  lemma ProductsContextLines(products: seq<Product>)
    requires products != []
    requires forall k :: 0 <= k < |products| ==> SingleLine(products[k])
    ensures Split(ProductsContext(products), '\n') == ProductLines(products)
  {
    var lines := ProductLines(products);
    forall k | 0 <= k < |lines| ensures '\n' !in lines[k] {
      ProductLineSingle(products[k]);
    }
    SplitJoin(lines, '\n');
  }

  /** `${i.name} (Qty: ${i.quantity})`. */
  function CartEntry(item: CartItem): string
  {
    item.product.name + " (Qty: " + IntToString(item.quantity) + ")"
  }

  function CartEntries(items: seq<CartItem>): (entries: seq<string>)
    ensures |entries| == |items|
  {
    seq(|items|, i requires 0 <= i < |items| => CartEntry(items[i]))
  }

  const CartPrefix := "Current items in user's cart: "
  const EmptyCart := "The user's cart is empty."

  /** `cartContext`: the cart's entries joined by ", " after a fixed prefix, or a fixed sentence for the empty cart. */
  function CartContext(items: seq<CartItem>): string
  {
    if |items| > 0 then CartPrefix + Join(CartEntries(items), ", ") else EmptyCart
  }

  /** The empty cart is described by the fixed sentence alone. */
  lemma CartContextEmpty()
    ensures CartContext([]) == "The user's cart is empty."
  {
  }

  /** A cart of one line gives the prefix and that line's entry. */
  lemma CartContextSingle(item: CartItem)
    ensures CartContext([item]) == CartPrefix + CartEntry(item)
  {
  }

  /** A line added at the end of a non-empty cart is mentioned last, after ", ". */
  lemma CartContextAppend(items: seq<CartItem>, item: CartItem)
    requires items != []
    ensures CartContext(items + [item]) == CartContext(items) + ", " + CartEntry(item)
  {
    CartEntriesAppend(items, item);
    JoinAppend(CartEntries(items), CartEntry(item), ", ");
    ConcatAssoc(CartPrefix, Join(CartEntries(items), ", ") + ", ", CartEntry(item));
    ConcatAssoc(CartPrefix, Join(CartEntries(items), ", "), ", ");
  }

  lemma CartEntriesAppend(items: seq<CartItem>, item: CartItem)
    ensures CartEntries(items + [item]) == CartEntries(items) + [CartEntry(item)]
  {
    var longer, entries := CartEntries(items + [item]), CartEntries(items) + [CartEntry(item)];
    forall k | 0 <= k < |longer| ensures longer[k] == entries[k] {
      if k < |items| {
        assert (items + [item])[k] == items[k];
      }
    }
  }

  /** The context of a non-empty cart mentions every line. */
  lemma CartContextMentions(items: seq<CartItem>, k: int)
    requires 0 <= k < |items|
    ensures Includes(CartContext(items), CartEntry(items[k]))
  {
    var entries := CartEntries(items);
    assert entries[k] == CartEntry(items[k]);
    JoinIncludes(entries, ", ", k);
    IncludesAfterPrefix(CartPrefix, Join(entries, ", "), entries[k]);
  }

  const InstructionHead :=
    "\n"
    + "    You are Nova, the elite " + "AI shopping assistant for " + "NovaMarket.\n"
    + "    Your personality: " + "Professional, helpful, " + "slightly luxurious, and " + "concise.\n"
    + "    Your goal: Help users " + "find products, give gift " + "advice based on NovaMarket's " + "catalog, and answer product " + "questions.\n"
    + "    \n"
    + "    Catalog Context:\n"
    + "    "

  const InstructionMiddle :=
    "\n"
    + "    \n"
    + "    Shopping Context:\n"
    + "    "

  const InstructionTail :=
    "\n"
    + "    \n"
    + "    If the user asks for " + "something we don't have, " + "politely suggest the closest " + "alternative from our " + "catalog.\n"
    + "    Always format your " + "response using professional " + "markdown.\n"
    + "  "

  /** The `systemInstruction` template literal with both contexts substituted. */
  function SystemInstruction(productsContext: string, cartContext: string): string
  {
    InstructionHead + productsContext + InstructionMiddle + cartContext + InstructionTail
  }

  /** The instruction embeds the catalog context and, after it, the cart context. */
  lemma SystemInstructionEmbeds(productsContext: string, cartContext: string)
    ensures Includes(SystemInstruction(productsContext, cartContext), productsContext)
    ensures Includes(SystemInstruction(productsContext, cartContext), cartContext)
    ensures OccursAt(productsContext, SystemInstruction(productsContext, cartContext), |InstructionHead|)
    ensures OccursAt(cartContext, SystemInstruction(productsContext, cartContext),
      |InstructionHead| + |productsContext| + |InstructionMiddle|)
  {
    TemplateEmbeds(InstructionHead, productsContext, InstructionMiddle, cartContext, InstructionTail);
  }

  // ---------------------------------------------------------------------
  // the request and the reply

  /** The argument of `ai.models.generateContent`. */
  datatype GenerateRequest = GenerateRequest(
    model: string,
    contents: string,
    systemInstruction: string,
    temperature: real,
    topP: real)

  /** What the remote call came back with: a response whose `text` may be missing, or a thrown error. */
  datatype RemoteOutcome = Responded(text: Option<string>) | Failed

  /** The request sent, if any, and the string the function resolves to. */
  datatype ServiceResult = ServiceResult(request: Option<GenerateRequest>, reply: string)

  /**
   * The request for a user message: the fixed model and sampling settings,
   * the message as the contents, and the system instruction built from the
   * catalog and the cart.
   */
  function BuildRequest(userMessage: string, cartItems: seq<CartItem>): (req: GenerateRequest)
    ensures req.model == ModelName && req.temperature == 0.7 && req.topP == 0.95
    ensures req.contents == userMessage
  {
    GenerateRequest(ModelName, userMessage, SystemInstruction(ProductsContext(Constants.Products), CartContext(cartItems)), Temperature, TopP)
  }

  /** Every request carries the whole catalog context and the context of the cart it was built for. */
  lemma RequestEmbedsContexts(userMessage: string, cartItems: seq<CartItem>)
    ensures Includes(BuildRequest(userMessage, cartItems).systemInstruction, ProductsContext(Constants.Products))
    ensures Includes(BuildRequest(userMessage, cartItems).systemInstruction, CartContext(cartItems))
  {
    SystemInstructionEmbeds(ProductsContext(Constants.Products), CartContext(cartItems));
  }

  /** `response.text || NoText`: the response text when present and non-empty. */
  function ReplyText(text: Option<string>): (r: string)
    ensures r != ""
    ensures IsSet(text) ==> r == text.value
    ensures !IsSet(text) ==> r == NoText
  {
    if IsSet(text) then text.value else NoText
  }

  /**
   * `getShoppingAssistantResponse(userMessage, cartItems)`: without a key,
   * the unavailability message and no request; with one, exactly the built
   * request, and a reply that is the response text, the no-text fallback or
   * the technical-moment message. The reply is never empty.
   */
  function GetShoppingAssistantResponse(apiKey: string, userMessage: string, cartItems: seq<CartItem>, remote: RemoteOutcome): (r: ServiceResult)
    ensures r.reply != ""
    ensures apiKey == "" <==> r.request.None?
    ensures apiKey == "" ==> r.reply == Unavailable
    ensures apiKey != "" ==> r.request == Some(BuildRequest(userMessage, cartItems))
    ensures apiKey != "" && remote.Failed? ==> r.reply == TechnicalMoment
    ensures apiKey != "" && remote.Responded? ==> r.reply == ReplyText(remote.text)
  {
    if apiKey == "" then ServiceResult(None, Unavailable)
    else
      var request := BuildRequest(userMessage, cartItems);
      match remote
      case Failed => ServiceResult(Some(request), TechnicalMoment)
      case Responded(text) => ServiceResult(Some(request), ReplyText(text))
  }
}
