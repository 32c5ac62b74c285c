# NovaMarket storefront: cart, catalog and assistant logic in Dafny

This project models the logic of a small React storefront (the NovaMarket
shop). The design and the proofs cover five concerns:

- **Catalog filter** (`App.tsx`): a product is shown when the active category
  is "All" or equal to its category, and the lower-cased search query occurs
  in its lower-cased name or description. The result keeps catalog order.
- **Cart** (`App.tsx`, `components/CartDrawer.tsx`): an ordered list of lines
  keyed by product id.
  - `addToCart` merges by id, `removeFromCart` filters the id out, and
    `updateQuantity` clamps the new quantity at 1.
  - The badge count and the drawer's subtotal are left folds over the lines.
  - The drawer renders a fixed set of controls, each raising one event back
    to the storefront.
- **Checkout** (`App.tsx`): `browsing → processing → success → browsing`. The
  cart is emptied only when the delayed timer callback runs.
- **Assistant transcript** (`components/AIShoppingAssistant.tsx`): an
  append-only list of bot and user turns, seeded with a greeting, plus an
  in-flight flag. `handleSend` guards, appends the trimmed user turn, awaits
  the service, appends exactly one bot turn, and clears the flag.
- **Assistant service** (`geminiService.ts`):
  - the API key is chosen from two environment variables;
  - with no key, a fixed message is returned and no request is built;
  - otherwise the request carries a system instruction embedding the catalog
    context and the cart context;
  - the reply is the response text, or one of two fixed fallbacks.

The catalog of `constants.tsx` is given as concrete data. Two filter views
are proved about it, along with the shape of its context text.

Modules follow the source files:

| source | module (file) |
|---|---|
| `types.ts` | `Types` (types.dfy) |
| `constants.tsx` | `Constants` (constants.dfy) |
| `App.tsx`: filter | `Catalog` (catalog.dfy) |
| `App.tsx`: cart updates | `Cart` (cart.dfy) |
| `App.tsx`: component state | `App`, class `Storefront` (app.dfy) |
| `components/CartDrawer.tsx` | `CartDrawer` (cart_drawer.dfy) |
| `components/AIShoppingAssistant.tsx` | `ShoppingAssistant`, class `AssistantPanel` (shopping_assistant.dfy) |
| `geminiService.ts` | `GeminiService` (gemini_service.dfy) |

Supporting modules:
- `Sequences` (sequences.dfy): `Array.prototype.filter` and order-preserving
  subsequences.
- `Text` (text.dfy): `toLowerCase`, `includes`, `trim`, `join`, and number
  rendering.
- `FilterScenarios` and `ContextScenarios`: the concrete catalog facts.

Modelling choices:
- **Prices are integer cents**: 349.99 is 34999. `$${p.price}` is rendered
  as JavaScript prints such a number ("349.99", "299", "75"). `toFixed(2)`
  always prints two fraction digits.
- **A cart line is `CartItem(product, quantity)`.** The source spreads the
  product's fields into the line. The model keeps them as a nested
  `Product`, so every modelled field of the product is still there. The
  rating, review count and stock count are not modelled.
- **The React state is class fields.** The component states of `App.tsx` and
  `AIShoppingAssistant.tsx` are fields of the classes `App.Storefront` and
  `ShoppingAssistant.AssistantPanel`. Each handler is a method that reassigns
  them.
- **The checkout timer is a count of scheduled callbacks.**
  `CheckoutTimerFires` is the moment one of them runs.
- **`handleSend` is split at its `await`.**
  - `BeginSend` is the part before the await.
  - `CompleteSend` is the part after it, taking as a parameter how the call
    settled (`Returned(text)` or `Threw`).
  - `AwaitReply` supplies that outcome from the modelled service.
  - `HandleSend` is the whole handler, start to finish.
- **The remote `generateContent` call is a parameter.** Its outcome
  (`Responded(text)` with optional text, or `Failed`) is passed in. The function
  returns the request it would send next to the reply.

Three details of the code that the model keeps:
- **A send without a key adds two turns.**
  - `handleSend` appends the user turn before it calls the service
    (components/AIShoppingAssistant.tsx:36-40).
  - The service then returns the unavailability message
    (geminiService.ts:10-11), which becomes the bot turn.
- **The system instruction opens with the persona text**
  (geminiService.ts:19-32). The order is the persona, then the catalog
  context, then the cart context, then the substitution and formatting
  instructions.
- **Only a missing or empty `text` gets the "couldn't process" fallback**
  (geminiService.ts:45). Any other text the response carries is returned as
  it is.

## Model

| member | source | states |
|---|---|---|
| Catalog.FilterProducts | App.tsx:18-25 | a product is in the result exactly when it is in the list, its category matches ("All" or equal) and the lower-cased query occurs in its lower-cased name or description; the result is an order-preserving subsequence of the list |
| Catalog.FilteredProducts | App.tsx:18-25 | the same membership and order facts for the fixed catalog `PRODUCTS` |
| Catalog.EmptyQueryMatches | App.tsx:21-22 | the empty query matches every product, since the empty string is included in any text |
| Catalog.FilterAllEmptyQuery | App.tsx:20-22 | with "All" and the empty query the filter returns its input unchanged, in order |
| Catalog.InitialViewShowsCatalog | App.tsx:12-25 | on the initial state ("All", "") every catalog product is shown, in catalog order |
| Catalog.FilterCategoryEmptyQuery | App.tsx:20-23 | with the empty query, a real category shows exactly the products of that category in catalog order |
| Cart.Find | App.tsx:29 | the search finds a line exactly when the cart has a line with the id, and what it finds is a line of the cart with that id |
| Cart.AddToCart | App.tsx:28-34 | after the update the cart has a line for the product |
| Cart.AddToCartExisting | App.tsx:30-31 | when the product has a line, that line gains exactly one unit and every other line and the length stay the same |
| Cart.AddToCartNew | App.tsx:33 | when the product has no line, exactly one line is appended at the end, holding the product with quantity 1 |
| Cart.AddToCartValid | App.tsx:27-34 | adding keeps ids pairwise distinct and every quantity at least 1 |
| Cart.AddToCartCount | App.tsx:27-34 | the badge count (the sum of the quantities) rises by exactly one with every add |
| Cart.AddToCartSubtotal | App.tsx:27-34 | the subtotal rises by the unit price of the added product's line |
| Cart.RemoveFromCart | App.tsx:39 | the result holds exactly the lines whose id differs, as an order-preserving subsequence, and no line with the id |
| Cart.RemoveExisting | App.tsx:39 | removing the id of the line at index k deletes exactly that line and keeps the rest in order |
| Cart.RemoveAbsent | App.tsx:39 | removing an id with no line leaves the cart unchanged |
| Cart.DeleteLineValid | App.tsx:39 | deleting one line keeps a valid cart valid |
| Cart.RemoveValid | App.tsx:38-40 | removing keeps ids pairwise distinct and every quantity at least 1 |
| Cart.RemoveSubtotal | App.tsx:39 | removing a line lowers the subtotal by that line's total |
| Cart.UpdateQuantity | App.tsx:42-50 | the length and every line's product stay the same; lines with the id end with quantity at least 1; all other lines are untouched |
| Cart.UpdateAt | App.tsx:43-46 | the line at index k with the id gets quantity max(1, q + delta) and nothing else changes |
| Cart.UpdateAbsent | App.tsx:43-49 | an update for an id with no line changes nothing |
| Cart.UpdateValid | App.tsx:42-50 | updating keeps ids pairwise distinct and every quantity at least 1 |
| Cart.CartCountConcat | App.tsx:64 | the badge count of a concatenation is the sum of the counts |
| Cart.CartCountReplace | App.tsx:64 | replacing a line changes the count by the difference of the quantities |
| Cart.CartCountAtLeastLines | App.tsx:64 | with quantities at least 1 the count is at least the number of lines |
| Cart.DistinctLine | App.tsx:29 | in a cart with distinct ids, two lines with the same id are the same line |
| Cart.IncrementAt | components/CartDrawer.tsx:69 | the "+" update on a line of a valid cart adds exactly one unit to that line and changes nothing else |
| Cart.IncrementSubtotal | components/CartDrawer.tsx:69 | "+" raises the subtotal by the line's unit price |
| Cart.DecrementSubtotal | components/CartDrawer.tsx:62 | "-" lowers the subtotal by the unit price, except on a line of quantity 1, which is left as it is |
| Cart.CartAfterValid | App.tsx:138-145 | whatever event the drawer raises, the cart stays valid |
| Cart.QuantityControlEffect | components/CartDrawer.tsx:61-73 | a rendered -/+ control carries delta -1 or +1 for a line of the cart, and its update changes that one line to max(1, q + delta) |
| Cart.RemoveControlEffect | components/CartDrawer.tsx:75-80 | a rendered remove control carries the id of a line of the cart, and its update deletes exactly that line, keeping the order of the rest |
| CartDrawer.SubtotalConcat | components/CartDrawer.tsx:16 | the subtotal of a concatenation is the sum of the subtotals |
| CartDrawer.SubtotalAppend | components/CartDrawer.tsx:16 | appending a line adds exactly price times quantity of that line |
| CartDrawer.SubtotalIsSum | components/CartDrawer.tsx:16 | the left fold equals the plain sum of price times quantity over all lines, and the empty cart's subtotal is 0 |
| CartDrawer.SubtotalNonNegative | components/CartDrawer.tsx:16 | with no negative quantity the subtotal is not negative |
| CartDrawer.SubtotalAround | components/CartDrawer.tsx:16 | the subtotal of a cart around one line is the subtotals of both sides plus that line's total |
| CartDrawer.SubtotalDelete | components/CartDrawer.tsx:16 | deleting the line at index k takes its total off the subtotal |
| CartDrawer.SubtotalReplace | components/CartDrawer.tsx:16 | replacing a line changes the subtotal by the difference of the two line totals |
| CartDrawer.LineTotalChange | components/CartDrawer.tsx:16 | a new quantity changes a line's total by the unit price times the change |
| CartDrawer.SubtotalAfterQuantityChange | components/CartDrawer.tsx:16 | setting one line's quantity changes the subtotal by the unit price times the change |
| CartDrawer.SubtotalUnitChange | components/CartDrawer.tsx:16 | one unit more or less on a line moves the subtotal by exactly its unit price |
| CartDrawer.PriceLabelValue | components/CartDrawer.tsx:57 | the line's price label is "$" and a numeral with two fraction digits that reads back as the unit price |
| CartDrawer.SubtotalLabelValue | components/CartDrawer.tsx:92 | the subtotal label is "$" and a numeral with two fraction digits that reads back as the subtotal |
| CartDrawer.AllLineControlsOffered | components/CartDrawer.tsx:49-84 | the line controls are exactly a -1 change, a +1 change and a removal for each id in the cart |
| CartDrawer.ControlsOffered | components/CartDrawer.tsx:20-103 | an event has a rendered control exactly when it is offered: close always, -1/+1 and remove for a line of the cart, checkout for a non-empty cart |
| CartDrawer.CheckoutShownIffNonEmpty | components/CartDrawer.tsx:88-102 | the checkout button is rendered exactly when the cart is not empty |
| App.Storefront.constructor | App.tsx:12-16 | the initial state: "All", empty query, empty cart, drawer closed, browsing |
| App.Storefront.SetActiveCategory | App.tsx:111 | a category button sets the active category and nothing else |
| App.Storefront.SetSearchQuery | App.tsx:67 | the search box sets the query and nothing else |
| App.Storefront.AddToCart | App.tsx:27-36 | the cart becomes the add update of the old cart, the drawer opens, the badge count rises by one, and the cart stays valid |
| App.Storefront.RemoveFromCart | App.tsx:38-40 | the cart becomes the remove update of the old cart and stays valid; nothing else changes |
| App.Storefront.UpdateQuantity | App.tsx:42-50 | the cart becomes the quantity update of the old cart and stays valid; nothing else changes |
| App.Storefront.HandleCheckout | App.tsx:52-55 | checkout shows the processing step, closes the drawer and schedules one timer, without touching the cart |
| App.Storefront.CheckoutTimerFires | App.tsx:55-58 | when a checkout timer runs, the step becomes success and the cart is emptied |
| App.Storefront.ContinueExploring | App.tsx:174 | "Continue Exploring" returns the step to browsing and changes nothing else |
| App.Storefront.OpenCart | App.tsx:65 | the cart button opens the drawer and changes nothing else |
| App.Storefront.CloseCart | App.tsx:140 | the drawer's close handler closes it and changes nothing else |
| App.Storefront.OnDrawerEvent | App.tsx:138-145 | each drawer event reaches its handler: close closes, -/+ and remove update the cart, checkout starts processing and schedules exactly one timer; every other event leaves the pending timers as they were |
| GeminiService.SelectApiKey | geminiService.ts:5 | the key is API_KEY when set and non-empty, else GEMINI_API_KEY when set and non-empty, else empty; it is non-empty exactly when one of them is |
| GeminiService.ProductLineSingle | geminiService.ts:14 | a product's line holds no line break when its text fields hold none |
| GeminiService.ProductsContextLines | geminiService.ts:14 | when no product text holds a line break, the catalog context splits at "\n" into exactly the product lines, in catalog order |
| GeminiService.CartContextEmpty | geminiService.ts:15-17 | the empty cart gives exactly "The user's cart is empty." |
| GeminiService.CartContextSingle | geminiService.ts:15-16 | a one-line cart gives the fixed prefix followed by that line's "name (Qty: n)" |
| GeminiService.CartContextAppend | geminiService.ts:15-16 | a line added to a non-empty cart appears last, after ", " |
| GeminiService.CartContextMentions | geminiService.ts:15-16 | the context of a cart includes the entry of every line |
| GeminiService.SystemInstructionEmbeds | geminiService.ts:19-32 | the instruction holds the catalog context right after the fixed head and the cart context right after the middle text |
| GeminiService.BuildRequest | geminiService.ts:35-43 | the request names the fixed model, temperature 0.7 and topP 0.95, and sends the user message as the contents |
| GeminiService.RequestEmbedsContexts | geminiService.ts:19-43 | every request's system instruction includes the catalog context and the context of its cart |
| GeminiService.ReplyText | geminiService.ts:45 | the reply is the response text when present and non-empty, otherwise the "couldn't process" message; it is never empty |
| GeminiService.GetShoppingAssistantResponse | geminiService.ts:8-50 | without a key, the unavailability message and no request; with a key, exactly the built request, and the reply text or the "technical moment" message when the call failed; the reply is never empty |
| ShoppingAssistant.InitialTranscript | components/AIShoppingAssistant.tsx:19-21 | the seed transcript, the greeting alone, is well formed |
| ShoppingAssistant.UserTurnKeepsWellFormed | components/AIShoppingAssistant.tsx:34-36 | a trimmed non-empty user turn keeps a settled transcript well formed |
| ShoppingAssistant.BotTurnKeepsWellFormed | components/AIShoppingAssistant.tsx:41-43 | a bot turn keeps a waiting transcript well formed |
| ShoppingAssistant.ExchangeKeepsWellFormed | components/AIShoppingAssistant.tsx:31-47 | a user turn and a bot turn together keep a settled transcript well formed and settled |
| ShoppingAssistant.SentTextIsTrimmed | components/AIShoppingAssistant.tsx:32-34 | the text sent is already trimmed and comes from an input holding a character that is not white space |
| ShoppingAssistant.AssistantPanel.constructor | components/AIShoppingAssistant.tsx:17-22 | the panel starts closed, with empty input, the greeting alone and not loading |
| ShoppingAssistant.AssistantPanel.SetInput | components/AIShoppingAssistant.tsx:102 | typing sets the input and nothing else |
| ShoppingAssistant.AssistantPanel.Open | components/AIShoppingAssistant.tsx:123 | the "Ask Nova" button opens the panel and nothing else changes |
| ShoppingAssistant.AssistantPanel.Close | components/AIShoppingAssistant.tsx:66 | the close button closes the panel and nothing else changes |
| ShoppingAssistant.AssistantPanel.BeginSend | components/AIShoppingAssistant.tsx:32-37 | blank input or a send in flight changes nothing; otherwise exactly one user turn with the trimmed input is appended, the input is cleared and loading starts, which disables the send button |
| ShoppingAssistant.AssistantPanel.CompleteSend | components/AIShoppingAssistant.tsx:39-46 | exactly one bot turn is appended (the reply, or the "creative circuits" message when the call threw), loading ends and the input typed meanwhile is kept |
| ShoppingAssistant.AssistantPanel.AwaitReply | components/AIShoppingAssistant.tsx:40-46 | the bot turn appended is the service's reply for the sent text and the current cart |
| ShoppingAssistant.AssistantPanel.HandleSend | components/AIShoppingAssistant.tsx:31-47 | a rejected send changes nothing; an accepted one appends exactly the trimmed user turn and the service's reply, keeps every earlier turn, clears the input and ends not loading |
| Constants.CatalogIds | constants.tsx:4-71 | six products with ids "1" to "6", pairwise distinct |
| Constants.CatalogCategories | constants.tsx:4-73 | every product's category is one of the categories after "All", and never "All" |
| Constants.CatalogPrices | constants.tsx:4-71 | every price is a positive number of cents |
| Constants.ElectronicsProducts | constants.tsx:4-71 | exactly the first two products are in Electronics |
| FilterScenarios.ElectronicsScenario | App.tsx:18-25 | ("Electronics", "") shows exactly products 1 and 2, in that order |
| FilterScenarios.EssentialKitMatchesOrganic | constants.tsx:40 | product 4's name includes "organic" once lower-cased |
| FilterScenarios.HeadphonesMissesOrganic | constants.tsx:7-11 | product 1's name and description do not include "organic", ignoring case |
| FilterScenarios.SmartWatchMissesOrganic | constants.tsx:18-22 | product 2's name and description do not include "organic", ignoring case |
| FilterScenarios.ToteMissesOrganic | constants.tsx:29-33 | product 3's name and description do not include "organic", ignoring case |
| FilterScenarios.CoffeeTableMissesOrganic | constants.tsx:51-55 | product 5's name and description do not include "organic", ignoring case |
| FilterScenarios.SkincareSetMissesOrganic | constants.tsx:62-66 | product 6's name and description do not include "organic", ignoring case |
| FilterScenarios.OnlyEssentialKitMatchesOrganic | constants.tsx:4-71 | "organic" matches the product at index 3 (id "4") and no other |
| FilterScenarios.OrganicScenario | App.tsx:18-25 | ("All", "organic") shows product 4 alone |
| ContextScenarios.HeadphonesSingleLine | constants.tsx:7-11 | product 1's name, category and description hold no line break |
| ContextScenarios.SmartWatchSingleLine | constants.tsx:18-22 | product 2's text fields hold no line break |
| ContextScenarios.ToteSingleLine | constants.tsx:29-33 | product 3's text fields hold no line break |
| ContextScenarios.EssentialKitSingleLine | constants.tsx:40-44 | product 4's text fields hold no line break |
| ContextScenarios.CoffeeTableSingleLine | constants.tsx:51-55 | product 5's text fields hold no line break |
| ContextScenarios.SkincareSetSingleLine | constants.tsx:62-66 | product 6's text fields hold no line break |
| ContextScenarios.CatalogContextLines | geminiService.ts:14 | the catalog context of `PRODUCTS` splits at "\n" into exactly six lines, one per product in catalog order |
| Sequences.FilterMembers | App.tsx:19 | `filter` keeps exactly the elements that satisfy the predicate |
| Sequences.FilterIsSubsequence | App.tsx:19 | `filter` keeps the order of the elements it keeps |
| Sequences.FilterConcat | App.tsx:19 | filtering a concatenation filters each part |
| Sequences.FilterKeepsAll | App.tsx:19 | when every element is kept, `filter` changes nothing |
| Sequences.FilterDropsOne | App.tsx:39 | when exactly one element is rejected, `filter` deletes just that element |
| Sequences.FilterDropsAll | App.tsx:19 | when no element is kept, `filter` gives the empty list |
| Sequences.FilterCons | App.tsx:19 | filtering one element in front of a list keeps it exactly when the predicate holds |
| Text.ToLowerAppend | App.tsx:21-22 | lower-casing distributes over concatenation |
| Text.IncludesEmpty | App.tsx:21-22 | every string includes the empty string |
| Text.Trim | components/AIShoppingAssistant.tsx:32-34 | the trimmed text is empty exactly when the input is all white space; otherwise it begins and ends with a character that is not white space, and it sits in the input with only white space around it |
| Text.TrimIdempotent | components/AIShoppingAssistant.tsx:34 | trimming the trimmed input changes nothing |
| Text.JoinAppend | geminiService.ts:14-16 | joining one more part adds the separator and the part at the end |
| Text.JoinIncludes | geminiService.ts:14-16 | a joined string includes each of its parts |
| Text.SplitJoin | geminiService.ts:14 | splitting at the separator undoes the join when no part holds the separator |
| Text.NatToString | geminiService.ts:16 | the numeral of a whole number is a non-empty string of digits without a leading zero |
| Text.NatToStringValue | geminiService.ts:16 | the numeral reads back as the number |
| Text.IntToStringValue | geminiService.ts:16 | `${i.quantity}` reads back as the quantity, negative or not |
| Text.CentsToStringValue | geminiService.ts:14 | `${p.price}` reads back as the price and never ends a fraction in "0" |
| Text.ToFixed2Value | components/CartDrawer.tsx:57 | `toFixed(2)` of an amount reads back as the amount and always ends in a point and two digits |
| Catalog.MatchesCategory | App.tsx:20 | `matchesCategory`: "All" is active, or the product's category equals the active one |
| Catalog.MatchesSearch | App.tsx:21-22 | `matchesSearch`: the lower-cased query occurs in the lower-cased name or in the lower-cased description |
| Catalog.IsVisible | App.tsx:23 | a product is shown when it matches both the category and the search |
| Cart.Max | App.tsx:45 | `Math.max`: the result is at least each argument and is one of them |
| Cart.IncrementLines | App.tsx:31 | the `map` that gives the line with the id one more unit and keeps every other line (its properties are stated by `Cart.AddToCartExisting`) |
| Cart.CartCount | App.tsx:64 | the badge count: the quantities summed from the left starting at 0 (its properties are stated by the `Cart.CartCount*` lemmas) |
| CartDrawer.LineTotal | components/CartDrawer.tsx:16 | one line's contribution to the subtotal, unit price times quantity |
| CartDrawer.Subtotal | components/CartDrawer.tsx:16 | the `reduce` from 0 over the lines, a left fold (its properties are stated by the `CartDrawer.Subtotal*` lemmas) |
| CartDrawer.PriceLabel | components/CartDrawer.tsx:57 | the unit price as "$" followed by `toFixed(2)` (read back by `CartDrawer.PriceLabelValue`) |
| CartDrawer.SubtotalLabel | components/CartDrawer.tsx:92 | the subtotal as "$" followed by `toFixed(2)` (read back by `CartDrawer.SubtotalLabelValue`) |
| CartDrawer.LineControls | components/CartDrawer.tsx:61-80 | the three controls of one line: -1, +1 and remove, each for that line's id |
| CartDrawer.AllLineControls | components/CartDrawer.tsx:49-84 | the controls of every line, in cart order |
| CartDrawer.Controls | components/CartDrawer.tsx:20-102 | the drawer's controls in document order: backdrop and header close, then the empty-cart close or every line's controls and checkout (characterised by `CartDrawer.ControlsOffered`) |
| App.Storefront.FilteredProducts | App.tsx:18-25 | the catalog filter applied to the current category and query |
| App.Storefront.CartCount | App.tsx:64 | the badge count of the current cart |
| GeminiService.ProductLine | geminiService.ts:14 | one catalog line: name, " ($", the price as JavaScript prints it, ") in ", the category, ": " and the description |
| GeminiService.ProductsContext | geminiService.ts:14 | the catalog lines joined by "\n" (split back by `GeminiService.ProductsContextLines`) |
| GeminiService.CartEntry | geminiService.ts:16 | one cart entry: the name, " (Qty: ", the quantity and ")" |
| GeminiService.CartContext | geminiService.ts:15-17 | the fixed prefix and the entries joined by ", " for a non-empty cart, the fixed sentence otherwise (characterised by the `GeminiService.CartContext*` lemmas) |
| GeminiService.SystemInstruction | geminiService.ts:19-32 | the template literal with both contexts substituted (characterised by `GeminiService.SystemInstructionEmbeds`) |
| ShoppingAssistant.BotReply | components/AIShoppingAssistant.tsx:40-44 | the bot turn's text: the awaited reply, or the "creative circuits" message when the call threw |
| ShoppingAssistant.WellFormed | components/AIShoppingAssistant.tsx:19-43 | the transcript shape every handler keeps: the greeting first, then user and bot turns alternating, every user turn trimmed and non-empty |
| ShoppingAssistant.AssistantPanel.SendDisabled | components/AIShoppingAssistant.tsx:109 | `disabled={isLoading}`: the send button is disabled while a reply is awaited |
| Text.ToLower | App.tsx:21-22 | `toLowerCase` on the ASCII letters; the result has the input's length |
| Text.Includes | App.tsx:21-22 | `includes`: the query occurs at some index of the text |
| Text.Join | geminiService.ts:14 | `join`: the parts with the separator between neighbours (split back by `Text.SplitJoin`) |
| Text.IntToString | geminiService.ts:16 | `${quantity}`: a minus sign for a negative number, then the digits (read back by `Text.IntToStringValue`) |
| Text.CentsToString | geminiService.ts:14 | `${price}`: whole dollars, then a point and the shortest fraction when the cents are not 0 (read back by `Text.CentsToStringValue`) |
| Text.ToFixed2 | components/CartDrawer.tsx:57 | `toFixed(2)`: the whole part, a point and always two fraction digits (read back by `Text.ToFixed2Value`) |

## Left out

- Rendering: the JSX markup, styling, icons, the hero section and footer, the
  drawer slide animation, and the transcript's auto-scroll effect
  (`useEffect` at components/AIShoppingAssistant.tsx:25-29). They are
  presentation only.
- components/Navigation.tsx and components/ProductGrid.tsx are not part of this
  model. They forward props and callbacks.
- The `Order` and `User` records and the `Category` type of types.ts are not
  used by the modelled code. The product's rating, review count and stock
  count are informational and are left out of `Product`.
- The Gemini SDK client (geminiService.ts:2 and 6), the network call itself
  (35-43) and `console.error` (47) are foreign code. The call's outcome is a
  parameter. No key means no client, so the `!apiKey || !ai` test is modelled
  as "the key is empty".
- Time and asynchrony: the 2500 ms delay is not modelled. A checkout timer
  is a pending count with a method for its callback. Because `handleSend` is
  split at its `await`, other handlers may run in between. Nothing is
  concurrent.
- `ShoppingAssistant.AssistantPanel.HandleSend`: composes the two halves with
  the service call and no other handler in between. Interleavings are covered
  by `BeginSend` and `CompleteSend` alone.
- `ShoppingAssistant.AssistantPanel.AwaitReply`: never passes `Threw`, since the
  modelled service catches every error. The `catch` branch of `handleSend`
  is modelled by `CompleteSend(Threw)`.
- The Enter key (`onKeyDown`, components/AIShoppingAssistant.tsx:103) calls the
  same `handleSend` that the send button calls. The key test itself is not
  modelled.
- The profile `alert` (App.tsx:66) and the order number "#NV-82910" are
  display-only text.
- Floating point:
  - prices are whole cents, and sums are exact integers;
  - `temperature` and `topP` are Dafny reals;
  - `Text.CentsToString` renders only amounts of whole cents, which every
    catalog price is.
- `Text.ToLower`: lower-cases the ASCII letters only. Full Unicode case
  mapping, such as the changes in length it can cause, is not modelled.
- `Text.ToFixed2`: the facts proved about two-digit rendering are for
  non-negative amounts. The negative case is written out but has no lemma.
- The product images are built from fixed URL parts by
  `Constants.UnsplashImage`. Nothing is proved about them.
