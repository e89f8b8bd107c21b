# Chef4U in Dafny

Chef4U is a cooking companion for students and beginners: a forum, a
supermarket price comparator, a "what is in my fridge" recipe generator,
a chat with an AI chef and a nutritionist. The forum keeps its posts in
local state and the price comparator searches a fixed product table;
only the fridge, chat and nutritionist screens call the Gemini language
model through the service module. This project models the logic of those
screens and of the service layer, and proves what they promise.

- `Outcomes` — `Option`, `Result`, and `Settled` (an awaited promise:
  fulfilled with a value or rejected).
- `Text` — the JavaScript string operations the screens use: `trim`,
  `toLowerCase`, `includes`, `join`, and `toString` of the non-negative
  integers `Date.now()` returns.
- `Lists` — `Array.prototype.filter` and order-preserving subsequences.
- `Types` — the records of `types.ts`, with the application's own Spanish
  enumeration values.
- `Schema` — the provider's response-schema language, JSON values, and when
  a value meets a schema.
- `Gateway` — `services/geminiService.ts`: the recipe schema, the recipe
  request and its ids, and the chat fallbacks. The provider is abstract:
  each call's outcome is a parameter.
- `Forum`, `Prices`, `Fridge`, `Chat`, `Nutrition` — the five screens. The
  list updates and the price search are functions. The component state is a
  class whose methods are the event handlers. An `async` handler is split
  into its synchronous start, its continuation once the awaited call has
  settled, and a method composing the two.

`Date.now()` readings and the API key are parameters. Prices are whole
euro cents.

## Model

| member | source | states |
|---|---|---|
| Forum.InitialPostsConsistent | components/Forum.tsx:5-43 | every seeded post has a non-negative like count, and at least one like when the reader has liked it |
| Forum.LikePost | components/Forum.tsx:52-63 | the list keeps its length; a post with the id flips `likedByMe` and its count moves by exactly one, down if it was liked and up otherwise, with no other field changed; every other post is unchanged |
| Forum.LikeTwiceRestores | components/Forum.tsx:56-58 | liking the same id twice gives back the original list |
| Forum.LikeKeepsLikesConsistent | components/Forum.tsx:57-58 | liking preserves "likes ≥ 0, and likedByMe ⇒ likes ≥ 1" for every post |
| Forum.NewPost | components/Forum.tsx:67-77 | the new post has the content as typed (untrimmed), the clock reading as id, category General, no likes, no comments and is not liked; it satisfies the likes invariant |
| Forum.CreatePost | components/Forum.tsx:66-78 | blank content leaves the list unchanged; otherwise exactly one post is added, at index 0, and the old posts follow it unchanged |
| Forum.CreateKeepsLikesConsistent | components/Forum.tsx:73-78 | creating a post preserves the likes invariant |
| Forum.CommentOn | components/Forum.tsx:84-97 | the list keeps its length; a post with the id gains the comment at the end of its comments, its old comments and other fields kept; every other post is unchanged |
| Forum.CommentKeepsLikesConsistent | components/Forum.tsx:84-97 | commenting preserves the likes invariant |
| Forum.CommentCountGrows | components/Forum.tsx:88-93 | a post's comment count grows by one when its id matches and by zero otherwise |
| Forum.ToggleSlot | components/Forum.tsx:101-107 | the slot closes exactly when the toggled id was the open one; otherwise the toggled id becomes the only open one |
| Forum.ToggleSlotTwice | components/Forum.tsx:101-107 | toggling the same id twice from closed, or from that id open, returns to the start |
| Forum.FilteredPostsExact | components/Forum.tsx:109-111 | a category shows exactly the posts of that category, each as often as on the board, in the board's order |
| Forum.FilteredPostsWhole | components/Forum.tsx:109-111 | 'Todas' shows the whole board |
| Forum.Board.constructor | components/Forum.tsx:46-50 | the board starts with the seeded posts, empty text fields, 'Todas' and no open comments, and satisfies the likes invariant |
| Forum.Board.HandleLike | components/Forum.tsx:52-63 | the posts become `LikePost` of the old posts; the other fields stay; the likes invariant is kept |
| Forum.Board.HandleCreatePost | components/Forum.tsx:65-80 | the posts become `CreatePost` of the old posts and the typed text; the text field is cleared only when a post was made; the invariant is kept |
| Forum.Board.HandleAddComment | components/Forum.tsx:82-99 | blank text changes nothing; otherwise the comment goes to the matching post and the comment field is cleared; the invariant is kept |
| Forum.Board.ToggleComments | components/Forum.tsx:101-107 | the open slot becomes `ToggleSlot` of the old slot; nothing else changes |
| Forum.Board.SetActiveCategory | components/Forum.tsx:126 | only the category filter changes |
| Forum.Board.SetNewPostContent | components/Forum.tsx:148 | only the post text changes |
| Forum.Board.SetNewComment | components/Forum.tsx:234 | only the comment text changes |
| Prices.SeededProductsPriced | components/PriceComparator.tsx:6-76 | every seeded product has at least one price, so its best price and saving exist |
| Prices.SearchExact | components/PriceComparator.tsx:81-84 | a product is listed iff it is in the table and its lower-cased name or category contains the lower-cased term; the listing keeps the table's order and multiplicities |
| Prices.EmptyTermListsAll | components/PriceComparator.tsx:81-84 | the empty term lists the whole table |
| Prices.SearchIgnoresCase | components/PriceComparator.tsx:82-83 | lower-casing the term first does not change which products match |
| Prices.Insert | components/PriceComparator.tsx:114 | one insertion step of the sort adds exactly the inserted entry to the list |
| Prices.InsertKeepsSorted | components/PriceComparator.tsx:114 | inserting an entry into a list in non-decreasing price order keeps it in that order |
| Prices.SortByPrice | components/PriceComparator.tsx:114 | the sorted copy is in non-decreasing price order and is a permutation of the product's prices |
| Prices.BestPrice | components/PriceComparator.tsx:115 | the best price is one of the product's prices and no price is lower |
| Prices.Saving | components/PriceComparator.tsx:116 | the saving is non-negative; every price lies within the saving above the best price, and one price lies exactly that far above it |
| Prices.SavingPositive | components/PriceComparator.tsx:146 | the saving line shows (saving > 0) exactly when two of the product's prices differ |
| Prices.CardFacts | components/PriceComparator.tsx:133-138 | a card lists exactly the product's prices (the same multiset), cheapest first; only the first line is marked best, and it holds the best price; the saving shows exactly when two prices differ |
| Prices.ViewFacts | components/PriceComparator.tsx:105-112 | the not-found message, with no card, appears iff no product matches; otherwise there is one card per listed product, in order |
| Prices.SearchLeche | components/PriceComparator.tsx:81-84 | searching "leche" lists only "Leche Entera 1L"; its best price is Lidl at 91 cents and the saving is 14 cents |
| Prices.LecheBest | components/PriceComparator.tsx:9-16 | the milk's best price is Lidl's 91 cents, and its dearest price is 105 cents, a saving of 14 |
| Prices.BestIsCheapest | components/PriceComparator.tsx:115 | a price strictly below all others is the best price |
| Prices.SavingIsSpread | components/PriceComparator.tsx:116 | the saving is the highest price minus the lowest |
| Fridge.RemoveAt | components/FridgeChef.tsx:21-23 | an index inside the list removes exactly that position and keeps the others in order; any other index leaves the list unchanged |
| Fridge.RemoveLastAdded | components/FridgeChef.tsx:16-22 | removing the ingredient just appended gives back the earlier list |
| Fridge.Kitchen.constructor | components/FridgeChef.tsx:8-12 | the screen starts with empty input, ingredients and recipes, not loading and with no error |
| Fridge.Kitchen.SetIngredientInput | components/FridgeChef.tsx:51 | only the input field changes |
| Fridge.Kitchen.AddIngredient | components/FridgeChef.tsx:14-19 | a non-blank input is appended trimmed, without de-duplication, and the field cleared; a blank input changes nothing; every stored ingredient stays non-empty and trimmed |
| Fridge.Kitchen.RemoveIngredient | components/FridgeChef.tsx:21-23 | the list becomes `RemoveAt` of the old list; the stored ingredients stay non-empty and trimmed |
| Fridge.Kitchen.StartGenerate | components/FridgeChef.tsx:25-28 | with no ingredients nothing happens; otherwise loading is set and the error cleared; a click on the enabled button (ingredients and not loading) always starts a request |
| Fridge.Kitchen.FinishGenerate | components/FridgeChef.tsx:29-36 | success replaces the recipes wholesale; failure keeps them and sets the fixed message; loading ends false either way |
| Fridge.Kitchen.HandleGenerate | components/FridgeChef.tsx:25-37 | an empty list changes nothing; otherwise loading ends false, the recipes are the service's result and the error is cleared on success, and on failure the recipes stay and the fixed message shows |
| Chat.Snapshot | components/AIChat.tsx:33-36 | the history has one turn per log message, in order; turn i has message i's role and its text as the only part |
| Chat.SnapshotKeepsRolesAndTexts | components/AIChat.tsx:33-36 | the history loses nothing of the log's roles and texts: two logs with the same history have the same roles and texts, message by message |
| Chat.SnapshotAppend | components/AIChat.tsx:33-36 | a message appended to the log appends its turn to the history |
| Chat.Conversation.constructor | components/AIChat.tsx:8-12 | the log is exactly the 'model' welcome message; input empty; not loading |
| Chat.Conversation.SetInput | components/AIChat.tsx:96 | only the input changes |
| Chat.Conversation.Send | components/AIChat.tsx:23-38 | blank input, or a send while loading, changes nothing; otherwise a 'user' turn with the input is appended, the input cleared and loading set, and the service gets the log as it was before this turn plus the text |
| Chat.Conversation.Receive | components/AIChat.tsx:40-50 | a reply appends one 'model' turn with its text; a failure appends the fixed isError turn; loading ends false |
| Chat.Conversation.HandleSend | components/AIChat.tsx:23-51 | a send that passes the guard grows the log by exactly two: the user's turn, then a non-empty 'model' turn holding `chatWithChef`'s answer; input is cleared and loading ends false |
| Nutrition.ScreenFor | components/Nutritionist.tsx:36-51 | the loading screen shows iff the step is loading; the plan shows iff the step is 'plan' and a plan is held; the form's button is enabled iff age, weight and height are filled |
| Nutrition.Nutritionist.constructor | components/Nutritionist.tsx:7-15 | step 'form', no plan, empty age, weight and height, goal 'Perder peso', speed 'Moderado' |
| Nutrition.Nutritionist.Submit | components/Nutritionist.tsx:17-20 | an empty age, weight or height changes nothing; otherwise the step becomes loading |
| Nutrition.Nutritionist.Settle | components/Nutritionist.tsx:21-28 | a plan is stored and the step becomes 'plan'; a failure returns to the form with the plan unchanged |
| Nutrition.Nutritionist.HandleGenerate | components/Nutritionist.tsx:17-29 | an incomplete profile changes nothing; otherwise success shows the plan and failure shows the form, plan unchanged |
| Nutrition.Nutritionist.Reset | components/Nutritionist.tsx:31-34 | the step is 'form' and there is no plan, whatever the state before |
| Nutrition.Nutritionist.SetAge | components/Nutritionist.tsx:136 | only the age changes |
| Nutrition.Nutritionist.SetWeight | components/Nutritionist.tsx:148 | only the weight changes |
| Nutrition.Nutritionist.SetHeight | components/Nutritionist.tsx:160 | only the height changes |
| Nutrition.Nutritionist.SetGoal | components/Nutritionist.tsx:175 | only the goal changes |
| Nutrition.Nutritionist.SetSpeed | components/Nutritionist.tsx:196 | only the speed changes |
| Gateway.ParseDifficultyLabel | types.ts:12 | each difficulty label reads back as its difficulty |
| Gateway.EncodedDraftConforms | services/geminiService.ts:13-34 | every recipe without its id, written as JSON, meets the declared item schema |
| Gateway.ConformingObjectReads | services/geminiService.ts:13-34 | every JSON object meeting the item schema reads as a recipe without id: the required keys and the difficulty enum cover exactly Recipe's required fields |
| Gateway.ReadEncodedDraft | services/geminiService.ts:61 | reading a recipe written as JSON gives the same recipe back |
| Gateway.PromptEmbedsIngredient | services/geminiService.ts:39-45 | the prompt contains every ingredient verbatim |
| Gateway.RecipeRequest | services/geminiService.ts:37-56 | no request is built iff the key is empty; a request uses the model and the recipe schema, and its prompt contains every ingredient |
| Gateway.RecipeIdsDistinct | services/geminiService.ts:62 | ids for different indexes differ, whatever the clock readings |
| Gateway.AssignIds | services/geminiService.ts:62 | each recipe keeps its item's fields and order and gets `gen-<time>-<index>`; ids are pairwise distinct |
| Gateway.GenerateRecipes | services/geminiService.ts:36-66 | success iff a key is set and the provider gives no text or a parsable array; no text gives []; parsed items keep their length, order and fields, with distinct ids |
| Gateway.RecipesWithoutKey | services/geminiService.ts:37 | with no key the result is the missing-key failure and no request is built, whatever the provider would say |
| Gateway.RecipeFailuresPropagate | services/geminiService.ts:63-66 | provider and parse failures are reported, never swallowed |
| Gateway.ChatRequestFor | services/geminiService.ts:72-79 | no chat session is opened iff the key is empty; the session gets the history and the message unchanged |
| Gateway.ChatWithChef | services/geminiService.ts:69-86 | the answer is never empty; it is the provider's non-empty text or one of three fixed strings |
| Gateway.ChatWithoutKey | services/geminiService.ts:70 | with no key the configuration string is returned and no session is opened |
| Gateway.ChatFallbacks | services/geminiService.ts:81-86 | an empty reply gives the "me quedé sin ideas" string; a failure gives the connection string |

## Left out

- Rendering: JSX, Tailwind classes, icons, Markdown, `scrollIntoView` and `alert` are presentation and browser calls. The failure alert of the nutritionist is not modelled; only its step change is.
- The Gemini SDK calls (`generateContent`, `chats.create`, `sendMessage`) are foreign calls. Each one's outcome is a parameter: text, no text, or a failure. `console.error` is left out.
- `JSON.parse(text) as Omit<Recipe, 'id'>[]` only casts. The model takes a parse result as either an array of recipes without ids or a syntax error. `ReadDraft` states what the cast presumes, and no validator is modelled.
- `generateNutritionPlan` is called by the nutritionist, but its body is not part of this model. Its outcome is a parameter.
- `Date.now()` readings are natural-number parameters. The API key read from the environment at start-up is a string parameter.
- Floating-point prices and `toFixed(2)` are not modelled. Prices are whole cents.
- Text.ToLower: only ASCII capitals and the Latin-1 capitals U+00C0–U+00DE (without U+00D7) are lowered, which covers Spanish. Other Unicode case mappings are left out.
- Prices.SortByPrice: the sort is stable, but the contract does not state stability.
- Chat.Conversation.HandleSend: the error turn cannot arise when composed with `chatWithChef`, which never throws. `Receive` models it on its own. The error turn always has the id 'err', so chat ids are not unique and the model claims no uniqueness.
- React's batching and scheduling are not modelled. Each handler is one sequential step, with the awaited result as an input. The model does not capture a stale `messages` value captured by the closure during a second send.
- `sw.js`, `App.tsx`, `Navigation.tsx`, `Home.tsx`, `RecipeFeed.tsx` and `RecipeCard.tsx` are I/O, view switching or static display.
- The service never checks a response against `recipeSchema`: it only casts the parsed JSON, so nothing checks that titles or steps are non-empty, and the model promises neither.
