/** The service layer (services/geminiService.ts): the requests it builds
    for the language-model provider and how it turns the provider's
    outcome into what the screens receive. The provider is not modelled;
    the outcome of each call is a parameter: text, no text, or a failure. */
module Gateway {
  import opened Outcomes
  import opened Text
  import opened Types
  import opened Schema

  const ModelId: string := "gemini-2.5-flash"

  const RecipeInstruction: string :=
    "Eres un chef útil y motivador. Responde siempre en español."

  const ChatInstruction: string :=
    "Eres Chef4U, un asistente de cocina amigable, joven y experto en ahorro. "
    + "Ayudas a principiantes a cocinar rico y barato. Tus respuestas son breves y directas."

  const MissingKeyChatReply: string := "Por favor configura tu API KEY para hablar con el chef."
  const EmptyChatReply: string := "Lo siento, me quedé sin ideas. ¿Intentamos otra vez?"
  const ConnectionChatReply: string := "Tuve un problema de conexión. Intenta de nuevo más tarde."

  // ---------------------------------------------------------------------
  // The recipe schema declared to the provider

  const PlainString: Schema := StringSchema([], None)

  /** One recipe: every field of Recipe except `id`, all but `calories` required. */
  const RecipeItemSchema: Schema := ObjectSchema(
    [ Property("title", PlainString),
      Property("description", PlainString),
      Property("time", StringSchema([], Some("Tiempo estimado, ej: '15 min'"))),
      Property("difficulty", StringSchema([Facil.Label(), Medio.Label(), Dificil.Label()], None)),
      Property("ingredients", ArraySchema(PlainString)),
      Property("steps", ArraySchema(PlainString)),
      Property("calories", StringSchema([], Some("Calorías estimadas por ración"))) ],
    ["title", "description", "time", "difficulty", "ingredients", "steps"])

  /** `recipeSchema`: an array of recipes. */
  const RecipeSchema: Schema := ArraySchema(RecipeItemSchema)

  function StringArray(items: seq<string>): Json {
    JArray(seq(|items|, i requires 0 <= i < |items| => JString(items[i])))
  }

  /** A draft written as the JSON object the schema describes; `calories`
      is present only when the draft has one. */
  function EncodeDraft(d: RecipeDraft): Json {
    JObject(
      [ Member("title", JString(d.title)),
        Member("description", JString(d.description)),
        Member("time", JString(d.time)),
        Member("difficulty", JString(d.difficulty.Label())),
        Member("ingredients", StringArray(d.ingredients)),
        Member("steps", StringArray(d.steps)) ]
      + (if d.calories.Some? then [Member("calories", JString(d.calories.value))] else []))
  }

  function ParseDifficulty(text: string): Option<Difficulty> {
    if text == Facil.Label() then Some(Facil)
    else if text == Medio.Label() then Some(Medio)
    else if text == Dificil.Label() then Some(Dificil)
    else None
  }

  function ReadString(members: seq<Member>, key: string): Option<string> {
    match Get(members, key)
    case Some(JString(t)) => Some(t)
    case _ => None
  }

  function ReadStrings(members: seq<Member>, key: string): Option<seq<string>> {
    match Get(members, key)
    case Some(JArray(es)) =>
      if forall e | e in es :: e.JString? then Some(seq(|es|, i requires 0 <= i < |es| => es[i].text)) else None
    case _ => None
  }

  /** The reading of a JSON object as a draft that the `as Omit<Recipe, 'id'>`
      cast presumes. */
  function ReadDraft(j: Json): Option<RecipeDraft> {
    if !j.JObject? then None
    else
      var ms := j.members;
      match (ReadString(ms, "title"), ReadString(ms, "description"), ReadString(ms, "time"),
             ReadString(ms, "difficulty"), ReadStrings(ms, "ingredients"), ReadStrings(ms, "steps"))
      case (Some(title), Some(description), Some(time), Some(name), Some(ingredients), Some(steps)) =>
        (match ParseDifficulty(name)
         case Some(difficulty) => Some(RecipeDraft(title, description, ingredients, steps, time, difficulty, ReadString(ms, "calories")))
         case None => None)
      case _ => None
  }

  /** Each difficulty label reads back as its difficulty. */
  lemma ParseDifficultyLabel(d: Difficulty)
    ensures ParseDifficulty(d.Label()) == Some(d)
  {
    assert Facil.Label() != Medio.Label() && Facil.Label() != Dificil.Label() && Medio.Label() != Dificil.Label();
  }

  /** Where each field of an encoded draft is found. */
  lemma EncodedFields(d: RecipeDraft)
    ensures Get(EncodeDraft(d).members, "title") == Some(JString(d.title))
    ensures Get(EncodeDraft(d).members, "description") == Some(JString(d.description))
    ensures Get(EncodeDraft(d).members, "time") == Some(JString(d.time))
    ensures Get(EncodeDraft(d).members, "difficulty") == Some(JString(d.difficulty.Label()))
    ensures Get(EncodeDraft(d).members, "ingredients") == Some(StringArray(d.ingredients))
    ensures Get(EncodeDraft(d).members, "steps") == Some(StringArray(d.steps))
    ensures Get(EncodeDraft(d).members, "calories") == if d.calories.Some? then Some(JString(d.calories.value)) else None
  {
    EncodedTextFields(d);
    EncodedListFields(d);
    if d.calories.Some? {
      FieldAt(d, "calories", 6);
    } else {
      NoCalories(d);
    }
  }

  lemma EncodedTextFields(d: RecipeDraft)
    ensures Get(EncodeDraft(d).members, "title") == Some(JString(d.title))
    ensures Get(EncodeDraft(d).members, "description") == Some(JString(d.description))
    ensures Get(EncodeDraft(d).members, "time") == Some(JString(d.time))
    ensures Get(EncodeDraft(d).members, "difficulty") == Some(JString(d.difficulty.Label()))
  {
    EncodedHeadFields(d);
    EncodedMiddleFields(d);
  }

  lemma EncodedHeadFields(d: RecipeDraft)
    ensures Get(EncodeDraft(d).members, "title") == Some(JString(d.title))
    ensures Get(EncodeDraft(d).members, "description") == Some(JString(d.description))
  {
    FieldAt(d, "title", 0);
    FieldAt(d, "description", 1);
  }

  lemma EncodedMiddleFields(d: RecipeDraft)
    ensures Get(EncodeDraft(d).members, "time") == Some(JString(d.time))
    ensures Get(EncodeDraft(d).members, "difficulty") == Some(JString(d.difficulty.Label()))
  {
    FieldAt(d, "time", 2);
    FieldAt(d, "difficulty", 3);
  }

  lemma EncodedListFields(d: RecipeDraft)
    ensures Get(EncodeDraft(d).members, "ingredients") == Some(StringArray(d.ingredients))
    ensures Get(EncodeDraft(d).members, "steps") == Some(StringArray(d.steps))
  {
    FieldAt(d, "ingredients", 4);
    FieldAt(d, "steps", 5);
  }

  lemma NoCalories(d: RecipeDraft)
    requires d.calories.None?
    ensures Get(EncodeDraft(d).members, "calories") == None
  {
    var ms := EncodeDraft(d).members;
    assert forall k :: 0 <= k < |ms| ==> ms[k].key != "calories";
  }

  /** The member at `i` of an encoded draft is the only one with its key. */
  lemma FieldAt(d: RecipeDraft, key: string, i: nat)
    requires i < |EncodeDraft(d).members| && EncodeDraft(d).members[i].key == key
    ensures Get(EncodeDraft(d).members, key) == Some(EncodeDraft(d).members[i].value)
  {
    var ms := EncodeDraft(d).members;
    var keys := ["title", "description", "time", "difficulty", "ingredients", "steps", "calories"];
    assert forall k :: 0 <= k < |ms| ==> ms[k].key == keys[k];
    GetLast(ms, key, i);
  }

  /** Each member of an encoded draft meets the schema declared for its key. */
  lemma EncodedMemberConforms(d: RecipeDraft, i: nat)
    requires i < |EncodeDraft(d).members|
    ensures PropertySchema(RecipeItemSchema.properties, EncodeDraft(d).members[i].key)
            == Some(RecipeItemSchema.properties[i].schema)
    ensures Conforms(EncodeDraft(d).members[i].value, RecipeItemSchema.properties[i].schema)
  {
    EncodedKeyDeclared(d, i);
    if i == 3 {
      EncodedDifficultyConforms(d);
    } else if i == 4 || i == 5 {
      EncodedListConforms(d, i);
    } else {
      EncodedStringConforms(d, i);
    }
  }

  /** The member at `i` of an encoded draft carries the name of the
      property declared at `i`, and that declaration is the first. */
  lemma EncodedKeyDeclared(d: RecipeDraft, i: nat)
    requires i < |EncodeDraft(d).members|
    ensures EncodeDraft(d).members[i].key == RecipeItemSchema.properties[i].name
    ensures PropertySchema(RecipeItemSchema.properties, EncodeDraft(d).members[i].key)
            == Some(RecipeItemSchema.properties[i].schema)
  {
    var ms, props := EncodeDraft(d).members, RecipeItemSchema.properties;
    var keys := ["title", "description", "time", "difficulty", "ingredients", "steps", "calories"];
    assert forall k :: 0 <= k < |ms| ==> ms[k].key == keys[k];
    assert forall k :: 0 <= k < |props| ==> props[k].name == keys[k];
    PropertySchemaAt(props, i);
  }

  lemma EncodedStringConforms(d: RecipeDraft, i: nat)
    requires i < |EncodeDraft(d).members| && (i <= 2 || i == 6)
    ensures Conforms(EncodeDraft(d).members[i].value, RecipeItemSchema.properties[i].schema)
  {
    var ms, props := EncodeDraft(d).members, RecipeItemSchema.properties;
    assert ms[i].value.JString?;
    assert props[i].schema.StringSchema? && props[i].schema.enumValues == [];
  }

  lemma EncodedDifficultyConforms(d: RecipeDraft)
    ensures Conforms(EncodeDraft(d).members[3].value, RecipeItemSchema.properties[3].schema)
  {
    assert EncodeDraft(d).members[3].value == JString(d.difficulty.Label());
    assert d.difficulty.Label() in [Facil.Label(), Medio.Label(), Dificil.Label()];
  }

  lemma EncodedListConforms(d: RecipeDraft, i: nat)
    requires i == 4 || i == 5
    ensures Conforms(EncodeDraft(d).members[i].value, RecipeItemSchema.properties[i].schema)
  {
    var xs := if i == 4 then d.ingredients else d.steps;
    assert EncodeDraft(d).members[i].value == StringArray(xs);
    assert RecipeItemSchema.properties[i].schema == ArraySchema(PlainString);
    assert forall e | e in StringArray(xs).elements :: Conforms(e, PlainString);
  }

  /** An encoded draft has every key the item schema requires. */
  lemma EncodedRequiredKeys(d: RecipeDraft)
    ensures forall k | k in RecipeItemSchema.required :: Get(EncodeDraft(d).members, k).Some?
  {
    var required := RecipeItemSchema.required;
    forall k | k in required ensures Get(EncodeDraft(d).members, k).Some? {
      var i :| 0 <= i < |required| && required[i] == k;
      EncodedRequiredKeyAt(d, i);
      FieldAt(d, k, i);
    }
  }

  /** The `i`-th required key is the key of the member at `i`. */
  lemma EncodedRequiredKeyAt(d: RecipeDraft, i: nat)
    requires i < |RecipeItemSchema.required|
    ensures i < |EncodeDraft(d).members| && EncodeDraft(d).members[i].key == RecipeItemSchema.required[i]
  {
    var ms, required := EncodeDraft(d).members, RecipeItemSchema.required;
    var keys := ["title", "description", "time", "difficulty", "ingredients", "steps"];
    assert required == keys;
    assert forall k :: 0 <= k < 6 ==> ms[k].key == keys[k];
  }

  /** Each member of an encoded draft meets its property's schema. */
  lemma EncodedMembersConform(d: RecipeDraft)
    ensures forall m | m in EncodeDraft(d).members ::
              match PropertySchema(RecipeItemSchema.properties, m.key)
              case None => true
              case Some(ps) => Conforms(m.value, ps)
  {
    var ms := EncodeDraft(d).members;
    forall m | m in ms
      ensures match PropertySchema(RecipeItemSchema.properties, m.key)
              case None => true
              case Some(ps) => Conforms(m.value, ps)
    {
      var i :| 0 <= i < |ms| && ms[i] == m;
      EncodedMemberConforms(d, i);
    }
  }

  /** Every draft, written as JSON, meets the declared item schema. */
  lemma EncodedDraftConforms(d: RecipeDraft)
    ensures Conforms(EncodeDraft(d), RecipeItemSchema)
  {
    EncodedRequiredKeys(d);
    EncodedMembersConform(d);
    ObjectConforms(EncodeDraft(d).members, RecipeItemSchema.properties, RecipeItemSchema.required);
  }

  /** Reading an encoded draft gives the draft back. */
  lemma ReadEncodedDraft(d: RecipeDraft)
    ensures ReadDraft(EncodeDraft(d)) == Some(d)
  {
    EncodedStringsRead(d);
    EncodedListsRead(d);
    ParseDifficultyLabel(d.difficulty);
  }

  /** The string fields of an encoded draft read back as the draft's. */
  lemma EncodedStringsRead(d: RecipeDraft)
    ensures ReadString(EncodeDraft(d).members, "title") == Some(d.title)
    ensures ReadString(EncodeDraft(d).members, "description") == Some(d.description)
    ensures ReadString(EncodeDraft(d).members, "time") == Some(d.time)
    ensures ReadString(EncodeDraft(d).members, "difficulty") == Some(d.difficulty.Label())
    ensures ReadString(EncodeDraft(d).members, "calories") == d.calories
  {
    EncodedFields(d);
  }

  /** The list fields of an encoded draft read back as the draft's. */
  lemma EncodedListsRead(d: RecipeDraft)
    ensures ReadStrings(EncodeDraft(d).members, "ingredients") == Some(d.ingredients)
    ensures ReadStrings(EncodeDraft(d).members, "steps") == Some(d.steps)
  {
    EncodedListFields(d);
    ReadStringArray(d.ingredients);
    ReadStringArray(d.steps);
  }

  /** The elements of an encoded string list read back as that list. */
  lemma ReadStringArray(xs: seq<string>)
    ensures forall e | e in StringArray(xs).elements :: e.JString?
    ensures var es := StringArray(xs).elements; seq(|es|, i requires 0 <= i < |es| => es[i].text) == xs
  {
  }

  /** Any JSON object meeting the declared item schema reads as a draft:
      the required fields are exactly what a Recipe without `id` needs. */
  lemma ConformingObjectReads(j: Json)
    requires Conforms(j, RecipeItemSchema)
    ensures ReadDraft(j).Some?
  {
    ConformingStringsRead(j);
    ConformingListsRead(j);
  }

  /** The required string fields of a conforming object are strings. */
  lemma ConformingStringsRead(j: Json)
    requires Conforms(j, RecipeItemSchema)
    ensures j.JObject?
    ensures ReadString(j.members, "title").Some? && ReadString(j.members, "description").Some?
    ensures ReadString(j.members, "time").Some?
    ensures ReadString(j.members, "difficulty").Some? && ParseDifficulty(ReadString(j.members, "difficulty").value).Some?
  {
    ConformingStringRead(j, 0);
    ConformingStringRead(j, 1);
    ConformingStringRead(j, 2);
    ConformingDifficultyReads(j);
  }

  /** A required plain-string field of a conforming object is a string. */
  lemma ConformingStringRead(j: Json, i: nat)
    requires Conforms(j, RecipeItemSchema)
    requires i < 3
    ensures j.JObject? && ReadString(j.members, RecipeItemSchema.properties[i].name).Some?
  {
    ItemPropertyRequired(i);
    RequiredMemberConforms(j, RecipeItemSchema.properties, RecipeItemSchema.required, i);
  }

  /** Each of the first six properties of the item schema is required and
      declared once. */
  lemma ItemPropertyRequired(i: nat)
    requires i < 6
    ensures i < |RecipeItemSchema.properties|
    ensures RecipeItemSchema.properties[i].name in RecipeItemSchema.required
    ensures forall k :: 0 <= k < i ==> RecipeItemSchema.properties[k].name != RecipeItemSchema.properties[i].name
  {
    var props, required := RecipeItemSchema.properties, RecipeItemSchema.required;
    var names := ["title", "description", "time", "difficulty", "ingredients", "steps", "calories"];
    assert forall k :: 0 <= k < |props| ==> props[k].name == names[k];
    assert required[i] == names[i];
  }

  /** The difficulty of a conforming object is one of the three labels. */
  lemma ConformingDifficultyReads(j: Json)
    requires Conforms(j, RecipeItemSchema)
    ensures j.JObject?
    ensures ReadString(j.members, "difficulty").Some? && ParseDifficulty(ReadString(j.members, "difficulty").value).Some?
  {
    ItemPropertyRequired(3);
    RequiredMemberConforms(j, RecipeItemSchema.properties, RecipeItemSchema.required, 3);
  }

  /** The required list fields of a conforming object are lists of strings. */
  lemma ConformingListsRead(j: Json)
    requires Conforms(j, RecipeItemSchema)
    ensures j.JObject?
    ensures ReadStrings(j.members, "ingredients").Some? && ReadStrings(j.members, "steps").Some?
  {
    ConformingListRead(j, 4);
    ConformingListRead(j, 5);
  }

  /** A required string-list field of a conforming object is a list of strings. */
  lemma ConformingListRead(j: Json, i: nat)
    requires Conforms(j, RecipeItemSchema)
    requires i == 4 || i == 5
    ensures j.JObject? && ReadStrings(j.members, RecipeItemSchema.properties[i].name).Some?
  {
    ItemPropertyRequired(i);
    RequiredMemberConforms(j, RecipeItemSchema.properties, RecipeItemSchema.required, i);
  }

  // ---------------------------------------------------------------------
  // generateRecipesFromIngredients

  /** The fields of the `generateContent` call that the service sets. */
  datatype ContentRequest = ContentRequest(
    model: string,
    contents: string,
    responseMimeType: string,
    responseSchema: Schema,
    systemInstruction: string)

  const PromptHead: string :=
    "\n    Eres Chef4U, un experto en cocina para estudiantes y principiantes.\n"
    + "    Tengo los siguientes ingredientes: "

  const PromptTail: string :=
    ".\n    Sugiere 3 recetas creativas, sencillas y deliciosas que pueda hacer principalmente con estos ingredientes.\n"
    + "    Puedes asumir que tengo básicos como sal, aceite, pimienta y agua.\n"
    + "    Mantén un tono joven y divertido.\n  "

  /** The recipe prompt: the ingredients joined with ", " inside a fixed text. */
  function RecipePrompt(ingredients: seq<string>): string {
    PromptHead + Join(ingredients, ", ") + PromptTail
  }

  /** The prompt carries every ingredient verbatim. */
  lemma PromptEmbedsIngredient(ingredients: seq<string>, i: nat)
    requires i < |ingredients|
    ensures Includes(RecipePrompt(ingredients), ingredients[i])
  {
    JoinEmbedsParts(ingredients, ", ", i);
    IncludesInContext(PromptHead, Join(ingredients, ", "), PromptTail, ingredients[i]);
  }

  /** The provider call the service makes, or None when no API key is set
      (the error is thrown before any call). */
  function RecipeRequest(apiKey: string, ingredients: seq<string>): (r: Option<ContentRequest>)
    ensures r.None? <==> apiKey == ""
    ensures r.Some? ==> r.value.responseSchema == RecipeSchema && r.value.model == ModelId
    ensures r.Some? ==> forall i :: 0 <= i < |ingredients| ==> Includes(r.value.contents, ingredients[i])
  {
    if apiKey == "" then None
    else
      assert forall i :: 0 <= i < |ingredients| ==> Includes(RecipePrompt(ingredients), ingredients[i]) by {
        forall i | 0 <= i < |ingredients| ensures Includes(RecipePrompt(ingredients), ingredients[i]) {
          PromptEmbedsIngredient(ingredients, i);
        }
      }
      Some(ContentRequest(ModelId, RecipePrompt(ingredients), "application/json", RecipeSchema, RecipeInstruction))
  }

  /** What `JSON.parse` made of the response text. */
  datatype ParsedText = JsonArray(drafts: seq<RecipeDraft>) | SyntaxError

  /** The provider's answer: a non-empty text, no text (absent or ""), or
      a thrown failure. */
  datatype RecipeResponse = Text(parsed: ParsedText) | NoText | ProviderFailure

  datatype GatewayError = MissingApiKey | ProviderError | ParseError

  /** `gen-<time>-<index>`. */
  function RecipeId(time: nat, index: nat): string {
    "gen-" + Decimal(time) + "-" + Decimal(index)
  }

  /** Position `p` of a digit string holds no '-'. */
  lemma DigitsHaveNoDash(s: string, p: nat)
    requires forall i :: 0 <= i < |s| ==> IsDigit(s[i])
    requires p < |s|
    ensures s[p] != '-'
  {
    assert IsDigit(s[p]);
  }

  /** Ids built for different indexes differ, whatever the clock readings:
      the index is the digit run after the last '-'. */
  lemma RecipeIdsDistinct(t1: nat, i1: nat, t2: nat, i2: nat)
    requires i1 != i2
    ensures RecipeId(t1, i1) != RecipeId(t2, i2)
  {
    var a, b := Decimal(i1), Decimal(i2);
    var x, y := RecipeId(t1, i1), RecipeId(t2, i2);
    assert x == ("gen-" + Decimal(t1) + "-") + a;
    assert y == ("gen-" + Decimal(t2) + "-") + b;
    if |a| < |b| {
      assert x[|x| - |a| - 1] == '-';
      assert y[|y| - |a| - 1] == b[|b| - |a| - 1];
      DigitsHaveNoDash(b, |b| - |a| - 1);
    } else if |b| < |a| {
      assert y[|y| - |b| - 1] == '-';
      assert x[|x| - |b| - 1] == a[|a| - |b| - 1];
      DigitsHaveNoDash(a, |a| - |b| - 1);
    } else {
      DecimalRoundTrip(i1);
      DecimalRoundTrip(i2);
      assert a != b;
      assert x[|x| - |a|..] == a && y[|y| - |b|..] == b;
    }
  }

  /** `recipes.map((r, index) => ({ ...r, id: ... }))`, where `clock(index)`
      is the Date.now() reading taken for item `index`. Each recipe keeps
      its draft's fields, in the same order, and the ids are pairwise
      distinct. */
  function AssignIds(drafts: seq<RecipeDraft>, clock: nat -> nat): (r: seq<Recipe>)
    ensures |r| == |drafts|
    ensures forall i :: 0 <= i < |r| ==> r[i] == WithId(drafts[i], RecipeId(clock(i), i))
    ensures forall i, j :: 0 <= i < |r| && 0 <= j < |r| && i != j ==> r[i].id != r[j].id
  {
    var r := seq(|drafts|, i requires 0 <= i < |drafts| => WithId(drafts[i], RecipeId(clock(i), i)));
    assert forall i, j :: 0 <= i < |r| && 0 <= j < |r| && i != j ==> r[i].id != r[j].id by {
      forall i, j | 0 <= i < |r| && 0 <= j < |r| && i != j ensures r[i].id != r[j].id {
        RecipeIdsDistinct(clock(i), i, clock(j), j);
      }
    }
    r
  }

  /** generateRecipesFromIngredients: no key fails before any call; a
      provider or parse failure is rethrown; no text is an empty list;
      otherwise the parsed drafts with fresh ids. */
  function GenerateRecipes(apiKey: string, ingredients: seq<string>, response: RecipeResponse, clock: nat -> nat)
    : (r: Result<seq<Recipe>, GatewayError>)
    ensures r.Success? <==> apiKey != "" && (response.NoText? || (response.Text? && response.parsed.JsonArray?))
    ensures r.Success? ==> forall i, j :: 0 <= i < |r.value| && 0 <= j < |r.value| && i != j ==> r.value[i].id != r.value[j].id
    ensures r.Success? && response.Text? ==>
              |r.value| == |response.parsed.drafts|
              && forall i :: 0 <= i < |r.value| ==> WithId(response.parsed.drafts[i], r.value[i].id) == r.value[i]
    ensures r.Success? && response.NoText? ==> r.value == []
  {
    if RecipeRequest(apiKey, ingredients).None? then Failure(MissingApiKey)
    else
      match response
      case ProviderFailure => Failure(ProviderError)
      case NoText => Success([])
      case Text(SyntaxError) => Failure(ParseError)
      case Text(JsonArray(drafts)) => Success(AssignIds(drafts, clock))
  }

  /** Without a key the result is the missing-key error, no request is
      built, and the provider's outcome plays no part. */
  lemma RecipesWithoutKey(ingredients: seq<string>, r1: RecipeResponse, r2: RecipeResponse, clock: nat -> nat)
    ensures RecipeRequest("", ingredients) == None
    ensures GenerateRecipes("", ingredients, r1, clock) == GenerateRecipes("", ingredients, r2, clock) == Failure(MissingApiKey)
  {
  }

  /** Provider and parse failures reach the caller unchanged in kind. */
  lemma RecipeFailuresPropagate(apiKey: string, ingredients: seq<string>, clock: nat -> nat)
    requires apiKey != ""
    ensures GenerateRecipes(apiKey, ingredients, ProviderFailure, clock) == Failure(ProviderError)
    ensures GenerateRecipes(apiKey, ingredients, Text(SyntaxError), clock) == Failure(ParseError)
  {
  }

  // ---------------------------------------------------------------------
  // chatWithChef

  datatype Part = Part(text: string)

  /** One turn of the history handed to the chat session. */
  datatype HistoryEntry = HistoryEntry(role: Role, parts: seq<Part>)

  /** The chat session the service opens and the message it sends. */
  datatype ChatRequest = ChatRequest(
    model: string,
    systemInstruction: string,
    history: seq<HistoryEntry>,
    message: string)

  /** The provider's answer to `sendMessage`: a text (possibly empty or
      absent, both written "") or a thrown failure. */
  datatype ChatResponse = Reply(text: string) | ChatFailure

  /** The session opened for a chat turn, or None when no key is set. */
  function ChatRequestFor(apiKey: string, history: seq<HistoryEntry>, message: string): (r: Option<ChatRequest>)
    ensures r.None? <==> apiKey == ""
    ensures r.Some? ==> r.value.history == history && r.value.message == message
  {
    if apiKey == "" then None else Some(ChatRequest(ModelId, ChatInstruction, history, message))
  }

  /** chatWithChef never throws: it returns the provider's text when that
      is non-empty and one of three fixed strings otherwise, so the answer
      is never empty. */
  function ChatWithChef(apiKey: string, history: seq<HistoryEntry>, message: string, response: ChatResponse): (r: string)
    ensures r != ""
    ensures r == MissingKeyChatReply || r == EmptyChatReply || r == ConnectionChatReply || response == Reply(r)
    ensures apiKey != "" && response.Reply? && response.text != "" ==> r == response.text
  {
    if ChatRequestFor(apiKey, history, message).None? then MissingKeyChatReply
    else
      match response
      case Reply(text) => if text != "" then text else EmptyChatReply
      case ChatFailure => ConnectionChatReply
  }

  /** Without a key the configuration message comes back and no session is opened. */
  lemma ChatWithoutKey(history: seq<HistoryEntry>, message: string, response: ChatResponse)
    ensures ChatRequestFor("", history, message) == None
    ensures ChatWithChef("", history, message, response) == MissingKeyChatReply
  {
  }

  /** With a key, an empty reply and a failure each map to their fixed string. */
  lemma ChatFallbacks(apiKey: string, history: seq<HistoryEntry>, message: string)
    requires apiKey != ""
    ensures ChatWithChef(apiKey, history, message, Reply("")) == EmptyChatReply
    ensures ChatWithChef(apiKey, history, message, ChatFailure) == ConnectionChatReply
  {
  }
}
