/** The "what is in your fridge" screen (components/FridgeChef.tsx): an
    ingredient list the user edits, and a request for recipes made from
    it, with a loading flag and an error message. */
module Fridge {
  import opened Outcomes
  import opened Text
  import opened Types
  import opened Gateway

  const GenerateErrorMessage: string :=
    "Hubo un error al contactar al Chef AI. Verifica tu conexión o intenta más tarde."

  /** `list.filter((_, i) => i !== index)`: the list without position
      `index`; an index outside the list removes nothing. */
  function RemoveAt<T>(s: seq<T>, index: int): (r: seq<T>)
    ensures 0 <= index < |s| ==> r == s[..index] + s[index + 1..]
    ensures !(0 <= index < |s|) ==> r == s
  {
    if s == [] then []
    else if index == 0 then s[1..]
    else [s[0]] + RemoveAt(s[1..], index - 1)
  }

  /** Removing the ingredient just added gives the list back. */
  lemma RemoveLastAdded<T>(s: seq<T>, x: T)
    ensures RemoveAt(s + [x], |s|) == s
  {
    assert (s + [x])[..|s|] == s;
  }

  /** Every stored ingredient is non-empty and has no surrounding white space. */
  predicate WellFormed(ingredients: seq<string>) {
    forall i :: 0 <= i < |ingredients| ==> ingredients[i] != [] && IsTrimmed(ingredients[i])
  }

  lemma AppendKeepsWellFormed(ingredients: seq<string>, item: string)
    requires WellFormed(ingredients) && item != [] && IsTrimmed(item)
    ensures WellFormed(ingredients + [item])
  {
    var r := ingredients + [item];
    forall i | 0 <= i < |r| ensures r[i] != [] && IsTrimmed(r[i]) {
      if i < |ingredients| {
        assert r[i] == ingredients[i];
      }
    }
  }

  class Kitchen {
    var ingredientInput: string
    var ingredients: seq<string>
    var recipes: seq<Recipe>
    var loading: bool
    var error: Option<string>

    predicate Valid()
      reads this
    {
      WellFormed(ingredients)
    }

    /** Whether the generate button is enabled: there is an ingredient and
        no request is in flight. */
    predicate GenerateEnabled()
      reads this
    {
      |ingredients| > 0 && !loading
    }

    constructor()
      ensures ingredientInput == "" && ingredients == [] && recipes == []
      ensures !loading && error == None
      ensures Valid()
    {
      ingredientInput := "";
      ingredients := [];
      recipes := [];
      loading := false;
      error := None;
    }

    method SetIngredientInput(text: string)
      modifies this
      ensures ingredientInput == text
      ensures ingredients == old(ingredients) && recipes == old(recipes)
      ensures loading == old(loading) && error == old(error)
    {
      ingredientInput := text;
    }

    /** addIngredient: a non-blank input is appended trimmed, with no
        check for duplicates, and the field is cleared; a blank input
        changes nothing. */
    method AddIngredient()
      requires Valid()
      modifies this
      ensures IsBlank(old(ingredientInput)) ==>
                ingredients == old(ingredients) && ingredientInput == old(ingredientInput)
      ensures !IsBlank(old(ingredientInput)) ==>
                ingredients == old(ingredients) + [Trim(old(ingredientInput))] && ingredientInput == ""
      ensures recipes == old(recipes) && loading == old(loading) && error == old(error)
      ensures Valid()
    {
      var item := Trim(ingredientInput);
      if item != [] {
        AppendKeepsWellFormed(ingredients, item);
        ingredients := ingredients + [item];
        ingredientInput := "";
      }
    }

    /** removeIngredient: drops position `index` and keeps the rest in order. */
    method RemoveIngredient(index: int)
      requires Valid()
      modifies this
      ensures ingredients == RemoveAt(old(ingredients), index)
      ensures ingredientInput == old(ingredientInput) && recipes == old(recipes)
      ensures loading == old(loading) && error == old(error)
      ensures Valid()
    {
      ingredients := RemoveAt(ingredients, index);
    }

    /** The synchronous start of handleGenerate: nothing happens without
        ingredients; otherwise loading is set and the error cleared. The
        handler itself does not look at `loading`; the disabled button does. */
    method StartGenerate() returns (started: bool)
      modifies this
      ensures started <==> |old(ingredients)| > 0
      ensures old(GenerateEnabled()) ==> started
      ensures started ==> loading && error == None
      ensures !started ==> loading == old(loading) && error == old(error)
      ensures ingredientInput == old(ingredientInput) && ingredients == old(ingredients) && recipes == old(recipes)
    {
      if |ingredients| == 0 {
        return false;
      }
      loading := true;
      error := None;
      return true;
    }

    /** The end of handleGenerate once the service has settled: recipes
        are replaced on success and kept on failure, where the fixed
        message is shown; loading is cleared either way. */
    method FinishGenerate(outcome: Result<seq<Recipe>, GatewayError>)
      modifies this
      ensures outcome.Success? ==> recipes == outcome.value && error == old(error)
      ensures outcome.Failure? ==> recipes == old(recipes) && error == Some(GenerateErrorMessage)
      ensures !loading
      ensures ingredientInput == old(ingredientInput) && ingredients == old(ingredients)
    {
      match outcome {
        case Success(generated) =>
          recipes := generated;
        case Failure(_) =>
          error := Some(GenerateErrorMessage);
      }
      loading := false;
    }

    /** handleGenerate, with the service's answer for this list given by the
        key, the provider's outcome and the clock. */
    method HandleGenerate(apiKey: string, response: RecipeResponse, clock: nat -> nat)
      modifies this
      ensures |old(ingredients)| == 0 ==>
                recipes == old(recipes) && loading == old(loading) && error == old(error)
      ensures |old(ingredients)| > 0 ==>
                var outcome := GenerateRecipes(apiKey, old(ingredients), response, clock);
                && !loading
                && (outcome.Success? ==> recipes == outcome.value && error == None)
                && (outcome.Failure? ==> recipes == old(recipes) && error == Some(GenerateErrorMessage))
      ensures ingredientInput == old(ingredientInput) && ingredients == old(ingredients)
    {
      var started := StartGenerate();
      if started {
        var outcome := GenerateRecipes(apiKey, ingredients, response, clock);
        FinishGenerate(outcome);
      }
    }
  }
}
