/**
 * The ingredient scanner screen: free-text ingredients collected in order
 * (no deduplication) and handed to the recipe catalog as its filter context.
 */
module Scanner {
  import opened Text
  import opened Sequences

  /** An ingredient as the add handler stores it: non-empty, with no surrounding whitespace. */
  predicate IsClean(ingredient: string) {
    ingredient != [] && IsTrimmed(ingredient)
  }

  predicate AllClean(ingredients: seq<string>) {
    forall k :: 0 <= k < |ingredients| ==> IsClean(ingredients[k])
  }

  /**
   * `[...ingredients, input.trim()]` when the trimmed input is non-empty, the
   * list unchanged otherwise.
   */
  function WithIngredientAdded(ingredients: seq<string>, input: string): (r: seq<string>)
    ensures IsBlank(input) ==> r == ingredients
    ensures !IsBlank(input) ==> r == ingredients + [Trim(input)]
  {
    if IsBlank(input) then ingredients else ingredients + [Trim(input)]
  }

  /** Adding keeps every stored ingredient clean. */
  lemma AddKeepsClean(ingredients: seq<string>, input: string)
    requires AllClean(ingredients)
    ensures AllClean(WithIngredientAdded(ingredients, input))
  {
  }

  /** Removing by position keeps every stored ingredient clean. */
  lemma RemoveKeepsClean(ingredients: seq<string>, index: int)
    requires AllClean(ingredients)
    ensures AllClean(RemoveAt(ingredients, index))
  {
  }

  /** The scanner screen's state: the collected ingredients and the text of the input. */
  class ScannerScreen {
    var ingredients: seq<string>
    var inputValue: string

    ghost predicate Valid()
      reads this
    {
      AllClean(ingredients)
    }

    /** Mounting the screen starts with no ingredients and an empty input. */
    constructor ()
      ensures Valid()
      ensures ingredients == [] && inputValue == ""
    {
      ingredients := [];
      inputValue := "";
    }

    /** The input's change handler. */
    method SetInputValue(text: string)
      requires Valid()
      modifies this`inputValue
      ensures Valid()
      ensures inputValue == text
    {
      inputValue := text;
    }

    /** The add button and the Enter key: append the trimmed input, then clear it. */
    method AddIngredient()
      requires Valid()
      modifies this
      ensures Valid()
      ensures ingredients == WithIngredientAdded(old(ingredients), old(inputValue))
      ensures inputValue == if IsBlank(old(inputValue)) then old(inputValue) else ""
    {
      if !IsBlank(inputValue) {
        AddKeepsClean(ingredients, inputValue);
        ingredients := ingredients + [Trim(inputValue)];
        inputValue := "";
      }
    }

    /** Clicking the badge at `index` removes that ingredient. */
    method RemoveIngredient(index: int)
      requires Valid()
      modifies this`ingredients
      ensures Valid()
      ensures ingredients == RemoveAt(old(ingredients), index)
    {
      RemoveKeepsClean(ingredients, index);
      ingredients := RemoveAt(ingredients, index);
    }

    /** "Find Recipe Suggestions": the payload is the current list itself, and nothing changes. */
    method FindRecipes() returns (payload: seq<string>)
      ensures payload == ingredients
    {
      payload := ingredients;
    }
  }
}
