/**
 * The recipe suggestions screen: a fixed catalog of recipe summaries whose
 * saved flags the heart button toggles by id, the scanned ingredients shown
 * as filter context, and a search box that filters nothing.
 */
module Recipes {
  import opened Wrappers

  /** A recipe summary; `missingIngredients` and `isSaved` are optional fields. */
  datatype Recipe = Recipe(
    id: int,
    title: string,
    image: string,
    cookTime: string,
    servings: int,
    difficulty: string,
    matchScore: int,
    missingIngredients: Option<seq<string>>,
    isSaved: Option<bool>)

  /** A recipe counts as saved when `isSaved` is `true`; an absent flag reads as not saved. */
  predicate Saved(recipe: Recipe) {
    recipe.isSaved == Some(true)
  }

  /** The catalog the screen starts from. */
  const MockRecipes: seq<Recipe> := [
    Recipe(1, "Classic Pasta Carbonara",
      "https://images.unsplash.com/photo-1612874742237-6526221588e3?w=800&h=600&fit=crop",
      "25 min", 4, "Easy", 95, Some(["Parmesan"]), Some(false)),
    Recipe(2, "Mediterranean Grilled Chicken",
      "https://images.unsplash.com/photo-1598103442097-8b74394b95c6?w=800&h=600&fit=crop",
      "35 min", 4, "Medium", 88, Some(["Olives", "Feta"]), Some(false)),
    Recipe(3, "Fresh Garden Salad Bowl",
      "https://images.unsplash.com/photo-1546069901-ba9599a7e63c?w=800&h=600&fit=crop",
      "15 min", 2, "Easy", 100, None, Some(true)),
    Recipe(4, "Homemade Margherita Pizza",
      "https://images.unsplash.com/photo-1574071318508-1cdbab80d002?w=800&h=600&fit=crop",
      "40 min", 4, "Medium", 82, Some(["Mozzarella", "Basil"]), Some(false))
  ]

  predicate DistinctIds(recipes: seq<Recipe>) {
    forall i, j :: 0 <= i < j < |recipes| ==> recipes[i].id != recipes[j].id
  }

  predicate SavedFlagsDefined(recipes: seq<Recipe>) {
    forall k :: 0 <= k < |recipes| ==> recipes[k].isSaved.Some?
  }

  /** The fixture's ids are pairwise distinct, its match scores lie in 0..100, and every saved flag is set. */
  lemma MockRecipesWellFormed()
    ensures DistinctIds(MockRecipes)
    ensures SavedFlagsDefined(MockRecipes)
    ensures forall k :: 0 <= k < |MockRecipes| ==> 0 <= MockRecipes[k].matchScore <= 100
  {
  }

  /** `{ ...recipe, isSaved: !recipe.isSaved }` */
  function FlipSaved(recipe: Recipe): (r: Recipe)
    ensures Saved(r) != Saved(recipe) && r.isSaved.Some?
    ensures r.(isSaved := recipe.isSaved) == recipe
  {
    recipe.(isSaved := Some(!Saved(recipe)))
  }

  /**
   * `recipes.map(recipe => recipe.id === id ? flip(recipe) : recipe)`: every
   * recipe with that id is flipped, every other one is kept, in place.
   */
  function ToggleSave(recipes: seq<Recipe>, id: int): (r: seq<Recipe>)
    ensures |r| == |recipes|
    ensures forall k :: 0 <= k < |recipes| ==>
      r[k] == if recipes[k].id == id then FlipSaved(recipes[k]) else recipes[k]
  {
    if recipes == [] then []
    else [if recipes[0].id == id then FlipSaved(recipes[0]) else recipes[0]] + ToggleSave(recipes[1..], id)
  }

  /** Toggling an id that no recipe has leaves the catalog as it is. */
  lemma ToggleSaveAbsentId(recipes: seq<Recipe>, id: int)
    requires forall k :: 0 <= k < |recipes| ==> recipes[k].id != id
    ensures ToggleSave(recipes, id) == recipes
  {
  }

  /**
   * Toggling twice restores every saved state; it restores the catalog itself
   * when its saved flags are all set, and otherwise turns an absent flag of a
   * toggled recipe into an explicit `false`.
   */
  lemma ToggleSaveTwice(recipes: seq<Recipe>, id: int)
    ensures var r := ToggleSave(ToggleSave(recipes, id), id);
      && |r| == |recipes|
      && (forall k :: 0 <= k < |recipes| ==> Saved(r[k]) == Saved(recipes[k]))
      && (forall k :: 0 <= k < |recipes| ==>
            r[k] == if recipes[k].id == id then recipes[k].(isSaved := Some(Saved(recipes[k]))) else recipes[k])
      && (SavedFlagsDefined(recipes) ==> r == recipes)
  {
    var r := ToggleSave(ToggleSave(recipes, id), id);
    if SavedFlagsDefined(recipes) {
      forall k | 0 <= k < |recipes| ensures r[k] == recipes[k] {
        var b := recipes[k].isSaved.value;
        assert recipes[k].isSaved == Some(b);
        assert Saved(recipes[k]) == b;
      }
    }
  }

  /** Toggling keeps every saved flag set once they all are. */
  lemma ToggleSaveKeepsFlagsDefined(recipes: seq<Recipe>, id: int)
    requires SavedFlagsDefined(recipes)
    ensures SavedFlagsDefined(ToggleSave(recipes, id))
  {
  }

  /** Toggling changes no id, so distinct ids stay distinct and every later toggle changes one recipe too. */
  lemma ToggleSaveKeepsIdsDistinct(recipes: seq<Recipe>, id: int)
    requires DistinctIds(recipes)
    ensures DistinctIds(ToggleSave(recipes, id))
  {
  }

  /** With distinct ids, toggling the id of recipe `i` changes recipe `i` and no other. */
  lemma ToggleSaveChangesOne(recipes: seq<Recipe>, i: nat)
    requires DistinctIds(recipes) && i < |recipes|
    ensures var r := ToggleSave(recipes, recipes[i].id);
      && Saved(r[i]) != Saved(recipes[i])
      && forall j :: 0 <= j < |recipes| && j != i ==> r[j] == recipes[j]
  {
  }

  /** The screen's state: the catalog, the search box text and the ingredients it was given. */
  datatype RecipesPage = RecipesPage(recipes: seq<Recipe>, searchQuery: string, ingredients: seq<string>)

  /** `location.state?.ingredients || []`: the scanned ingredients, or none without a payload. */
  function IngredientsContext(payload: Option<seq<string>>): (r: seq<string>)
    ensures payload.None? ==> r == []
    ensures payload.Some? ==> r == payload.value
  {
    payload.GetOr([])
  }

  /** Mounting the screen: the fixed catalog, an empty search box, the payload's ingredients. */
  function Mount(payload: Option<seq<string>>): (page: RecipesPage)
    ensures page.recipes == MockRecipes && page.searchQuery == ""
    ensures page.ingredients == IngredientsContext(payload)
  {
    RecipesPage(MockRecipes, "", IngredientsContext(payload))
  }

  /** The search box's change handler. */
  function SetSearchQuery(page: RecipesPage, query: string): (r: RecipesPage)
    ensures r.searchQuery == query
    ensures r.recipes == page.recipes && r.ingredients == page.ingredients
  {
    page.(searchQuery := query)
  }

  /** The heart button of the recipe card with that id. */
  function ToggleSaveOnPage(page: RecipesPage, id: int): (r: RecipesPage)
    ensures r.recipes == ToggleSave(page.recipes, id)
    ensures r.searchQuery == page.searchQuery && r.ingredients == page.ingredients
  {
    page.(recipes := ToggleSave(page.recipes, id))
  }

  /** The recipe cards rendered, in order: every recipe of the state, none hidden. */
  function Displayed(page: RecipesPage): (r: seq<Recipe>)
    ensures |r| == |page.recipes|
    ensures forall k :: 0 <= k < |r| ==> r[k] == page.recipes[k]
  {
    page.recipes
  }

  /** The search text never changes which recipes are displayed. */
  lemma SearchQueryFiltersNothing(page: RecipesPage, query: string)
    ensures Displayed(SetSearchQuery(page, query)) == Displayed(page)
    ensures Displayed(Mount(None)) == MockRecipes
  {
  }
}
