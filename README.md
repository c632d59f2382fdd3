# Cooking companion: screen state, modelled in Dafny

This project models the state handling of four screens of a client-side
cooking app. All state lives in memory per screen and passes between screens as
navigation payloads.

- **Grocery list**: a list of `{name, amount?, checked}` items. It is seeded
  from a payload with every item unchecked. It has an add box that trims its
  input and ignores blank input, toggle and delete by position, checked/total
  counts with a progress bar, and a plain-text share format
  (`"✓ Milk - 1L\n○ Eggs"`).
- **Ingredient scanner**: an ordered list of trimmed, non-blank ingredient
  strings, with add, remove by position and a hand-off of the whole list to
  the recipe catalog.
- **Recipe detail**: the recipe from the payload, or a "not found" placeholder
  when there is none. It has a saved flag, an ingredient checklist whose
  unchecked items are handed to the grocery list, and step timer buttons that
  share one "active timer" marker.
- **Recipe catalog**: a fixed list of recipes whose `isSaved` flag the heart
  button toggles by id. It also shows the scanned ingredients as filter
  context, and has a search box that filters nothing.

Modules:
- `Wrappers` (Option) and `Text`: ECMAScript `trim`, `join` and `split`.
- `Sequences`: removal by position.
- `Checklist`: the item type and the operations the grocery list and the
  ingredient checklist share.
- One module per screen: `Grocery`, `Scanner`, `RecipeDetail` and `Recipes`.

Screens with state that handlers overwrite are classes whose methods assign
the results of pure list functions. The catalog screen is written as values
and functions, because its handler is a single `map` over the recipe list.

Where the prose description of the app and the code disagree, the model
follows the code:
- The ingredient collector removes by position, not by value.
- Adding a grocery item never takes an amount.
- Toggling or deleting at an index outside the list leaves the list as it is:
  `map` and `filter` match no element. The index is not simply assumed valid.

## Model

| member | source | states |
|---|---|---|
| `Text.Trim` | src/pages/GroceryList.tsx:30-31 | the result has no whitespace at either end, is no longer than the input, and is empty exactly when the input is all ECMAScript whitespace or line terminators |
| `Text.TrimUnique` | src/pages/Scanner.tsx:14-15 | any split of a string into whitespace prefix, trimmed middle and whitespace suffix has `Trim` as its middle, so `Trim` removes exactly the surrounding whitespace |
| `Text.TrimIdempotent` | src/pages/Scanner.tsx:15 | trimming an already trimmed value changes nothing |
| `Text.IsBlank` | src/pages/GroceryList.tsx:30 | the `if (x.trim())` test fails exactly when every character of the input is ECMAScript whitespace or a line terminator (the empty input included) |
| `Text.Join` | src/pages/GroceryList.tsx:51 | no parts join to `""` and one part joins to itself; otherwise the first part is a prefix of the result and the separator follows it; `SplitJoin` is its inverse |
| `Text.SplitJoin` | src/pages/GroceryList.tsx:51 | splitting a newline join at its newlines gives back the parts, when no part contains a newline |
| `Sequences.RemoveAt` | src/pages/GroceryList.tsx:43-45 | filtering out index `i` gives `xs[..i] + xs[i+1..]` for an index in range, and the list itself otherwise |
| `Sequences.RemoveAtKeepsOrder` | src/pages/Scanner.tsx:20-22 | removal at a valid index shortens the list by one; elements before it stay in place and elements after it move down by one |
| `Checklist.Flip` | src/pages/GroceryList.tsx:39 | the copy has `checked` inverted and the same name and amount |
| `Checklist.ToggleAt` | src/pages/GroceryList.tsx:37-41 | the result has the same length; the item at the index has its `checked` flipped with name and amount kept; every other item is unchanged |
| `Checklist.ToggleTwice` | src/pages/RecipeDetail.tsx:54-58 | toggling the same index twice restores the list |
| `Checklist.ToggleMovesCountByOne` | src/pages/GroceryList.tsx:38-40 | toggling one item changes the checked count by exactly one, in the direction of its old flag |
| `Checklist.CheckedCount` | src/pages/GroceryList.tsx:64-65 | `0 <= checkedCount <= totalCount`; it is 0 iff nothing is checked and equals the total iff everything is |
| `Checklist.Unchecked` | src/pages/RecipeDetail.tsx:61 | the filter keeps exactly the items that are in the list and unchecked, and nothing it keeps is checked |
| `Checklist.UncheckedAppend` | src/pages/RecipeDetail.tsx:61 | the filter distributes over concatenation, so kept items stay in their original order |
| `Checklist.UncheckedOfUnchecked` | src/pages/RecipeDetail.tsx:61 | a list with nothing checked passes the filter unchanged |
| `Checklist.CheckedAndUncheckedPartition` | src/pages/GroceryList.tsx:64-65 | checked count plus number of unchecked items equals the list length |
| `Grocery.Seed` | src/pages/GroceryList.tsx:19-26 | no payload gives the empty list; otherwise item `k` has payload item `k`'s name and amount, in order, with `checked` false |
| `Grocery.SeedItems` | src/pages/GroceryList.tsx:21-25 | the map keeps the length; item `k` has payload item `k`'s name and amount and is unchecked |
| `Grocery.SeedUncheckedIsIdentity` | src/pages/GroceryList.tsx:21-25 | seeding from items that are already unchecked reproduces them exactly |
| `Grocery.WithItemAdded` | src/pages/GroceryList.tsx:29-35 | blank input leaves the list unchanged; other input appends exactly one item `{trim(input), no amount, unchecked}` and keeps all earlier items |
| `Grocery.AddedNameIsClean` | src/pages/GroceryList.tsx:31 | an added item's name is non-empty, has no surrounding whitespace and is its own trim |
| `Grocery.Mark` | src/pages/GroceryList.tsx:50 | the mark is `✓` exactly for a checked item, and `○` otherwise |
| `Grocery.ShareLine` | src/pages/GroceryList.tsx:50 | a line starts with the item's mark and a space, followed by its name; `ShareLineFormat` fixes the rest |
| `Grocery.ShareLines` | src/pages/GroceryList.tsx:49-50 | one line per item, in list order |
| `Grocery.ShareText` | src/pages/GroceryList.tsx:49-51 | an empty list shares `""`; otherwise the text starts with the first item's line, so its first character is that item's mark, and a newline follows that line when more items come; `ShareTextLines` splits it back into all the lines |
| `Grocery.ShareLineFormat` | src/pages/GroceryList.tsx:50 | a line is the mark (`✓` iff checked, `○` iff not), a space and the name, followed by `" - " + amount` only when the amount is present and non-empty; its length is exactly that |
| `Grocery.ShareTextLines` | src/pages/GroceryList.tsx:49-51 | an empty list shares `""`; otherwise splitting the text at newlines gives exactly one line per item (no trailing newline), and line `k` starts with `✓` iff item `k` is checked |
| `Grocery.ShareTextSample` | src/pages/GroceryList.tsx:49-51 | `[Milk 1L checked, Eggs]` shares as `"✓ Milk - 1L\n○ Eggs"` |
| `Grocery.ProgressPercent` | src/pages/GroceryList.tsx:104 | the bar width lies between 0 and 100; it is 0 for an empty list (no division by zero) and iff nothing is checked; it is 100 iff the list is non-empty and all items are checked |
| `Grocery.GroceryListScreen.constructor` | src/pages/GroceryList.tsx:19-27 | mounting sets the list to the seeded payload and the input to `""` |
| `Grocery.GroceryListScreen.SetNewItem` | src/pages/GroceryList.tsx:84 | the input holds the typed text; the list is not touched |
| `Grocery.GroceryListScreen.AddItem` | src/pages/GroceryList.tsx:29-35 | the list becomes `WithItemAdded` of the old list and input; the input is cleared after a successful add and kept after a blank one |
| `Grocery.GroceryListScreen.ToggleItem` | src/pages/GroceryList.tsx:37-41 | the list becomes `ToggleAt` of the old list; the input is not touched |
| `Grocery.GroceryListScreen.DeleteItem` | src/pages/GroceryList.tsx:43-46 | the list becomes `RemoveAt` of the old list; the input is not touched |
| `Grocery.GroceryListScreen.ShareList` | src/pages/GroceryList.tsx:48-52 | the text sent is `ShareText` of the current list; the screen state does not change |
| `Grocery.GroceryListScreen.Progress` | src/pages/GroceryList.tsx:64-65 | returns the checked count and the list length, the first at most the second |
| `Scanner.WithIngredientAdded` | src/pages/Scanner.tsx:13-18 | blank input leaves the list unchanged; otherwise the trimmed input is appended without deduplication |
| `Scanner.AddKeepsClean` | src/pages/Scanner.tsx:14-15 | if every stored ingredient is non-empty and trimmed, that still holds after an add |
| `Scanner.RemoveKeepsClean` | src/pages/Scanner.tsx:20-22 | if every stored ingredient is non-empty and trimmed, that still holds after a removal |
| `Scanner.ScannerScreen.constructor` | src/pages/Scanner.tsx:10-11 | the screen starts with no ingredients and an empty input |
| `Scanner.ScannerScreen.SetInputValue` | src/pages/Scanner.tsx:64 | the input holds the typed text; the ingredients stay clean |
| `Scanner.ScannerScreen.AddIngredient` | src/pages/Scanner.tsx:13-18 | the list becomes `WithIngredientAdded` of the old list and input; the input is cleared after a successful add; every ingredient stays clean |
| `Scanner.ScannerScreen.RemoveIngredient` | src/pages/Scanner.tsx:20-22 | the list becomes `RemoveAt` of the old list; every ingredient stays clean |
| `Scanner.ScannerScreen.FindRecipes` | src/pages/Scanner.tsx:24-26 | the payload is exactly the current list, and the screen is not changed |
| `Recipes.MockRecipesWellFormed` | src/pages/Recipes.tsx:21-65 | the fixture's ids are pairwise distinct, every `isSaved` is set and every match score lies in 0..100 |
| `Recipes.FlipSaved` | src/pages/Recipes.tsx:76 | the saved state is inverted and becomes an explicit boolean; every other field is kept |
| `Recipes.ToggleSave` | src/pages/Recipes.tsx:74-78 | length and order are kept; every recipe whose id matches is flipped and every other recipe is unchanged |
| `Recipes.ToggleSaveAbsentId` | src/pages/Recipes.tsx:75-77 | an id no recipe has leaves the list unchanged |
| `Recipes.ToggleSaveTwice` | src/pages/Recipes.tsx:74-78 | toggling twice restores every saved state; with all flags set it restores the list exactly; otherwise an absent flag becomes an explicit `false` (undefined ≡ false) |
| `Recipes.ToggleSaveKeepsFlagsDefined` | src/pages/Recipes.tsx:76 | once every `isSaved` is set, toggling keeps them set |
| `Recipes.ToggleSaveChangesOne` | src/pages/Recipes.tsx:74-78 | with distinct ids, toggling the id of recipe `i` flips recipe `i` and leaves every other recipe unchanged |
| `Recipes.ToggleSaveKeepsIdsDistinct` | src/pages/Recipes.tsx:74-78 | a toggle changes no id, so distinct ids stay distinct and `ToggleSaveChangesOne` applies to every later toggle as well |
| `Recipes.IngredientsContext` | src/pages/Recipes.tsx:72 | the filter context is the payload's ingredients, or empty without a payload |
| `Recipes.Mount` | src/pages/Recipes.tsx:70-72 | the screen starts with the fixed catalog, an empty search and the payload's ingredients |
| `Recipes.SetSearchQuery` | src/pages/Recipes.tsx:95-100 | only the search text changes |
| `Recipes.ToggleSaveOnPage` | src/pages/Recipes.tsx:140-143 | the catalog becomes `ToggleSave` of it; search text and ingredients are kept |
| `Recipes.Displayed` | src/pages/Recipes.tsx:120 | one card per recipe of the state, in order: nothing is filtered out |
| `Recipes.SearchQueryFiltersNothing` | src/pages/Recipes.tsx:120 | the displayed recipes never depend on the search text; without a payload they are the fixture |
| `RecipeDetail.StepsWithTimers` | src/pages/RecipeDetail.tsx:190 | exactly the steps with a present, non-zero duration get a timer button |
| `RecipeDetail.HasTimer` | src/pages/RecipeDetail.tsx:190 | a step gets a timer button exactly when its duration, read as 0 when absent, is non-zero: the truthiness of `step.duration` |
| `RecipeDetail.TimerControls` | src/pages/RecipeDetail.tsx:179-209 | one button per step with a timer, in step order, carrying its step and duration; a button shows running exactly when the active marker equals its step number |
| `RecipeDetail.AtMostOneRunning` | src/pages/RecipeDetail.tsx:192 | when step numbers are distinct, at most one button shows "Timer Running" whatever the marker holds |
| `RecipeDetail.MockStepsDistinct` | src/pages/RecipeDetail.tsx:18-27 | the fixture's step numbers are pairwise distinct |
| `RecipeDetail.GroceryHandOff` | src/pages/RecipeDetail.tsx:60-66 | the payload is exactly `Unchecked(ingredients)` (every unchecked ingredient, in order, nothing else) and the notification count equals its length |
| `RecipeDetail.HandOffThenSeed` | src/pages/RecipeDetail.tsx:61-65 | seeding the grocery list from the hand-off gives exactly the unchecked ingredients, in order and all unchecked; their number is the total minus the checked count |
| `RecipeDetail.HandOffSample` | src/pages/RecipeDetail.tsx:61 | `[Spaghetti unchecked, Eggs checked]` hands off `[Spaghetti unchecked]` |
| `RecipeDetail.RecipeDetailScreen.constructor` | src/pages/RecipeDetail.tsx:41-45 | `isSaved` is the payload recipe's flag, or false without one; the checklist is the fixture; no timer is active |
| `RecipeDetail.RecipeDetailScreen.Render` | src/pages/RecipeDetail.tsx:68-74 | a missing recipe renders the not-found placeholder instead of failing; otherwise the view shows the recipe, saved flag and checklist, and exactly the timer buttons `TimerControls` gives for the steps and the active marker, at most one of them running |
| `RecipeDetail.RecipeDetailScreen.StartTimer` | src/pages/RecipeDetail.tsx:47-52 | the marker becomes the given step, replacing any earlier one, so two starts leave only the second |
| `RecipeDetail.RecipeDetailScreen.ToggleSaved` | src/pages/RecipeDetail.tsx:99 | the heart button inverts `isSaved` |
| `RecipeDetail.RecipeDetailScreen.ToggleIngredient` | src/pages/RecipeDetail.tsx:54-58 | the checklist becomes `ToggleAt` of the old checklist |
| `RecipeDetail.RecipeDetailScreen.AddToGroceryList` | src/pages/RecipeDetail.tsx:60-66 | returns the unchecked ingredients and their count, leaving the screen unchanged |

## Left out

- Toast notifications are fire-and-forget and never affect state. They are not modelled, except for the count that the "added" message shows.
- `navigator.share` and `navigator.clipboard.writeText` are browser capabilities. Only the text they would receive (`ShareText`) is modelled.
- Routing (`navigate`, `useLocation`) is left out. Payloads are optional input values. A payload field holding some other falsy value (such as `null`) is treated like an absent one.
- The seeding payload is typed `any` in the source. The model takes it as a list of items and ignores the items' `checked` field, as the source does.
- `Grocery.ProgressPercent`: computed in exact real arithmetic. IEEE double rounding of `(checked / total) * 100` is not modelled.
- `Text.Trim`: works on Unicode scalar values, not UTF-16 code units (trimmed characters are all in the BMP). The space-separator set is that of current Unicode.
- The step list never changes (its setter is unused), so the model uses the fixture directly instead of a field.
- The timer does not count down: it is a display marker, as in the source.
- The model does not prove which fixture steps get a timer button. That fact is about the fixture text, not the logic.
- React renders a literal `0` for a step whose duration is `0`. The model only states that no timer button appears for such a step.
- The detail screen's handlers cannot be reached in the not-found state, because nothing is rendered. The model does not forbid calling them.
- The detail screen's saved flag is local. Toggling it does not write back to the catalog, in the source as in the model.
- All JSX markup, styling, icons, images and tab switching are left out. So are the buttons without handlers: Start Camera, Filter, the detail page's Share, and Import.
- `src/pages/Index.tsx` (landing markup) and `src/pages/Library.tsx` (a static fixture with unwired search and tab state) are not part of this model.
