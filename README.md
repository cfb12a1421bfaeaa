# menu-fe: a verified model of the kitchen-inventory front-end's core

menu-fe is a Preact front-end for a home kitchen. It keeps an ingredient
catalogue, a stock of inventory entries with expiry dates, recipes, and a
shopping cart held by the backend as the one purchase order in DRAFT status.
Confirming the cart turns it into a PURCHASED order, and the backend then
puts the bought ingredients into stock. This project models the code that
decides what the front-end shows and sends, and proves properties of it.

- **The root component (`MenuApp`).** It loads the catalogue and joins
  inventory entries to ingredients. It keeps the recipe selection and
  rebuilds the shopping list from the backend cart, de-duplicated by
  ingredient id. It has the cart handlers: confirm, remove, batch remove,
  add an ingredient, add a recipe, re-add a past order and delete a past
  order. It also loads the purchase history. `App` is a class whose fields
  are the component state. Each handler is a method whose postcondition
  gives the whole new state for every way the handler can end, toast
  included.
- **The backend (`Backend`).** The server is not part of this repository.
  It is modelled as an abstract store with a total function for each call.
  The environment picks which calls fail (`failing`), and every call issued
  is kept in `log`. This makes claims like "no call is made" and "the
  selection only changes after success" statable.
- **The expiry helpers (`DateUtils`, over `Calendar`).** These are
  remaining days, the freshness percentage, expiring-soon, expired and the
  `M月D日` display. Dates are proleptic Gregorian day numbers, and "now" is
  a time value in milliseconds given by the caller.
- **The wire tables and transforms (`Types`, `Api`).** `Types` holds the
  label/integer tables of the four enumerations. `Api` holds the envelope
  unwrap, the decoding of codes into labels, the payload encoding and the
  query parameters.
- **The forms (`AddInventory`, `AddIngredient`, `EditRecipe`).**
  - The add-inventory form computes the expiry date by calendar arithmetic,
    with month and year rollover.
  - The add-ingredient form validates its input and resets.
  - The edit-recipe form keeps a list of selected ingredient ids with no
    duplicates.
- **The two area views (`StorageArea`, `RecipeArea`).** Their filters and
  counts are modelled over their own older record shapes.

The supporting modules are `Wrappers` (Option/Result), `Strings` (digits,
`trim`, ASCII lower-casing, `includes`, `split`/`join`, `parseInt`) and
`Seqs` (order-preserving filter, de-duplication, removal).

## Model

| member | source | states |
|---|---|---|
| MenuApp.FindIngredient | src/app.tsx:66 | `find` by id: a result exactly when some catalogue entry has the id; the result has that id and is the first catalogue entry with it |
| Backend.FindRecipeById | src/app.tsx:228 | `recipes.find` by id (also at src/app.tsx:425): a result exactly when some recipe has the id; the result has that id and is the first recipe with it |
| MenuApp.JoinInventory | src/app.tsx:64-67 | one joined row per inventory entry, in order, carrying the entry unchanged; the ingredient is present exactly when the catalogue has the entry's ingredient id, and then it is that catalogue ingredient |
| MenuApp.Toggle | src/app.tsx:85-95 | the toggled id is in the result exactly when it was not selected; every other id keeps its membership |
| MenuApp.ToggleTwice | src/app.tsx:85-95 | toggling the same id twice restores the selection |
| MenuApp.ShoppingListOf | src/app.tsx:99-122 | one entry per distinct catalogue-known cart id, in order of first occurrence: entry `i` is the catalogue ingredient with the `i`-th such id and no recipe names |
| MenuApp.BuildShoppingList | src/app.tsx:99-115 | the loop filling the id-keyed map yields exactly `ShoppingListOf`: a later duplicate overwrites its entry in place and adds no new one, and an unknown id is skipped |
| MenuApp.ShoppingListFacts | src/app.tsx:105-114 | entry ids are pairwise distinct; every entry is a catalogue ingredient whose id occurs in the cart, and its `recipeNames` is empty; every cart item with a catalogue match has an entry |
| MenuApp.ShoppingListOrder | src/app.tsx:99-122 | entries appear in the order in which their ids first occur among the known cart ids |
| MenuApp.ShoppingListDuplicateExample | src/app.tsx:107-115 | a cart listing the same ingredient twice gives a single entry |
| MenuApp.CartList | src/app.tsx:101-122 | empty when `getCart` fails, there is no cart, or the cart has no item list; otherwise the list of the cart's items |
| MenuApp.AddedIngredientListed | src/app.tsx:212-219 | after a successful add of a catalogue ingredient, the refreshed shopping list has an entry for it |
| MenuApp.RemarkFor | src/app.tsx:165 | the remark `购买 N 种食材` carries N as a decimal number that reads back as N |
| MenuApp.ConfirmOutcomeOf | src/app.tsx:145-179 | an empty list ends at once; a purchase goes through only for an existing cart with a non-zero id whose confirm request succeeds, and then with that cart's id |
| MenuApp.FirstRemoveFailure | src/app.tsx:200 | there is no failure exactly when every removal request of the batch succeeds |
| MenuApp.RemoveCalls | src/app.tsx:200 | one removal request per id, in order |
| MenuApp.BatchRemoveExample | src/app.tsx:197-209 | with the middle removal of three failing, the other two items are gone and the failure's message is reported |
| MenuApp.BatchStep | src/app.tsx:200 | one more removal request moves the store to the state after the longer prefix, and the first failure follows the request order |
| MenuApp.HistoryRecord | src/app.tsx:545-553 | a record is the order with only `items` replaced: by the detail's items when the detail loads, by an empty list when it fails |
| MenuApp.History | src/app.tsx:544-554 | one record per order, in order, each depending only on its own order's detail |
| MenuApp.DetailCalls | src/app.tsx:547 | one detail request per order, in order |
| MenuApp.DeletedOrderGone | src/app.tsx:583-593 | after a successful delete, the reloaded history never contains an order with the deleted id |
| MenuApp.ItemIds | src/app.tsx:569 | the item ingredient ids, in order (for an order being re-added, and for the cart the shopping list is built from) |
| MenuApp.AddRecipeOutcomeOf | src/app.tsx:227-257 | an unknown recipe is the only case ending before any call; success means the detail loaded, the ids are the detail's ids, and `addToCart` was requested and succeeded whenever they are non-empty |
| MenuApp.UploadedUrl | src/app.tsx:267-277 | the uploaded URL when a file was given and the upload succeeded, otherwise '' (a failed upload does not stop the handler) |
| MenuApp.UpdatedImageUrl | src/app.tsx:310-329 | a new upload wins; otherwise the current ingredient's image URL, or '' when the ingredient is not in the catalogue |
| MenuApp.UpdatedCoverUrl | src/app.tsx:413-430 | a new upload wins; otherwise the current recipe's cover URL, or '' when the recipe is unknown |
| MenuApp.App.constructor | src/app.tsx:40-45 | the component starts with empty inventory, recipes, catalogue, selection, shopping list and history, no error and no toasts |
| MenuApp.App.Notify | src/app.tsx:79 | a toast is appended and nothing else changes |
| MenuApp.App.LoadData | src/app.tsx:52-83 | the three requests are issued; if all succeed, inventory (joined), recipes and catalogue are replaced and the error is cleared; if any fails, none of them changes and its message is both the error and an error toast |
| MenuApp.App.ToggleRecipe | src/app.tsx:85-95 | only the selection changes, to its toggle |
| MenuApp.App.CalculateShoppingList | src/app.tsx:98-123 | one `getCart` request; the result is the cart's shopping list; no state field other than the backend changes |
| MenuApp.App.RefreshShoppingList | src/app.tsx:126-137 | only the shopping list changes, to the list of the current cart |
| MenuApp.App.ExpiringItems | src/app.tsx:141-143 | the inventory rows expiring within the default three days, in order, and no others |
| MenuApp.App.HandleConfirmPurchase | src/app.tsx:145-179 | an empty list issues no request; a failed or missing cart issues only `getCart`; a refused confirm leaves selection and list unchanged; success sends the cart's id with total 0 and the remark, closes the cart into a PURCHASED order with every other store field unchanged, and leaves the component as `AfterPurchaseView` gives; each case shows its toast |
| MenuApp.AfterPurchaseView | src/app.tsx:168-174 | after a purchase: inventory (joined), recipes and catalogue reloaded with the error cleared, or kept with the reload's failure as error and toast; selection and list empty, history kept, the success toast last |
| MenuApp.App.AfterPurchase | src/app.tsx:168-174 | with the cart closed: three reloads and a cart fetch are issued and nothing else in the store changes; the component becomes `AfterPurchaseView` of its old state |
| MenuApp.App.HandleRemoveFromCart | src/app.tsx:182-194 | failure shows its message and changes nothing else; success drops the ingredient's items from the cart and refreshes the list |
| MenuApp.App.HandleBatchRemoveFromCart | src/app.tsx:197-209 | every removal is requested in order; any failure reports the first message and skips the refresh; otherwise the list is refreshed and the count is shown |
| MenuApp.App.HandleAddToShoppingList | src/app.tsx:212-224 | failure shows its message and changes nothing else; success refreshes the list from the cart with the ingredient added |
| MenuApp.App.HandleAddRecipeToShoppingList | src/app.tsx:227-257 | an unknown recipe makes no request; a failed detail or add leaves the selection unchanged; `addToCart` is requested only for non-empty ids; on success the recipe joins the selection even with no ingredients, and the toast shows the id count |
| MenuApp.App.LoadPurchaseHistory | src/app.tsx:538-563 | completed orders are requested (status 1), then one detail per order; the history becomes `History` of them, or empty when the order list fails |
| MenuApp.App.HandleAddHistoryToCart | src/app.tsx:566-580 | a failed detail shows its message; an order with no items does nothing more; otherwise its ingredient ids are added in order, then the count is shown and the list refreshed |
| MenuApp.App.HandleDeletePurchaseOrder | src/app.tsx:583-593 | failure shows its message and changes nothing else; success removes the order from the store, issues the status-1 order request and one detail request per order (only the first when it fails), shows a toast and sets the history to a reload of the store after the delete |
| DateUtils.StartOfDay | src/utils/dateUtils.ts:8-10 | midnight is the start of the day holding the time value, at most one day earlier |
| DateUtils.CeilDiv | src/utils/dateUtils.ts:12 | `Math.ceil` of a quotient: the least integer at or above it |
| DateUtils.RemainingDaysAt | src/utils/dateUtils.ts:6-13 | the expiry's day number minus today's |
| DateUtils.TimeOfDate | src/utils/dateUtils.ts:9 | a date string is midnight UTC of the day it names, and NaN when it names none |
| DateUtils.RemainingDays | src/utils/dateUtils.ts:6-13 | defined exactly for a parsable expiry date, and then the expiry day's number minus today's day number (negative once past) |
| DateUtils.RoundDiv | src/utils/dateUtils.ts:31 | `Math.round` of a quotient: the nearest integer, with halves rounded up |
| DateUtils.FreshnessOf | src/utils/dateUtils.ts:26-31 | always within 0..100; 0 for a span of zero or less; the rounded clamped share of the span still ahead; 100 at or before production, 0 at or after expiry |
| DateUtils.RoundDivRange | src/utils/dateUtils.ts:30-31 | rounding a clamped share stays within 0..100 and keeps both ends |
| DateUtils.RoundDivMonotone | src/utils/dateUtils.ts:31 | rounding is monotone in the numerator |
| DateUtils.FreshnessNonIncreasing | src/utils/dateUtils.ts:26-31 | more elapsed time never gives a higher freshness |
| DateUtils.Freshness | src/utils/dateUtils.ts:21-32 | defined exactly when both dates parse; within 0..100; 0 when expiry is not after production; 100 until production; 0 from expiry on |
| DateUtils.FreshnessOverTime | src/utils/dateUtils.ts:21-32 | a later "now" never shows a fresher item |
| DateUtils.IsExpiringSoon | src/utils/dateUtils.ts:40-43 | true exactly when the date parses and between 1 and `threshold` days remain (an unparsable date gives false) |
| DateUtils.IsExpired | src/utils/dateUtils.ts:50-53 | true exactly when the date parses and the expiry day is today or earlier |
| DateUtils.ExpiredExcludesExpiringSoon | src/utils/dateUtils.ts:42 | no date is both expired and expiring soon, for any threshold |
| DateUtils.ExpiryBands | src/utils/dateUtils.ts:40-53 | a valid date is in exactly one of three bands: expired (≤ 0 days), expiring soon (1..threshold) or neither (more) |
| DateUtils.ExpiryExamples | src/utils/dateUtils.ts:40-53 | three days before expiry, the item is expiring soon under the default threshold and not expired |
| DateUtils.FormatDate | src/utils/dateUtils.ts:60-65 | an invalid date shows as `NaN月NaN日` |
| DateUtils.FormatDateReadBack | src/utils/dateUtils.ts:60-65 | the display splits at `月` into the month (1..12, no leading zero) and the day followed by `日` |
| Types.StorageTypeCode | src/types.ts:14-18 | codes lie in 0..2 |
| Types.StorageTypeFromCode | src/types.ts:21-25 | defined exactly on 0..2, and the forward table maps the result back to the code |
| Types.StorageTypeOfLabel | src/types.ts:11 | a recognised label is the label of its storage type |
| Types.StorageTypeRoundTrip | src/types.ts:14-25 | the reverse table undoes the forward table, and a label reads back as its storage type |
| Types.CategoryCode | src/types.ts:31-37 | codes lie in 0..4 |
| Types.CategoryFromCode | src/types.ts:40-46 | defined exactly on 0..4, inverse to the forward table there |
| Types.CategoryOfLabel | src/types.ts:28 | a recognised label is the label of its category |
| Types.CategoryRoundTrip | src/types.ts:31-46 | the two category tables are mutually inverse |
| Types.RecipeTypeCode | src/types.ts:52-55 | codes lie in 0..1 |
| Types.RecipeTypeFromCode | src/types.ts:58-61 | defined exactly on 0..1, inverse to the forward table there |
| Types.RecipeTypeOfLabel | src/types.ts:49 | a recognised label is the label of its recipe type |
| Types.RecipeTypeRoundTrip | src/types.ts:52-61 | the two recipe-type tables are mutually inverse |
| Types.PurchaseStatusCode | src/types.ts:122-125 | DRAFT and PURCHASED have codes in 0..1 |
| Types.PurchaseStatusFromCode | src/types.ts:128-131 | defined exactly on 0..1, inverse to the forward table there |
| Types.PurchaseStatusRoundTrip | src/types.ts:122-131 | the two status tables are mutually inverse |
| Types.CodesInjective | src/types.ts:14-18 | each of the four forward tables is one-to-one |
| Api.Or | src/api/index.ts:162 | `a \|\| b`: `a` when it is truthy, otherwise `b` |
| Api.Get | src/api/index.ts:56-61 | a missing property reads as `undefined` |
| Api.Unwrap | src/api/index.ts:29-41 | success exactly for code 200, with the envelope's data; otherwise an error with the message, or `请求失败` when the message is empty |
| Api.DecodeCode | src/api/index.ts:56-61 | a number becomes its table's label (`undefined` when the table has none); anything else passes through |
| Api.CategoryLabelOfCode | src/types.ts:40-46 | the reverse category table has entries for 0..4 and nothing else |
| Api.StorageTypeLabelOfCode | src/types.ts:21-25 | the reverse storage table has entries for 0..2 and nothing else |
| Api.RecipeTypeLabelOfCode | src/types.ts:58-61 | the reverse recipe-type table has entries for 0 and 1 and nothing else |
| Api.DecodeIngredient | src/api/index.ts:54-62 | `category` and `storageType` are decoded; every other field is kept unchanged |
| Api.DecodeIngredients | src/api/index.ts:54-62 | an array body without `null`/`undefined` elements is decoded element by element, keeping its length; any other body, and an array holding `null` or `undefined` (whose `item.category` read throws), throws |
| Api.DecodeNullElementThrows | src/api/index.ts:56 | a list holding `null` is rejected, while a list of objects decodes |
| Api.DecodeIngredientIdempotent | src/api/index.ts:54-62 | decoding an already decoded ingredient changes nothing |
| Api.EncodeIngredient | src/api/index.ts:101-109 | the payload has the five ingredient fields without the id, with category and storage type as codes and the rest unchanged |
| Api.ReadIngredient | src/types.ts:66-73 | a recognised object holds exactly the fields of the ingredient read from it |
| Api.EncodeDecodeIngredient | src/api/index.ts:54-62 | decoding an encoded ingredient gives back its labels, and once the backend's id is added it reads back as the same ingredient |
| Api.DecodeRecipe | src/api/index.ts:143-148 | `type` is decoded; every other field is kept unchanged |
| Api.DecodeRecipeDetail | src/api/index.ts:156-163 | as `DecodeRecipe`, and a falsy `ingredientIds` becomes `[]` while a truthy one is kept |
| Api.IdArray | src/api/index.ts:180 | the id list as a JSON array of the same numbers in order |
| Api.EncodeRecipe | src/api/index.ts:173-196 | the payload has exactly name, type, description, coverUrl and ingredientIds, with the type as its code and ids defaulting to `[]` |
| Api.EncodeDecodeRecipe | src/api/index.ts:156-163 | a recipe sent and read back through the detail transform keeps its type label and its id list |
| Api.JoinIdsRoundTrip | src/api/index.ts:128-131 | splitting a non-empty joined id list on `,` gives one part per id, each reading back as that id, in order |
| Api.JoinIdsEmpty | src/api/index.ts:266-269 | an empty id list is sent as the empty string |
| Api.IdListParams | src/api/index.ts:128-131 | the query has only the one key (`ids` here, `recipeIds` for the purchase plan at src/api/index.ts:266-269), holding the joined ids |
| Api.StatusParams | src/api/index.ts:315-318 | `status` is present exactly when it is defined, 0 included |
| Api.CategoryParams | src/api/index.ts:47-51 | `category` is present exactly for a non-empty label; it is the label's code, or `undefined` for an unknown label |
| Calendar.AddDays | src/components/AddInventoryModal.tsx:40 | `setDate(getDate() + k)` gives the valid date whose day number is `k` more |
| Calendar.IterateNextDayDays | src/components/AddInventoryModal.tsx:40 | stepping to the next calendar day `k` times moves the day number on by `k` |
| Calendar.AddDaysIsIteratedNextDay | src/components/AddInventoryModal.tsx:40 | adding `k` days is stepping to the next calendar day `k` times, rollover included |
| Calendar.AddDaysRollover | src/components/AddInventoryModal.tsx:40 | month rollover into and past 29 February and year rollover land on the right dates |
| Calendar.FormatFullDate | src/components/AddInventoryModal.tsx:41 | `toISOString().split('T')[0]`: no `T`, and for a four-digit year ten characters with `-` at positions 4 and 7 |
| Calendar.ParseFullDate | src/components/AddInventoryModal.tsx:38 | `new Date(productionDate)`: a date only for a valid calendar day with a four-digit year |
| Calendar.IsoDate | src/components/AddInventoryModal.tsx:26 | today's date as `YYYY-MM-DD` (also at src/components/AddIngredientModal.tsx:75); for a four-digit year it reads back as the calendar day holding the time |
| Calendar.ParseFormatRoundTrip | src/components/AddInventoryModal.tsx:38-41 | a date with a four-digit year reads back from its `YYYY-MM-DD` form |
| Calendar.FormatParseRoundTrip | src/components/AddInventoryModal.tsx:38-41 | a string that parses is the `YYYY-MM-DD` form of what it parses to |
| AddInventory.ExpiryDateOf | src/components/AddInventoryModal.tsx:38-41 | a date exactly when the production date parses and the result is within the time range, otherwise `Invalid time value`; the result has no time part |
| AddInventory.ExpiryDateReadsBack | src/components/AddInventoryModal.tsx:38-41 | the expiry date reads back as the day `shelfLifeDays` after production |
| AddInventory.ExpiryDateOrder | src/components/AddInventoryModal.tsx:38-41 | expiry is strictly increasing in shelf life, never before production for a non-negative shelf life, and the production date itself for zero |
| AddInventory.ExpiryDateIs | src/components/AddInventoryModal.tsx:38-41 | the expiry is the full-date form of the date whose day number is `k` more |
| AddInventory.ExpiryDateWithinMonth | src/components/AddInventoryModal.tsx:36-42 | 2024-01-01 plus 7 days is 2024-01-08 |
| AddInventory.ExpiryDateLeapDay | src/components/AddInventoryModal.tsx:36-42 | 2024-02-28 plus 1 day is 2024-02-29 |
| AddInventory.ExpiryDateYearRollover | src/components/AddInventoryModal.tsx:36-42 | 2024-12-31 plus 1 day is 2025-01-01 |
| AddInventory.CalculateExpiryDate | src/components/AddInventoryModal.tsx:33-42 | '' without a catalogue ingredient selected or without a production date; otherwise the expiry for that ingredient's shelf life |
| AddInventory.FilteredIngredients | src/components/AddInventoryModal.tsx:70-72 | exactly the catalogue entries whose lower-cased name contains the lower-cased keyword, in catalogue order |
| AddInventory.EmptyKeywordKeepsAll | src/components/AddInventoryModal.tsx:70-72 | an empty keyword keeps the whole catalogue |
| AddInventory.AddInventoryForm.constructor | src/components/AddInventoryModal.tsx:18-20 | no selection, no date, no keyword |
| AddInventory.AddInventoryForm.Open | src/components/AddInventoryModal.tsx:22-29 | opening resets the selection to none, the date to today and the keyword to '' |
| AddInventory.AddInventoryForm.SelectIngredient | src/components/AddInventoryModal.tsx:212 | only the selection changes |
| AddInventory.AddInventoryForm.SetProductionDate | src/components/AddInventoryModal.tsx:330 | only the date changes |
| AddInventory.AddInventoryForm.SetSearchKeyword | src/components/AddInventoryModal.tsx:172 | only the keyword changes |
| AddInventory.AddInventoryForm.ExpiryPreview | src/components/AddInventoryModal.tsx:37 | '' while no ingredient is selected or the date is empty |
| AddInventory.AddInventoryForm.Listed | src/components/AddInventoryModal.tsx:70-72 | with no keyword the whole catalogue is listed |
| AddInventory.AddInventoryForm.SubmitResult | src/components/AddInventoryModal.tsx:46-67 | no submission without an ingredient (id 0 counts as none) or without a date, each with its alert; otherwise the selection, the date and the ingredient's storage type, 冷藏 when the catalogue lacks it |
| AddInventory.OpenedFormIsBlank | src/components/AddInventoryModal.tsx:22-29 | right after opening there is no expiry and the whole catalogue is listed |
| AddIngredient.CheckImage | src/components/AddIngredientModal.tsx:33-46 | accepted exactly for an `image/` type of at most 5·1024·1024 bytes; the type is checked first, each with its alert |
| Strings.ParseIntPrefix | src/components/AddIngredientModal.tsx:373 | `parseInt`: a number only when the input holds some digit, so non-numeric input is NaN |
| Strings.ParseIntPrefixOfDigits | src/components/AddIngredientModal.tsx:373 | a string of decimal digits reads as its value |
| AddIngredient.ShelfLifeInput | src/components/AddIngredientModal.tsx:373 | `parseInt(value) \|\| 0`: the leading integer, or 0 when there is none |
| AddIngredient.ShelfLifeInputOfNumber | src/components/AddIngredientModal.tsx:373 | typing a number gives that number |
| AddIngredient.Validate | src/components/AddIngredientModal.tsx:60-68 | accepted exactly for a name not blank after trimming and a positive shelf life; the name is checked first, each with its alert |
| AddIngredient.ValidationRejects | src/components/AddIngredientModal.tsx:60-68 | a whitespace-only name is rejected, and so is a shelf life typed without digits |
| AddIngredient.AddIngredientForm.constructor | src/components/AddIngredientModal.tsx:20-25 | the form starts blank: '', 蔬菜, 7, 冷藏, no image |
| AddIngredient.AddIngredientForm.SetName | src/components/AddIngredientModal.tsx:257 | only the name changes |
| AddIngredient.AddIngredientForm.SetShelfLifeInput | src/components/AddIngredientModal.tsx:373 | only the shelf life changes, to the parsed input |
| AddIngredient.AddIngredientForm.HandleImageChange | src/components/AddIngredientModal.tsx:29-55 | an acceptable file replaces the image; a rejected one alerts and leaves the form unchanged |
| AddIngredient.AddIngredientForm.HandleSubmit | src/components/AddIngredientModal.tsx:57-86 | a rejected form is unchanged and nothing is submitted; an accepted one submits the trimmed name, today's date and the other fields unchanged, then resets to blank |
| AddIngredient.AddIngredientForm.Reset | src/components/AddIngredientModal.tsx:80-85 | every field, the image and its preview are back to the blank form |
| AddIngredient.SubmittedNameTrimmed | src/components/AddIngredientModal.tsx:71 | a submitted name neither starts nor ends with whitespace |
| EditRecipe.Unselected | src/components/EditRecipeModal.tsx:119-122 | exactly the catalogue entries matching the keyword and not yet selected, in catalogue order |
| EditRecipe.SelectedOf | src/components/EditRecipeModal.tsx:137-139 | exactly the catalogue entries whose id is selected, in catalogue order |
| EditRecipe.AddFromDropdownKeepsNoDup | src/components/EditRecipeModal.tsx:119-126 | adding an entry of the dropdown keeps the selected ids free of duplicates |
| EditRecipe.AddedMovesToSelected | src/components/EditRecipeModal.tsx:119-139 | an added ingredient is then among the selected and no longer in the dropdown |
| EditRecipe.RemoveFacts | src/components/EditRecipeModal.tsx:132-134 | removing an id twice is removing it once, and removal keeps the ids free of duplicates |
| EditRecipe.EditRecipeForm.constructor | src/components/EditRecipeModal.tsx:22-30 | the initial field values |
| EditRecipe.EditRecipeForm.LoadIngredients | src/components/EditRecipeModal.tsx:39-46 | a loaded catalogue replaces the old one; a failure keeps it |
| EditRecipe.EditRecipeForm.LoadRecipe | src/components/EditRecipeModal.tsx:49-59 | the recipe's name, type, description and cover (as preview) are shown, no new image, and its ingredient ids, `[]` when absent |
| EditRecipe.EditRecipeForm.Dropdown | src/components/EditRecipeModal.tsx:119-122 | no dropdown entry is already selected |
| EditRecipe.EditRecipeForm.Selected | src/components/EditRecipeModal.tsx:137-139 | every shown selected ingredient is in the catalogue and selected |
| EditRecipe.EditRecipeForm.AddIngredient | src/components/EditRecipeModal.tsx:125-129 | appends the id at the end, clears the keyword and closes the dropdown |
| EditRecipe.EditRecipeForm.RemoveIngredient | src/components/EditRecipeModal.tsx:132-134 | every occurrence of the id is dropped, the other ids keep their order, and nothing else changes |
| EditRecipe.EditRecipeForm.HandleSearchEnter | src/components/EditRecipeModal.tsx:142-151 | adds the first dropdown entry, does nothing when there is none, and keeps the selected ids free of duplicates |
| EditRecipe.EditRecipeForm.HandleSubmit | src/components/EditRecipeModal.tsx:91-116 | a blank name is rejected with no change; otherwise the recipe's id, the trimmed name and description, the type, image and ids are submitted and the fields reset |
| EditRecipe.EditRecipeForm.Reset | src/components/EditRecipeModal.tsx:109-115 | name, type, description, image, preview, selected ids and keyword are reset; the catalogue and dropdown state stay |
| EditRecipe.EditRecipeForm.HandleImageChange | src/components/EditRecipeModal.tsx:63-89 | the same checks as the add-ingredient form: an acceptable file replaces the image, a rejected one alerts and changes nothing |
| StorageArea.FilteredItems | src/components/StorageArea.tsx:41-45 | order-preserving; everything for `all`, exactly the items of that storage type, or exactly the items the expiring predicate holds for |
| StorageArea.FilterCount | src/components/StorageArea.tsx:48-52 | the `all` count is the number of items |
| StorageArea.CountIsLength | src/components/StorageArea.tsx:41-52 | every tab's count is the length of what it lists |
| StorageArea.StorageCountsSum | src/components/StorageArea.tsx:9-13 | when every item has one of the three storage types, the three counts add up to the total |
| StorageArea.FilterOfFilter | src/components/StorageArea.tsx:51 | narrowing a filtered list by a stronger condition is filtering by that condition |
| StorageArea.DeadlineColor | src/components/StorageArea.tsx:149-153 | red up to 3 days, amber for 4..7, green beyond |
| StorageArea.DeadlineColorMonotone | src/components/StorageArea.tsx:149-153 | more remaining days never give a more urgent colour |
| StorageArea.StorageLabel | src/components/StorageArea.tsx:9-13 | a label exactly for the three storage keys |
| StorageArea.CategoryLabel | src/components/StorageArea.tsx:15-20 | a label exactly for the four category keys (no spices) |
| StorageArea.StorageLabelInjective | src/components/StorageArea.tsx:9-13 | distinct storage keys have distinct labels |
| RecipeArea.FilteredRecipes | src/components/RecipeArea.tsx:28-32 | order-preserving; everything for `all`, exactly the selected recipes, or exactly those of that type |
| RecipeArea.FilterCount | src/components/RecipeArea.tsx:35-39 | the `all` count is the number of recipes, the `selected` count is the size of the selection |
| RecipeArea.CountIsLength | src/components/RecipeArea.tsx:35-39 | the `all` and type counts are the lengths of what those tabs list |
| RecipeArea.SelectedListedAtMostCount | src/components/RecipeArea.tsx:30-37 | with distinct recipe ids, the selected tab never lists more recipes than it counts |
| RecipeArea.SelectedCountCanExceedListed | src/components/RecipeArea.tsx:30-37 | a selection with an id that is not listed counts more than the tab shows |
| RecipeArea.TypeCountsSum | src/components/RecipeArea.tsx:11-14 | when every recipe is quick or slow, the two type counts add up to the total |
| RecipeArea.RecipeTypeLabel | src/components/RecipeArea.tsx:11-14 | 快菜 for quick, 慢菜 for slow, no label otherwise |
| Strings.TrimBlank | src/components/AddIngredientModal.tsx:60 | `trim()` gives '' exactly for a whitespace-only string |
| Strings.TrimKeepsInner | src/components/AddIngredientModal.tsx:71 | a non-empty trimmed string has no whitespace at either end |
| Strings.ContainsAt | src/components/AddInventoryModal.tsx:71 | `includes` holds exactly when the needle occurs at some index |
| Seqs.DedupSpec | src/app.tsx:99-122 | de-duplication keeps exactly the distinct elements, each once |
| Seqs.DedupFirstOccurrenceOrder | src/app.tsx:99-122 | de-duplication keeps elements in order of first occurrence |
| Seqs.WithoutKeepsNoDup | src/components/EditRecipeModal.tsx:133 | removing ids from a duplicate-free list leaves it duplicate-free |

## Left out

- **HTTP transport.** The model leaves out axios, its timeout, the REST paths and `uploadImage`. An upload is an optional `Result<string>` given to the URL-choice functions.
- **The server.** It is not part of this repository. `Backend` states assumptions about it:
  - one DRAFT cart;
  - adding appends one item per id, duplicates included, so the front-end's de-duplication is exercised;
  - removing drops every item with that id;
  - confirming closes the cart.

  The model does not capture that the server creates inventory entries on confirm. Any call may fail with any message. `failing` is keyed by the call itself, so identical requests in one handler always get the same outcome. Examples are the two `getCart` requests of a confirm, a duplicated id in a batch removal, and duplicated order ids in the history.
- **`Promise.all` concurrency.** `loadData`, batch removal and history loading are modelled as requests issued one after another. The reported error is the first failure in array order. With real concurrency it is the first rejection in time.
- **The `err instanceof Error ? … : '请重试'` fallbacks.** Every failure in the model carries a message.
- **Parts of the component that are not modelled:**
  - the loading flags and `console.error`;
  - the toast component, which is modelled as the list of shown toasts;
  - `useEffect` re-run triggers and rendering.

  React state reads inside a handler see the state of the render that created it (a stale closure). The model reads the state as updated earlier in the same handler. The one place this matters is the refresh after a confirm, and there both give an empty list.
- **Handlers outside the cart flows.** These are the add, update and delete handlers for ingredients, recipes and inventory, plus the batch deletes. They are modelled only through their image and cover URL choice.
- **JavaScript `Date`.**
  - Time zones: the local zone is taken to be UTC.
  - Lenient date parsing: only exact `YYYY-MM-DD` strings naming a real day parse, and anything else is NaN.
  - Expanded-year input: neither the display nor the parser handles it. `ExpiryDateOf` does emit expanded years when formatting.
- **Floating point in freshness.** It is computed exactly on integers, with `Math.round` stated explicitly.
- **Case folding.** `toLowerCase` maps only ASCII letters.
- **JSON.** Numbers are integers only. In the model, spreading a non-object value contributes no fields (JavaScript spreads a string's characters and an array's indices).
- **`FileReader` previews.** After a new image is accepted, `imagePreview` is not updated. `alert` is modelled as the returned message.
- **Text inputs.** The edit-recipe form's keyword and dropdown-visibility setters and the add-ingredient form's selects are plain field assignments and are not modelled.
- **Area views.** The stale `isExpiringSoon`/`calculateFreshness` calls in the storage area are replaced by a predicate parameter. The `activeFilter` state of both areas is the `Filter` argument.
- **Presentation-only components.** The shopping-list, pop-confirm and toast components contain no core logic, and neither does the Tailwind configuration.
- AddInventory.AddInventoryForm.SubmitResult: covers the `|| '冷藏'` fallback only for an ingredient missing from the catalogue. In the source it also applies when a catalogue ingredient's storage type decoded to `undefined` (an unknown code), which the typed `Ingredient` record cannot hold.
