/**
 * The root component's bookkeeping: loading the catalogue, the recipe
 * selection, the shopping list rebuilt from the backend cart, and the cart,
 * purchase and history handlers. Each handler awaits backend calls in order
 * and only then updates the component state; a rejected call ends in an
 * error toast. `Promise.all` over several requests is taken as issuing them
 * one after the other.
 */
module MenuApp {
  import opened Wrappers
  import opened Strings
  import opened Seqs
  import opened Calendar
  import opened DateUtils
  import opened Types
  import opened Backend

  // ---------------------------------------------------------------- lookups

  /** The index of the first ingredient with the id, or -1 when there is none. */
  function FirstWithId(ings: seq<Ingredient>, id: int): (k: int)
    ensures -1 <= k < |ings|
    ensures k >= 0 ==> ings[k].id == id
    ensures forall j :: 0 <= j < |ings| && (k == -1 || j < k) ==> ings[j].id != id
  {
    if ings == [] then -1
    else if ings[0].id == id then 0
    else
      var k := FirstWithId(ings[1..], id);
      if k == -1 then -1 else k + 1
  }

  /** `ingredients.find(ing => ing.id === id)`: the first ingredient with the id. */
  function FindIngredient(ings: seq<Ingredient>, id: int): (r: Option<Ingredient>)
    ensures r.Some? <==> exists k :: 0 <= k < |ings| && ings[k].id == id
    ensures r.Some? ==> r.value.id == id && r.value in ings
    ensures r.Some? ==>
      exists k :: 0 <= k < |ings| && ings[k] == r.value && (forall j :: 0 <= j < k ==> ings[j].id != id)
  {
    var k := FirstWithId(ings, id);
    if k >= 0 then Some(ings[k]) else None
  }

  /** The `loadData` join: every inventory entry, in order, with its ingredient when the catalogue has it. */
  function JoinInventory(invs: seq<Inventory>, ings: seq<Ingredient>): (r: seq<InventoryWithIngredient>)
    ensures |r| == |invs|
    ensures forall i :: 0 <= i < |invs| ==> r[i].inventory == invs[i]
    ensures forall i :: 0 <= i < |invs| ==>
      (r[i].ingredient.Some? <==> exists k :: 0 <= k < |ings| && ings[k].id == invs[i].ingredientId)
    ensures forall i :: 0 <= i < |invs| && r[i].ingredient.Some? ==>
      r[i].ingredient.value in ings && r[i].ingredient.value.id == invs[i].ingredientId
  {
    seq(|invs|, i requires 0 <= i < |invs| => InventoryWithIngredient(invs[i], FindIngredient(ings, invs[i].ingredientId)))
  }

  // -------------------------------------------------------------- selection

  /** `toggleRecipe`: removes a selected id, adds an unselected one. */
  function Toggle(sel: set<int>, id: int): (r: set<int>)
    ensures id in r <==> id !in sel
    ensures forall x :: x != id ==> (x in r <==> x in sel)
  {
    if id in sel then sel - {id} else sel + {id}
  }

  lemma ToggleTwice(sel: set<int>, id: int)
    ensures Toggle(Toggle(sel, id), id) == sel
  {
  }

  // ---------------------------------------------------------- shopping list

  /** The ingredient ids of a cart's or an order's items, in order. */
  function ItemIds(items: seq<PurchaseOrderItem>): (ids: seq<int>)
    ensures |ids| == |items| && forall i :: 0 <= i < |items| ==> ids[i] == items[i].ingredientId
  {
    seq(|items|, i requires 0 <= i < |items| => items[i].ingredientId)
  }

  /** The cart's ingredient ids that the catalogue knows, in cart order. */
  function KnownIds(items: seq<PurchaseOrderItem>, ings: seq<Ingredient>): seq<int> {
    Filter(ItemIds(items), (id: int) => FindIngredient(ings, id).Some?)
  }

  /** The shopping list a cart yields: one entry per known ingredient, in order of first appearance. */
  function ShoppingListOf(items: seq<PurchaseOrderItem>, ings: seq<Ingredient>): (list: seq<ShoppingItem>)
    ensures var ids := Dedup(KnownIds(items, ings));
      |list| == |ids|
      && forall i :: 0 <= i < |ids| ==>
           FindIngredient(ings, ids[i]).Some? && list[i] == ShoppingItem(FindIngredient(ings, ids[i]).value, [])
           && list[i].ingredient.id == ids[i]
  {
    var ids := Dedup(KnownIds(items, ings));
    DedupSpec(KnownIds(items, ings));
    assert forall i :: 0 <= i < |ids| ==> ids[i] in ids && ids[i] in KnownIds(items, ings);
    seq(|ids|, i requires 0 <= i < |ids| => ShoppingItem(FindIngredient(ings, ids[i]).value, []))
  }

  /** `calculateShoppingList`'s loop: a `Map` keyed by ingredient id, filled item by item. */
  method BuildShoppingList(items: seq<PurchaseOrderItem>, ings: seq<Ingredient>) returns (list: seq<ShoppingItem>)
    ensures list == ShoppingListOf(items, ings)
  {
    var keys: seq<int> := [];
    var entries: map<int, ShoppingItem> := map[];
    var i := 0;
    while i < |items|
      invariant 0 <= i <= |items|
      invariant keys == Dedup(KnownIds(items[..i], ings))
      invariant forall k :: k in entries <==> k in keys
      invariant forall j :: 0 <= j < |keys| ==> keys[j] in entries
      invariant forall k :: k in entries ==>
        FindIngredient(ings, k).Some? && entries[k] == ShoppingItem(FindIngredient(ings, k).value, [])
    {
      BuildStep(items, ings, i, keys, entries.Keys);
      var ingredient := FindIngredient(ings, items[i].ingredientId);
      if ingredient.Some? {
        var id := ingredient.value.id;
        if id !in entries {
          keys := keys + [id];
        }
        entries := entries[id := ShoppingItem(ingredient.value, [])];
      }
      i := i + 1;
    }
    assert items[..|items|] == items;
    list := EntriesInKeyOrder(keys, entries);
    ListedEntries(items, ings, keys, entries);
  }

  /** The map's entries, read in the order their keys were first inserted. */
  function EntriesInKeyOrder(keys: seq<int>, entries: map<int, ShoppingItem>): (list: seq<ShoppingItem>)
    requires forall j :: 0 <= j < |keys| ==> keys[j] in entries
    ensures |list| == |keys| && forall j :: 0 <= j < |keys| ==> list[j] == entries[keys[j]]
  {
    seq(|keys|, j requires 0 <= j < |keys| => entries[keys[j]])
  }

  /** Reading the filled map in key order gives the shopping list of the whole cart. */
  lemma ListedEntries(items: seq<PurchaseOrderItem>, ings: seq<Ingredient>, keys: seq<int>, entries: map<int, ShoppingItem>)
    requires keys == Dedup(KnownIds(items, ings))
    requires forall j :: 0 <= j < |keys| ==> keys[j] in entries
    requires forall k :: k in entries ==>
      FindIngredient(ings, k).Some? && entries[k] == ShoppingItem(FindIngredient(ings, k).value, [])
    ensures EntriesInKeyOrder(keys, entries) == ShoppingListOf(items, ings)
  {
    var l, r := EntriesInKeyOrder(keys, entries), ShoppingListOf(items, ings);
    forall j | 0 <= j < |keys| ensures l[j] == r[j] {
      assert keys[j] in keys;
    }
  }

  /** One step of `BuildShoppingList`: the key list follows `Dedup` of the known ids. */
  lemma BuildStep(items: seq<PurchaseOrderItem>, ings: seq<Ingredient>, i: int, keys: seq<int>, present: set<int>)
    requires 0 <= i < |items|
    requires keys == Dedup(KnownIds(items[..i], ings))
    requires forall k :: k in present <==> k in keys
    ensures var ingredient := FindIngredient(ings, items[i].ingredientId);
      (ingredient.None? ==> keys == Dedup(KnownIds(items[..i + 1], ings)))
      && (ingredient.Some? ==>
            (if ingredient.value.id in present then keys else keys + [ingredient.value.id])
            == Dedup(KnownIds(items[..i + 1], ings)))
  {
    KnownIdsStep(items, ings, i);
    var known := KnownIds(items[..i], ings);
    DedupSpec(known);
    DedupSnoc(known, items[i].ingredientId);
    if FindIngredient(ings, items[i].ingredientId).None? {
      assert known + [] == known;
    }
  }

  lemma KnownIdsStep(items: seq<PurchaseOrderItem>, ings: seq<Ingredient>, i: int)
    requires 0 <= i < |items|
    ensures KnownIds(items[..i + 1], ings) ==
      KnownIds(items[..i], ings) + (if FindIngredient(ings, items[i].ingredientId).Some? then [items[i].ingredientId] else [])
  {
    var p := (id: int) => FindIngredient(ings, id).Some?;
    assert ItemIds(items[..i + 1]) == ItemIds(items[..i]) + [items[i].ingredientId];
    FilterConcat(ItemIds(items[..i]), [items[i].ingredientId], p);
  }

  /**
   * The shopping list has one entry per ingredient id, every entry is a
   * catalogue ingredient whose id is in the cart, every known cart id has an
   * entry, and no entry lists recipe names.
   */
  lemma ShoppingListFacts(items: seq<PurchaseOrderItem>, ings: seq<Ingredient>)
    ensures var list := ShoppingListOf(items, ings);
      (forall i, j :: 0 <= i < j < |list| ==> list[i].ingredient.id != list[j].ingredient.id)
      && (forall e :: e in list ==> e.ingredient in ings && e.ingredient.id in ItemIds(items) && e.recipeNames == [])
      && (forall k :: 0 <= k < |items| && FindIngredient(ings, items[k].ingredientId).Some? ==>
            exists e :: e in list && e.ingredient.id == items[k].ingredientId)
  {
    var known := KnownIds(items, ings);
    var ids := Dedup(known);
    var list := ShoppingListOf(items, ings);
    DedupSpec(known);
    forall i | 0 <= i < |list|
      ensures list[i].ingredient.id == ids[i] && list[i].ingredient in ings && ids[i] in ItemIds(items)
      ensures list[i].recipeNames == []
    {
      assert ids[i] in ids;
    }
    forall k | 0 <= k < |items| && FindIngredient(ings, items[k].ingredientId).Some?
      ensures exists e :: e in list && e.ingredient.id == items[k].ingredientId
    {
      var id := items[k].ingredientId;
      assert ItemIds(items)[k] == id;
      assert id in known;
      var j := IndexOf(ids, id);
      assert list[j] in list && list[j].ingredient.id == id;
    }
  }

  /** Entries appear in the order in which their ids first occur among the known cart ids. */
  lemma ShoppingListOrder(items: seq<PurchaseOrderItem>, ings: seq<Ingredient>)
    ensures var list := ShoppingListOf(items, ings); var known := KnownIds(items, ings);
      forall i, j :: 0 <= i < j < |list| ==>
        list[i].ingredient.id in known && list[j].ingredient.id in known
        && IndexOf(known, list[i].ingredient.id) < IndexOf(known, list[j].ingredient.id)
  {
    var known := KnownIds(items, ings);
    var ids := Dedup(known);
    var list := ShoppingListOf(items, ings);
    DedupFirstOccurrenceOrder(known);
    DedupSpec(known);
    forall i, j | 0 <= i < j < |list|
      ensures list[i].ingredient.id in known && list[j].ingredient.id in known
      ensures IndexOf(known, list[i].ingredient.id) < IndexOf(known, list[j].ingredient.id)
    {
      assert list[i].ingredient.id == ids[i] && list[j].ingredient.id == ids[j];
      assert ids[i] in ids && ids[j] in ids;
    }
  }

  /** A catalogue id that occurs twice in the cart gives a single entry. */
  lemma ShoppingListDuplicateExample(ing: Ingredient)
    ensures ShoppingListOf([PurchaseOrderItem(ing.id, "", None), PurchaseOrderItem(ing.id, "", None)], [ing])
      == [ShoppingItem(ing, [])]
  {
    var items := [PurchaseOrderItem(ing.id, "", None), PurchaseOrderItem(ing.id, "", None)];
    assert ItemIds(items) == [ing.id, ing.id];
    assert KnownIds(items, [ing]) == [ing.id, ing.id];
    assert [ing.id, ing.id][..1] == [ing.id];
    assert [ing.id][..0] == [];
    assert Dedup([ing.id]) == [ing.id];
    assert Dedup([ing.id, ing.id]) == [ing.id];
  }

  /** The shopping list the current backend cart yields; empty when `getCart` fails or there is no item list. */
  function CartList(s: State, ings: seq<Ingredient>): (list: seq<ShoppingItem>)
    ensures GetCart in s.failing || s.cart.None? || s.cart.value.items.None? ==> list == []
    ensures GetCart !in s.failing && s.cart.Some? && s.cart.value.items.Some? ==>
      list == ShoppingListOf(s.cart.value.items.value, ings)
  {
    if GetCart in s.failing then []
    else match s.cart
      case None => []
      case Some(o) =>
        (match o.items
         case None => []
         case Some(items) => ShoppingListOf(items, ings))
  }

  /** Adding a catalogue ingredient to the cart puts it on the shopping list. */
  lemma AddedIngredientListed(s: State, ings: seq<Ingredient>, id: int)
    requires AddToCart([id]) !in s.failing && GetCart !in s.failing
    requires FindIngredient(ings, id).Some?
    ensures exists e :: e in CartList(AddToCartCall(s, [id]).next, ings) && e.ingredient.id == id
  {
    var s1 := AddToCartCall(s, [id]).next;
    var items := s1.cart.value.items.value;
    assert items == CartItems(s.cart) + ItemsFor(s.ingredients, [id]);
    assert items[|items| - 1].ingredientId == id;
    ShoppingListFacts(items, ings);
  }

  // ---------------------------------------------------------------- toasts

  datatype ToastKind = SuccessToast | ErrorToast | InfoToast

  datatype Toast = Toast(message: string, kind: ToastKind)

  // ---------------------------------------------------------------- confirm

  /** The remark of a confirmed purchase: `购买 N 种食材`. */
  function RemarkFor(n: nat): (r: string)
    ensures |r| >= 8 && ParseInteger(r[3..|r| - 4]) == Some(n)
  {
    var r := "购买 " + NatToString(n) + " 种食材";
    assert r[3..|r| - 4] == NatToString(n);
    IntToStringRoundTrip(n);
    r
  }

  datatype ConfirmOutcome =
    | EmptyList
    | CartFailed(message: string)
    | NoCart
    | ConfirmFailed(message: string)
    | Bought(orderId: int)

  /** The confirm request for the current cart and a list of `n` entries. */
  function ConfirmRequest(s: State, n: nat): Call
    requires s.cart.Some?
  {
    ConfirmCartPurchase(s.cart.value.id, 0, RemarkFor(n))
  }

  /** How `handleConfirmPurchase` ends on backend state `s` with a shopping list of `n` entries. */
  function ConfirmOutcomeOf(s: State, n: nat): (o: ConfirmOutcome)
    ensures o.EmptyList? <==> n == 0
    ensures o.Bought? ==> (s.cart.Some? && o.orderId == s.cart.value.id && o.orderId != 0
      && ConfirmCall(s, o.orderId, 0, RemarkFor(n)).result.Success?)
    ensures (o.NoCart? || o.CartFailed?) ==> n > 0
  {
    if n == 0 then EmptyList
    else if GetCart in s.failing then CartFailed(s.failing[GetCart])
    else if s.cart.None? || s.cart.value.id == 0 then NoCart
    else if ConfirmRequest(s, n) in s.failing then ConfirmFailed(s.failing[ConfirmRequest(s, n)])
    else Bought(s.cart.value.id)
  }

  // --------------------------------------------------------- batch removal

  /** The ids whose removal request succeeds. */
  function RemovedIds(s: State, ids: seq<int>): set<int> {
    set id | id in ids && RemoveFromCart(id) !in s.failing
  }

  /** The message of the first removal request that fails, in request order. */
  function FirstRemoveFailure(s: State, ids: seq<int>): (r: Option<string>)
    ensures r.None? <==> forall i :: 0 <= i < |ids| ==> RemoveFromCart(ids[i]) !in s.failing
  {
    if ids == [] then None
    else
      var prefix := FirstRemoveFailure(s, ids[..|ids| - 1]);
      var last := RemoveFromCart(ids[|ids| - 1]);
      if prefix.Some? then prefix
      else if last in s.failing then Some(s.failing[last])
      else None
  }

  function RemoveCalls(ids: seq<int>): (calls: seq<Call>)
    ensures |calls| == |ids| && forall i :: 0 <= i < |ids| ==> calls[i] == RemoveFromCart(ids[i])
  {
    seq(|ids|, i requires 0 <= i < |ids| => RemoveFromCart(ids[i]))
  }

  /** The store after every removal request of a batch. */
  function AfterRemovals(s: State, ids: seq<int>): State {
    s.(cart := CartWithout(s.cart, RemovedIds(s, ids)), log := s.log + RemoveCalls(ids))
  }

  /** With the middle removal failing, only that item stays in the cart. */
  lemma BatchRemoveExample(s: State)
    requires s.cart.Some? && s.cart.value.items == Some([
      PurchaseOrderItem(10, "", None), PurchaseOrderItem(11, "", None), PurchaseOrderItem(12, "", None)])
    requires s.failing == map[RemoveFromCart(11) := "请求失败"]
    ensures CartItems(AfterRemovals(s, [10, 11, 12]).cart) == [PurchaseOrderItem(11, "", None)]
    ensures FirstRemoveFailure(s, [10, 11, 12]) == Some("请求失败")
  {
    var items := [PurchaseOrderItem(10, "", None), PurchaseOrderItem(11, "", None), PurchaseOrderItem(12, "", None)];
    assert RemovedIds(s, [10, 11, 12]) == {10, 12};
    assert items[1..][1..][1..] == [];
    assert RemoveItems(items[1..][1..], {10, 12}) == [];
    assert RemoveItems(items[1..], {10, 12}) == [PurchaseOrderItem(11, "", None)];
    assert RemoveItems(items, {10, 12}) == [PurchaseOrderItem(11, "", None)];
    assert [10, 11, 12][..2] == [10, 11];
    assert [10, 11][..1] == [10];
    assert [10][..0] == [];
  }

  // --------------------------------------------------------------- history

  /** One history record: the order with the detail's items, or no items when the detail fails. */
  function HistoryRecord(s: State, o: PurchaseOrder): (r: PurchaseOrder)
    ensures r == o.(items := r.items) && r.items.Some?
    ensures DetailOf(s, o.id).Failure? ==> r.items == Some([])
    ensures DetailOf(s, o.id).Success? ==> r.items == DetailOf(s, o.id).value.items
  {
    match DetailOf(s, o.id)
    case Success(d) => o.(items := d.items)
    case Failure(_) => o.(items := Some([]))
  }

  /** The purchase history: one record per order, in order. */
  function History(s: State, orders: seq<PurchaseOrder>): (h: seq<PurchaseOrder>)
    ensures |h| == |orders| && forall i :: 0 <= i < |orders| ==> h[i] == HistoryRecord(s, orders[i])
  {
    seq(|orders|, i requires 0 <= i < |orders| => HistoryRecord(s, orders[i]))
  }

  function DetailCalls(orders: seq<PurchaseOrder>): (calls: seq<Call>)
    ensures |calls| == |orders| && forall i :: 0 <= i < |orders| ==> calls[i] == GetPurchaseOrderDetail(orders[i].id)
  {
    seq(|orders|, i requires 0 <= i < |orders| => GetPurchaseOrderDetail(orders[i].id))
  }

  /** Extending the loaded prefix by one order adds one detail call and one record. */
  lemma HistoryStep(s: State, orders: seq<PurchaseOrder>, i: nat)
    requires i < |orders|
    ensures DetailCalls(orders[..i + 1]) == DetailCalls(orders[..i]) + [GetPurchaseOrderDetail(orders[i].id)]
    ensures History(s, orders[..i + 1]) == History(s, orders[..i]) + [HistoryRecord(s, orders[i])]
  {
  }

  /** The history shown after loading on store `s`: empty when the order list cannot be fetched. */
  function HistoryAfterLoad(s: State): seq<PurchaseOrder> {
    var r := GetPurchaseOrdersCall(s, Some(1));
    if r.result.Success? then History(s, r.result.value) else []
  }

  /** After a deletion succeeds, a reload of the history never shows the deleted order. */
  lemma DeletedOrderGone(s: State, orderId: int)
    requires DeletePurchaseOrder(orderId) !in s.failing
    requires s.cart.Some? ==> s.cart.value.status == Draft
    ensures forall o :: o in HistoryAfterLoad(DeleteOrderCall(s, orderId).next) ==> o.id != orderId
  {
    var s1 := DeleteOrderCall(s, orderId).next;
    var r := GetPurchaseOrdersCall(s1, Some(1));
    if r.result.Success? {
      var h := History(s1, r.result.value);
      forall o | o in h ensures o.id != orderId {
        var i :| 0 <= i < |h| && h[i] == o;
        var src := r.result.value[i];
        assert src in OrdersWithStatus(AllOrders(s1), Some(1));
        assert src in AllOrders(s1) && PurchaseStatusCode(src.status) == 1;
        assert src.id == o.id;
        assert s1.cart == s.cart && s1.orders == OrdersWithoutId(s.orders, orderId);
        assert src !in (if s1.cart.Some? then [s1.cart.value] else []);
        assert src in s1.orders;
      }
    }
  }

  // ------------------------------------------------------------ add recipe

  datatype AddRecipeOutcome =
    | UnknownRecipe
    | DetailFailed(message: string)
    | AddFailed(message: string)
    | RecipeAdded(ids: seq<int>)

  /** How `handleAddRecipeToShoppingList` ends for a recipe id, the loaded recipes and backend state `s`. */
  function AddRecipeOutcomeOf(s: State, recipes: seq<Recipe>, recipeId: int): (o: AddRecipeOutcome)
    ensures o.UnknownRecipe? <==> FindRecipeById(recipes, recipeId).None?
    ensures o.RecipeAdded? ==> (GetRecipeDetail(recipeId) !in s.failing && RecipeDetailOf(s, recipeId).Success?
      && o.ids == RecipeDetailOf(s, recipeId).value.ingredientIds.value
      && (o.ids != [] ==> AddToCart(o.ids) !in s.failing))
  {
    if FindRecipeById(recipes, recipeId).None? then UnknownRecipe
    else
      var d := GetRecipeDetailCall(s, recipeId).result;
      if d.Failure? then DetailFailed(d.error)
      else
        var ids := d.value.ingredientIds.value;
        if |ids| > 0 && AddToCart(ids) in s.failing then AddFailed(s.failing[AddToCart(ids)])
        else RecipeAdded(ids)
  }

  // ------------------------------------------------------------ image URLs

  /** The URL an optional upload yields: '' without a file or when the upload fails. */
  function UploadedUrl(upload: Option<Result<string>>): (url: string)
    ensures upload.Some? && upload.value.Success? ==> url == upload.value.value
    ensures upload.None? || upload.value.Failure? ==> url == ""
  {
    match upload
    case Some(Success(u)) => u
    case _ => ""
  }

  /** `imageUrl || oldIngredient?.imageUrl || ''` of `handleUpdateIngredient`. */
  function UpdatedImageUrl(upload: Option<Result<string>>, ings: seq<Ingredient>, id: int): (url: string)
    ensures UploadedUrl(upload) != "" ==> url == UploadedUrl(upload)
    ensures UploadedUrl(upload) == "" && FindIngredient(ings, id).Some? ==> url == FindIngredient(ings, id).value.imageUrl
    ensures UploadedUrl(upload) == "" && FindIngredient(ings, id).None? ==> url == ""
  {
    var uploaded := UploadedUrl(upload);
    if uploaded != "" then uploaded
    else match FindIngredient(ings, id)
      case Some(prev) => if prev.imageUrl != "" then prev.imageUrl else ""
      case None => ""
  }

  /** `coverUrl || oldRecipe?.coverUrl || ''` of `handleUpdateRecipe`. */
  function UpdatedCoverUrl(upload: Option<Result<string>>, recipes: seq<Recipe>, id: int): (url: string)
    ensures UploadedUrl(upload) != "" ==> url == UploadedUrl(upload)
    ensures UploadedUrl(upload) == "" && FindRecipeById(recipes, id).Some? ==> url == FindRecipeById(recipes, id).value.coverUrl
    ensures UploadedUrl(upload) == "" && FindRecipeById(recipes, id).None? ==> url == ""
  {
    var uploaded := UploadedUrl(upload);
    if uploaded != "" then uploaded
    else match FindRecipeById(recipes, id)
      case Some(prev) => if prev.coverUrl != "" then prev.coverUrl else ""
      case None => ""
  }

  // -------------------------------------------------------------- loading

  /** The message `loadData` reports: the first of its three requests that fails. */
  function LoadFailure(s: State): Option<string> {
    if GetInventory in s.failing then Some(s.failing[GetInventory])
    else if GetRecipes in s.failing then Some(s.failing[GetRecipes])
    else if GetIngredients in s.failing then Some(s.failing[GetIngredients])
    else None
  }

  /** The component state other than the backend. */
  datatype View = View(
    inventory: seq<InventoryWithIngredient>,
    recipes: seq<Recipe>,
    ingredients: seq<Ingredient>,
    selectedRecipes: set<int>,
    shoppingList: seq<ShoppingItem>,
    purchaseHistory: seq<PurchaseOrder>,
    error: Option<string>,
    toasts: seq<Toast>)

  /** The success toast of a confirmed purchase. */
  const PurchasedMessage: string := "购买成功！食材已自动入库到储物区"

  /** The store after the open cart of `s` is confirmed for a list of `n` entries (the log aside). */
  function Purchase(s: State, n: nat): State
    requires s.cart.Some?
  {
    s.(cart := None, orders := s.orders + [s.cart.value.(status := Purchased, totalCost := 0, remark := Some(RemarkFor(n)))])
  }

  /**
   * The component state after a confirmed purchase on store `s`: `loadData`
   * either replaces inventory, recipes and catalogue and clears the error, or
   * keeps them and reports its failure; the selection and the list are
   * emptied, the history is kept, and the success toast comes last.
   */
  function AfterPurchaseView(v: View, s: State): (w: View)
    ensures w.selectedRecipes == {} && w.shoppingList == [] && w.purchaseHistory == v.purchaseHistory
    ensures |w.toasts| > |v.toasts| && w.toasts[..|v.toasts|] == v.toasts
    ensures w.toasts[|w.toasts| - 1] == Toast(PurchasedMessage, SuccessToast)
    ensures LoadFailure(s).None? ==>
      w.inventory == JoinInventory(s.inventory, s.ingredients) && w.recipes == s.recipes
      && w.ingredients == s.ingredients && w.error == None && |w.toasts| == |v.toasts| + 1
    ensures LoadFailure(s).Some? ==>
      w.inventory == v.inventory && w.recipes == v.recipes && w.ingredients == v.ingredients
      && w.error == LoadFailure(s)
      && w.toasts == v.toasts + [Toast(LoadFailure(s).value, ErrorToast), Toast(PurchasedMessage, SuccessToast)]
  {
    var loaded := match LoadFailure(s)
      case None => v.(inventory := JoinInventory(s.inventory, s.ingredients), recipes := s.recipes,
                      ingredients := s.ingredients, error := None)
      case Some(m) => v.(error := Some(m), toasts := v.toasts + [Toast(m, ErrorToast)]);
    loaded.(selectedRecipes := {}, shoppingList := [], toasts := loaded.toasts + [Toast(PurchasedMessage, SuccessToast)])
  }

  class App {
    var backend: State
    var inventory: seq<InventoryWithIngredient>
    var recipes: seq<Recipe>
    var ingredients: seq<Ingredient>
    var selectedRecipes: set<int>
    var shoppingList: seq<ShoppingItem>
    var purchaseHistory: seq<PurchaseOrder>
    var error: Option<string>
    var toasts: seq<Toast>

    ghost function Snapshot(): View
      reads this
    {
      View(inventory, recipes, ingredients, selectedRecipes, shoppingList, purchaseHistory, error, toasts)
    }

    constructor(s: State)
      ensures backend == s
      ensures Snapshot() == View([], [], [], {}, [], [], None, [])
    {
      backend := s;
      inventory := [];
      recipes := [];
      ingredients := [];
      selectedRecipes := {};
      shoppingList := [];
      purchaseHistory := [];
      error := None;
      toasts := [];
    }

    /** Shows a toast. */
    method Notify(message: string, kind: ToastKind)
      modifies this
      ensures backend == old(backend)
      ensures Snapshot() == old(Snapshot()).(toasts := old(toasts) + [Toast(message, kind)])
    {
      toasts := toasts + [Toast(message, kind)];
    }

    /** `loadData`: all three lists replace the state, or none does and the error is reported. */
    method LoadData()
      modifies this
      ensures backend == old(backend).(log := old(backend.log) + [GetInventory, GetRecipes, GetIngredients])
      ensures LoadFailure(old(backend)).None? ==> Snapshot() == old(Snapshot()).(
        inventory := JoinInventory(old(backend).inventory, old(backend).ingredients),
        recipes := old(backend).recipes, ingredients := old(backend).ingredients, error := None)
      ensures LoadFailure(old(backend)).Some? ==> Snapshot() == old(Snapshot()).(
        error := LoadFailure(old(backend)),
        toasts := old(toasts) + [Toast(LoadFailure(old(backend)).value, ErrorToast)])
    {
      var s := backend;
      error := None;
      var inv := GetInventoryCall(backend);
      backend := inv.next;
      var rec := GetRecipesCall(backend);
      backend := rec.next;
      var ing := GetIngredientsCall(backend);
      backend := ing.next;
      assert backend.log == s.log + [GetInventory, GetRecipes, GetIngredients];
      if inv.result.Failure? {
        error := Some(inv.result.error);
        Notify(inv.result.error, ErrorToast);
      } else if rec.result.Failure? {
        error := Some(rec.result.error);
        Notify(rec.result.error, ErrorToast);
      } else if ing.result.Failure? {
        error := Some(ing.result.error);
        Notify(ing.result.error, ErrorToast);
      } else {
        inventory := JoinInventory(inv.result.value, ing.result.value);
        recipes := rec.result.value;
        ingredients := ing.result.value;
      }
    }

    method ToggleRecipe(recipeId: int)
      modifies this
      ensures backend == old(backend)
      ensures Snapshot() == old(Snapshot()).(selectedRecipes := Toggle(old(selectedRecipes), recipeId))
    {
      selectedRecipes := Toggle(selectedRecipes, recipeId);
    }

    /** `calculateShoppingList`: the list the current cart yields. */
    method CalculateShoppingList() returns (list: seq<ShoppingItem>)
      modifies this
      ensures backend == Issue(old(backend), GetCart)
      ensures list == CartList(old(backend), ingredients)
      ensures Snapshot() == old(Snapshot())
    {
      var r := GetCartCall(backend);
      backend := r.next;
      list := [];
      if r.result.Success? && r.result.value.Some? && r.result.value.value.items.Some? {
        list := BuildShoppingList(r.result.value.value.items.value, ingredients);
      }
    }

    /** `refreshShoppingList`. */
    method RefreshShoppingList()
      modifies this
      ensures backend == Issue(old(backend), GetCart)
      ensures Snapshot() == old(Snapshot()).(shoppingList := CartList(old(backend), old(ingredients)))
    {
      shoppingList := CalculateShoppingList();
    }

    /** `getExpiringItems`: the inventory entries expiring within the default threshold, in order. */
    function ExpiringItems(nowMs: int): (r: seq<InventoryWithIngredient>)
      reads this
      ensures forall x :: x in r <==> x in inventory && IsExpiringSoon(x.inventory.expiryDate, nowMs, DefaultThreshold)
      ensures IsSubsequence(r, inventory)
    {
      Filter(inventory, (x: InventoryWithIngredient) => IsExpiringSoon(x.inventory.expiryDate, nowMs, DefaultThreshold))
    }

    /** `handleConfirmPurchase`. */
    method HandleConfirmPurchase()
      modifies this
      ensures var s := old(backend); var o := ConfirmOutcomeOf(s, |old(shoppingList)|);
        (o.EmptyList? ==> (backend == s
          && Snapshot() == old(Snapshot()).(toasts := old(toasts) + [Toast("购物清单为空", InfoToast)])))
        && (o.CartFailed? ==> (backend == Issue(s, GetCart)
          && Snapshot() == old(Snapshot()).(toasts := old(toasts) + [Toast("购买失败：" + o.message, ErrorToast)])))
        && (o.NoCart? ==> (backend == Issue(s, GetCart)
          && Snapshot() == old(Snapshot()).(toasts := old(toasts) + [Toast("购物车为空，无法完成购买", ErrorToast)])))
        && (o.ConfirmFailed? ==> (backend == Issue(Issue(s, GetCart), ConfirmRequest(s, |old(shoppingList)|))
          && Snapshot() == old(Snapshot()).(toasts := old(toasts) + [Toast("购买失败：" + o.message, ErrorToast)])))
      ensures var s := old(backend); var n := |old(shoppingList)|; var o := ConfirmOutcomeOf(s, n);
        o.Bought? ==>
          backend == Purchase(s, n).(log := s.log + [GetCart, ConfirmRequest(s, n), GetInventory, GetRecipes, GetIngredients, GetCart])
          && Snapshot() == AfterPurchaseView(old(Snapshot()), s)
    {
      var s := backend;
      var n := |shoppingList|;
      if n == 0 {
        Notify("购物清单为空", InfoToast);
        return;
      }
      var cart := GetCartCall(backend);
      backend := cart.next;
      if cart.result.Failure? {
        Notify("购买失败：" + cart.result.error, ErrorToast);
        return;
      }
      if cart.result.value.None? || cart.result.value.value.id == 0 {
        Notify("购物车为空，无法完成购买", ErrorToast);
        return;
      }
      var orderId := cart.result.value.value.id;
      var confirmed := ConfirmCall(backend, orderId, 0, RemarkFor(n));
      backend := confirmed.next;
      if confirmed.result.Failure? {
        assert ConfirmRequest(s, n) in s.failing;
        Notify("购买失败：" + confirmed.result.error, ErrorToast);
        return;
      }
      assert backend == Purchase(s, n).(log := s.log + [GetCart, ConfirmRequest(s, n)]);
      AfterPurchase();
    }

    /** The tail of a confirmed purchase: reload, clear the selection, report success, refresh the list. */
    method AfterPurchase()
      modifies this
      requires backend.cart.None?
      ensures backend == old(backend).(log := old(backend.log) + [GetInventory, GetRecipes, GetIngredients, GetCart])
      ensures Snapshot() == AfterPurchaseView(old(Snapshot()), old(backend))
    {
      LoadData();
      selectedRecipes := {};
      Notify(PurchasedMessage, SuccessToast);
      RefreshShoppingList();
    }

    /** `handleRemoveFromCart`. */
    method HandleRemoveFromCart(ingredientId: int)
      modifies this
      ensures var s := old(backend); var c := RemoveFromCart(ingredientId);
        (c in s.failing ==> (backend == Issue(s, c)
          && Snapshot() == old(Snapshot()).(toasts := old(toasts) + [Toast("移除失败：" + s.failing[c], ErrorToast)])))
        && (c !in s.failing ==>
          var s1 := RemoveFromCartCall(s, ingredientId).next;
          s1.cart == CartWithout(s.cart, {ingredientId}) && backend == Issue(s1, GetCart)
          && Snapshot() == old(Snapshot()).(shoppingList := CartList(s1, old(ingredients)),
                                            toasts := old(toasts) + [Toast("已从购物车移除", SuccessToast)]))
    {
      var r := RemoveFromCartCall(backend, ingredientId);
      backend := r.next;
      if r.result.Failure? {
        Notify("移除失败：" + r.result.error, ErrorToast);
        return;
      }
      Notify("已从购物车移除", SuccessToast);
      RefreshShoppingList();
    }

    /** `handleBatchRemoveFromCart`: every removal is requested; any failure skips the refresh. */
    method HandleBatchRemoveFromCart(ids: seq<int>)
      modifies this
      ensures var s := old(backend); var s1 := AfterRemovals(s, ids);
        (FirstRemoveFailure(s, ids).Some? ==> (backend == s1
          && Snapshot() == old(Snapshot()).(toasts := old(toasts) + [Toast("批量移除失败：" + FirstRemoveFailure(s, ids).value, ErrorToast)])))
        && (FirstRemoveFailure(s, ids).None? ==> (backend == Issue(s1, GetCart)
          && Snapshot() == old(Snapshot()).(shoppingList := CartList(s1, old(ingredients)),
               toasts := old(toasts) + [Toast("已移除 " + NatToString(|ids|) + " 项食材", SuccessToast)])))
    {
      var s := backend;
      var firstError: Option<string> := None;
      var i := 0;
      CartWithoutNothing(s.cart);
      assert ids[..0] == [];
      assert RemovedIds(s, ids[..0]) == {};
      while i < |ids|
        invariant 0 <= i <= |ids|
        invariant backend == AfterRemovals(s, ids[..i])
        invariant firstError == FirstRemoveFailure(s, ids[..i])
        invariant Snapshot() == old(Snapshot())
      {
        BatchStep(s, ids, i);
        var r := RemoveFromCartCall(backend, ids[i]);
        backend := r.next;
        if r.result.Failure? && firstError.None? {
          firstError := Some(r.result.error);
        }
        i := i + 1;
      }
      assert ids[..|ids|] == ids;
      if firstError.Some? {
        Notify("批量移除失败：" + firstError.value, ErrorToast);
        return;
      }
      Notify("已移除 " + NatToString(|ids|) + " 项食材", SuccessToast);
      RefreshShoppingList();
    }

    /** `handleAddToShoppingList`. */
    method HandleAddToShoppingList(ingredientId: int)
      modifies this
      ensures var s := old(backend); var c := AddToCart([ingredientId]);
        (c in s.failing ==> (backend == Issue(s, c)
          && Snapshot() == old(Snapshot()).(toasts := old(toasts) + [Toast("添加失败：" + s.failing[c], ErrorToast)])))
        && (c !in s.failing ==>
          var s1 := AddToCartCall(s, [ingredientId]).next;
          backend == Issue(s1, GetCart)
          && Snapshot() == old(Snapshot()).(shoppingList := CartList(s1, old(ingredients)),
                                            toasts := old(toasts) + [Toast("已添加到购物清单", SuccessToast)]))
    {
      var r := AddToCartCall(backend, [ingredientId]);
      backend := r.next;
      if r.result.Failure? {
        Notify("添加失败：" + r.result.error, ErrorToast);
        return;
      }
      Notify("已添加到购物清单", SuccessToast);
      RefreshShoppingList();
    }

    /** `handleAddRecipeToShoppingList`. */
    method HandleAddRecipeToShoppingList(recipeId: int)
      modifies this
      ensures var s := old(backend); var o := AddRecipeOutcomeOf(s, old(recipes), recipeId);
        var s1 := Issue(s, GetRecipeDetail(recipeId));
        (o.UnknownRecipe? ==> (backend == s
          && Snapshot() == old(Snapshot()).(toasts := old(toasts) + [Toast("菜谱不存在", ErrorToast)])))
        && (o.DetailFailed? ==> (backend == s1
          && Snapshot() == old(Snapshot()).(toasts := old(toasts) + [Toast("添加失败：" + o.message, ErrorToast)])))
        && (o.AddFailed? ==> (backend == AddToCartCall(s1, RecipeDetailOf(s, recipeId).value.ingredientIds.value).next
          && Snapshot() == old(Snapshot()).(toasts := old(toasts) + [Toast("添加失败：" + o.message, ErrorToast)])))
        && (o.RecipeAdded? && o.ids == [] ==> (backend == Issue(s1, GetCart)
          && Snapshot() == old(Snapshot()).(selectedRecipes := old(selectedRecipes) + {recipeId},
               shoppingList := CartList(s1, old(ingredients)),
               toasts := old(toasts) + [Toast("已添加到购物清单（" + NatToString(0) + " 项食材）", SuccessToast)])))
        && (o.RecipeAdded? && o.ids != [] ==>
          var s2 := AddToCartCall(s1, o.ids).next;
          backend == Issue(s2, GetCart)
          && Snapshot() == old(Snapshot()).(selectedRecipes := old(selectedRecipes) + {recipeId},
               shoppingList := CartList(s2, old(ingredients)),
               toasts := old(toasts) + [Toast("已添加到购物清单（" + NatToString(|o.ids|) + " 项食材）", SuccessToast)]))
    {
      var s := backend;
      if FindRecipeById(recipes, recipeId).None? {
        Notify("菜谱不存在", ErrorToast);
        return;
      }
      var detail := GetRecipeDetailCall(backend, recipeId);
      backend := detail.next;
      if detail.result.Failure? {
        Notify("添加失败：" + detail.result.error, ErrorToast);
        return;
      }
      var ids := detail.result.value.ingredientIds.value;
      if |ids| > 0 {
        var added := AddToCartCall(backend, ids);
        backend := added.next;
        if added.result.Failure? {
          Notify("添加失败：" + added.result.error, ErrorToast);
          return;
        }
      }
      selectedRecipes := selectedRecipes + {recipeId};
      Notify("已添加到购物清单（" + NatToString(|ids|) + " 项食材）", SuccessToast);
      RefreshShoppingList();
    }

    /** `loadPurchaseHistory`: completed orders, each with its detail's items or none. */
    method LoadPurchaseHistory()
      modifies this
      ensures var s := old(backend); var r := GetPurchaseOrdersCall(s, Some(1));
        (r.result.Failure? ==> backend == r.next)
        && (r.result.Success? ==> backend == r.next.(log := r.next.log + DetailCalls(r.result.value)))
      ensures Snapshot() == old(Snapshot()).(purchaseHistory := HistoryAfterLoad(old(backend)))
    {
      var s := backend;
      var r := GetPurchaseOrdersCall(backend, Some(1));
      backend := r.next;
      if r.result.Failure? {
        purchaseHistory := [];
        return;
      }
      var orders := r.result.value;
      var records: seq<PurchaseOrder> := [];
      var i := 0;
      while i < |orders|
        invariant 0 <= i <= |orders|
        invariant backend == r.next.(log := r.next.log + DetailCalls(orders[..i]))
        invariant records == History(s, orders[..i])
        invariant Snapshot() == old(Snapshot())
      {
        var d := DetailCall(backend, orders[i].id);
        assert d.result == DetailOf(s, orders[i].id);
        HistoryStep(s, orders, i);
        backend := d.next;
        var record := if d.result.Success? then orders[i].(items := d.result.value.items) else orders[i].(items := Some([]));
        records := records + [record];
        i := i + 1;
      }
      assert orders[..|orders|] == orders;
      purchaseHistory := records;
    }

    /** `handleAddHistoryToCart`: re-adds an order's ingredients; an order without items does nothing. */
    method HandleAddHistoryToCart(orderId: int)
      modifies this
      ensures var s := old(backend); var d := DetailOf(s, orderId); var s1 := Issue(s, GetPurchaseOrderDetail(orderId));
        (d.Failure? ==> (backend == s1
          && Snapshot() == old(Snapshot()).(toasts := old(toasts) + [Toast("添加失败：" + d.error, ErrorToast)])))
        && (d.Success? ==>
          var ids := ItemIds(d.value.items.value);
          (ids == [] ==> backend == s1 && Snapshot() == old(Snapshot()))
          && (ids != [] && AddToCart(ids) in s.failing ==> (backend == Issue(s1, AddToCart(ids))
            && Snapshot() == old(Snapshot()).(toasts := old(toasts) + [Toast("添加失败：" + s.failing[AddToCart(ids)], ErrorToast)])))
          && (ids != [] && AddToCart(ids) !in s.failing ==>
            var s2 := AddToCartCall(s1, ids).next;
            backend == Issue(s2, GetCart)
            && Snapshot() == old(Snapshot()).(shoppingList := CartList(s2, old(ingredients)),
                 toasts := old(toasts) + [Toast("已添加 " + NatToString(|ids|) + " 项食材到购物车", SuccessToast)])))
    {
      var d := DetailCall(backend, orderId);
      backend := d.next;
      if d.result.Failure? {
        Notify("添加失败：" + d.result.error, ErrorToast);
        return;
      }
      var ids := ItemIds(d.result.value.items.value);
      if |ids| > 0 {
        var added := AddToCartCall(backend, ids);
        backend := added.next;
        if added.result.Failure? {
          Notify("添加失败：" + added.result.error, ErrorToast);
          return;
        }
        Notify("已添加 " + NatToString(|ids|) + " 项食材到购物车", SuccessToast);
        RefreshShoppingList();
      }
    }

    /** `handleDeletePurchaseOrder`: deletes, then reloads the history. */
    method HandleDeletePurchaseOrder(orderId: int)
      modifies this
      ensures var s := old(backend); var c := DeletePurchaseOrder(orderId);
        (c in s.failing ==> (backend == Issue(s, c)
          && Snapshot() == old(Snapshot()).(toasts := old(toasts) + [Toast("删除失败：" + s.failing[c], ErrorToast)])))
        && (c !in s.failing ==>
          var s1 := DeleteOrderCall(s, orderId).next; var r := GetPurchaseOrdersCall(s1, Some(1));
          s1 == Issue(s, c).(orders := OrdersWithoutId(s.orders, orderId))
          && (r.result.Failure? ==> backend == r.next)
          && (r.result.Success? ==> backend == r.next.(log := r.next.log + DetailCalls(r.result.value)))
          && Snapshot() == old(Snapshot()).(purchaseHistory := HistoryAfterLoad(s1),
                                            toasts := old(toasts) + [Toast("删除成功！", SuccessToast)]))
    {
      var r := DeleteOrderCall(backend, orderId);
      backend := r.next;
      if r.result.Failure? {
        Notify("删除失败：" + r.result.error, ErrorToast);
        return;
      }
      Notify("删除成功！", SuccessToast);
      LoadPurchaseHistory();
    }
  }

  /** The ids a batch removes grow by the new id exactly when its request does not fail. */
  lemma RemovedIdsSnoc(s: State, prefix: seq<int>, x: int)
    ensures RemovedIds(s, prefix + [x]) == RemovedIds(s, prefix) + (if RemoveFromCart(x) in s.failing then {} else {x})
  {
    var l, r := RemovedIds(s, prefix + [x]), RemovedIds(s, prefix) + (if RemoveFromCart(x) in s.failing then {} else {x});
    forall id | id in l ensures id in r {
      assert id in prefix || id == x;
    }
    forall id | id in r ensures id in l {
      assert id in prefix + [x];
    }
  }

  /** One more removal request takes the store to the state after the longer batch. */
  lemma AfterRemovalsSnoc(s: State, prefix: seq<int>, x: int)
    ensures RemoveFromCartCall(AfterRemovals(s, prefix), x).next == AfterRemovals(s, prefix + [x])
  {
    RemovedIdsSnoc(s, prefix, x);
    assert RemoveCalls(prefix + [x]) == RemoveCalls(prefix) + [RemoveFromCart(x)];
    var before := AfterRemovals(s, prefix);
    if RemoveFromCart(x) in s.failing {
      assert RemovedIds(s, prefix + [x]) == RemovedIds(s, prefix);
      assert RemoveFromCartCall(before, x).next == Issue(before, RemoveFromCart(x));
    } else {
      CartWithoutTwice(s.cart, RemovedIds(s, prefix), {x});
      assert RemoveFromCartCall(before, x).next == Issue(before, RemoveFromCart(x)).(cart := CartWithout(before.cart, {x}));
    }
  }

  /** One step of the batch removal loop. */
  lemma BatchStep(s: State, ids: seq<int>, i: int)
    requires 0 <= i < |ids|
    ensures var before := AfterRemovals(s, ids[..i]); var r := RemoveFromCartCall(before, ids[i]);
      r.next == AfterRemovals(s, ids[..i + 1])
      && FirstRemoveFailure(s, ids[..i + 1]) ==
           (if FirstRemoveFailure(s, ids[..i]).Some? then FirstRemoveFailure(s, ids[..i])
            else if r.result.Failure? then Some(r.result.error) else None)
      && (r.result.Failure? <==> RemoveFromCart(ids[i]) in s.failing)
      && (r.result.Failure? ==> r.result.error == s.failing[RemoveFromCart(ids[i])])
  {
    var prefix, x := ids[..i], ids[i];
    assert ids[..i + 1] == prefix + [x];
    AfterRemovalsSnoc(s, prefix, x);
    assert (prefix + [x])[..|prefix|] == prefix;
  }
}
