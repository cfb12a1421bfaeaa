/**
 * The backend as the front-end sees it: an abstract store answering the
 * calls the handlers make, each a total function from the store to the next
 * store and a reply that may be an error. The server is not part of this
 * repository, so its behaviour here is an assumption kept deliberately
 * simple: the open cart is the one order in DRAFT status, adding appends an
 * item per id (duplicates included), removing drops every item with the id,
 * and confirming closes the cart into a PURCHASED order. Which calls fail,
 * and with which message, is chosen by the environment (`failing`); every
 * call issued is recorded in `log`.
 */
module Backend {
  import opened Wrappers
  import opened Types

  datatype Call =
    | GetInventory
    | GetRecipes
    | GetIngredients
    | GetRecipeDetail(recipeId: int)
    | AddToCart(ingredientIds: seq<int>)
    | GetCart
    | RemoveFromCart(ingredientId: int)
    | ConfirmCartPurchase(orderId: int, totalCost: int, remark: string)
    | GetPurchaseOrders(status: Option<int>)
    | GetPurchaseOrderDetail(orderId: int)
    | DeletePurchaseOrder(orderId: int)

  datatype State = State(
    ingredients: seq<Ingredient>,
    recipes: seq<Recipe>,
    inventory: seq<Inventory>,
    cart: Option<PurchaseOrder>,
    orders: seq<PurchaseOrder>,
    nextOrderId: int,
    failing: map<Call, string>,
    log: seq<Call>)

  /** The store after a call, and the call's (unwrapped) reply. */
  datatype Reply<T> = Reply(next: State, result: Result<T>)

  /** The message of a request the store refuses (an unknown id). */
  const Refused: string := "请求失败"

  /** The store with call `c` recorded. */
  function Issue(s: State, c: Call): (t: State)
    ensures t.log == s.log + [c]
  {
    s.(log := s.log + [c])
  }

  /** A call the environment makes fail: nothing changes but the log. */
  function Failed<T>(s: State, c: Call): (r: Reply<T>)
    requires c in s.failing
    ensures r.next == Issue(s, c) && r.result == Failure(s.failing[c])
  {
    Reply(Issue(s, c), Failure(s.failing[c]))
  }

  /** A call that only reads: nothing changes but the log. */
  function Read<T>(s: State, c: Call, value: T): (r: Reply<T>)
    ensures r.next == Issue(s, c)
    ensures c in s.failing ==> r.result == Failure(s.failing[c])
    ensures c !in s.failing ==> r.result == Success(value)
  {
    if c in s.failing then Failed(s, c) else Reply(Issue(s, c), Success(value))
  }

  function GetInventoryCall(s: State): Reply<seq<Inventory>> {
    Read(s, GetInventory, s.inventory)
  }

  function GetRecipesCall(s: State): Reply<seq<Recipe>> {
    Read(s, GetRecipes, s.recipes)
  }

  function GetIngredientsCall(s: State): Reply<seq<Ingredient>> {
    Read(s, GetIngredients, s.ingredients)
  }

  function GetCartCall(s: State): Reply<Option<PurchaseOrder>> {
    Read(s, GetCart, s.cart)
  }

  /** The index of the first recipe with the id, or -1 when there is none. */
  function FirstRecipeWithId(recipes: seq<Recipe>, id: int): (k: int)
    ensures -1 <= k < |recipes|
    ensures k >= 0 ==> recipes[k].id == id
    ensures forall j :: 0 <= j < |recipes| && (k == -1 || j < k) ==> recipes[j].id != id
  {
    if recipes == [] then -1
    else if recipes[0].id == id then 0
    else
      var k := FirstRecipeWithId(recipes[1..], id);
      if k == -1 then -1 else k + 1
  }

  /** `recipes.find(r => r.id === id)`: the first recipe with the id. */
  function FindRecipeById(recipes: seq<Recipe>, id: int): (r: Option<Recipe>)
    ensures r.Some? <==> exists k :: 0 <= k < |recipes| && recipes[k].id == id
    ensures r.Some? ==> r.value in recipes && r.value.id == id
    ensures r.Some? ==>
      exists k :: 0 <= k < |recipes| && recipes[k] == r.value && (forall j :: 0 <= j < k ==> recipes[j].id != id)
  {
    var k := FirstRecipeWithId(recipes, id);
    if k >= 0 then Some(recipes[k]) else None
  }

  /** The recipe detail, with `ingredientIds || []` applied by the client transform. */
  function RecipeDetailOf(s: State, id: int): (r: Result<Recipe>)
    ensures r.Success? ==> r.value.id == id && r.value.ingredientIds.Some?
  {
    match FindRecipeById(s.recipes, id)
    case Some(recipe) => Success(recipe.(ingredientIds := Some(recipe.ingredientIds.GetOr([]))))
    case None => Failure(Refused)
  }

  function GetRecipeDetailCall(s: State, id: int): (r: Reply<Recipe>)
    ensures r.next == Issue(s, GetRecipeDetail(id))
    ensures GetRecipeDetail(id) !in s.failing ==> r.result == RecipeDetailOf(s, id)
    ensures GetRecipeDetail(id) in s.failing ==> r.result == Failure(s.failing[GetRecipeDetail(id)])
  {
    var c := GetRecipeDetail(id);
    if c in s.failing then Failed(s, c) else Reply(Issue(s, c), RecipeDetailOf(s, id))
  }

  /** The name the catalogue gives an ingredient id ("" when unknown). */
  function NameOf(ingredients: seq<Ingredient>, id: int): string {
    if ingredients == [] then ""
    else if ingredients[0].id == id then ingredients[0].name
    else NameOf(ingredients[1..], id)
  }

  function ItemsFor(ingredients: seq<Ingredient>, ids: seq<int>): (items: seq<PurchaseOrderItem>)
    ensures |items| == |ids| && forall i :: 0 <= i < |ids| ==> items[i].ingredientId == ids[i]
  {
    seq(|ids|, i requires 0 <= i < |ids| => PurchaseOrderItem(ids[i], NameOf(ingredients, ids[i]), None))
  }

  /** Adds one item per id to the open cart, opening a new DRAFT order when there is none. */
  function AddToCartCall(s: State, ids: seq<int>): (r: Reply<()>)
    ensures AddToCart(ids) in s.failing ==> r == Failed(s, AddToCart(ids))
    ensures AddToCart(ids) !in s.failing ==>
      r.result.Success? && r.next.log == s.log + [AddToCart(ids)] && r.next.cart.Some?
      && r.next.cart.value.items == Some(CartItems(s.cart) + ItemsFor(s.ingredients, ids))
      && r.next.orders == s.orders && r.next.failing == s.failing
  {
    var c := AddToCart(ids);
    if c in s.failing then Failed(s, c)
    else
      var added := ItemsFor(s.ingredients, ids);
      match s.cart
      case Some(o) =>
        Reply(Issue(s, c).(cart := Some(o.(items := Some(CartItems(s.cart) + added)))), Success(()))
      case None =>
        assert CartItems(s.cart) + added == added;
        var o := PurchaseOrder(s.nextOrderId, Draft, 0, None, None, None, Some(added));
        Reply(Issue(s, c).(cart := Some(o), nextOrderId := s.nextOrderId + 1), Success(()))
  }

  /** The items of the cart, none when there is no cart or it lists none. */
  function CartItems(cart: Option<PurchaseOrder>): seq<PurchaseOrderItem> {
    if cart.Some? && cart.value.items.Some? then cart.value.items.value else []
  }

  /** The items whose ingredient is not in `ids`, in order. */
  function RemoveItems(items: seq<PurchaseOrderItem>, ids: set<int>): (r: seq<PurchaseOrderItem>)
    ensures forall x :: x in r <==> x in items && x.ingredientId !in ids
    ensures |r| <= |items|
  {
    if items == [] then []
    else
      var rest := RemoveItems(items[1..], ids);
      assert forall x :: x in items <==> x == items[0] || x in items[1..];
      if items[0].ingredientId in ids then rest else [items[0]] + rest
  }

  lemma {:induction false} RemoveItemsTwice(items: seq<PurchaseOrderItem>, a: set<int>, b: set<int>)
    ensures RemoveItems(RemoveItems(items, a), b) == RemoveItems(items, a + b)
  {
    if items != [] {
      RemoveItemsTwice(items[1..], a, b);
    }
  }

  lemma {:induction false} RemoveItemsNone(items: seq<PurchaseOrderItem>)
    ensures RemoveItems(items, {}) == items
  {
    if items != [] {
      RemoveItemsNone(items[1..]);
    }
  }

  /** The cart without the items of the given ingredients. */
  function CartWithout(cart: Option<PurchaseOrder>, ids: set<int>): Option<PurchaseOrder> {
    match cart
    case Some(o) =>
      (match o.items
       case Some(items) => Some(o.(items := Some(RemoveItems(items, ids))))
       case None => cart)
    case None => None
  }

  lemma CartWithoutTwice(cart: Option<PurchaseOrder>, a: set<int>, b: set<int>)
    ensures CartWithout(CartWithout(cart, a), b) == CartWithout(cart, a + b)
  {
    if cart.Some? && cart.value.items.Some? {
      RemoveItemsTwice(cart.value.items.value, a, b);
    }
  }

  lemma CartWithoutNothing(cart: Option<PurchaseOrder>)
    ensures CartWithout(cart, {}) == cart
  {
    if cart.Some? && cart.value.items.Some? {
      RemoveItemsNone(cart.value.items.value);
    }
  }

  /** Drops every cart item of the ingredient. */
  function RemoveFromCartCall(s: State, id: int): (r: Reply<()>)
    ensures RemoveFromCart(id) in s.failing ==> r == Failed(s, RemoveFromCart(id))
    ensures RemoveFromCart(id) !in s.failing ==>
      r.result.Success? && r.next == Issue(s, RemoveFromCart(id)).(cart := CartWithout(s.cart, {id}))
  {
    var c := RemoveFromCart(id);
    if c in s.failing then Failed(s, c)
    else Reply(Issue(s, c).(cart := CartWithout(s.cart, {id})), Success(()))
  }

  /** Closes the open cart into a PURCHASED order; refused unless `orderId` is the open cart's id. */
  function ConfirmCall(s: State, orderId: int, totalCost: int, remark: string): (r: Reply<()>)
    ensures r.next.log == s.log + [ConfirmCartPurchase(orderId, totalCost, remark)]
    ensures r.result.Success? <==>
      ConfirmCartPurchase(orderId, totalCost, remark) !in s.failing && s.cart.Some? && s.cart.value.id == orderId
    ensures r.result.Success? ==>
      r.next == Issue(s, ConfirmCartPurchase(orderId, totalCost, remark)).(cart := None,
        orders := s.orders + [s.cart.value.(status := Purchased, totalCost := totalCost, remark := Some(remark))])
    ensures r.result.Failure? ==> r.next == Issue(s, ConfirmCartPurchase(orderId, totalCost, remark))
  {
    var c := ConfirmCartPurchase(orderId, totalCost, remark);
    if c in s.failing then Failed(s, c)
    else match s.cart
      case Some(o) =>
        if o.id == orderId then
          var done := o.(status := Purchased, totalCost := totalCost, remark := Some(remark));
          Reply(Issue(s, c).(cart := None, orders := s.orders + [done]), Success(()))
        else Reply(Issue(s, c), Failure(Refused))
      case None => Reply(Issue(s, c), Failure(Refused))
  }

  /** Every order the store holds: the open cart first, then the others. */
  function AllOrders(s: State): seq<PurchaseOrder> {
    (if s.cart.Some? then [s.cart.value] else []) + s.orders
  }

  function OrdersWithStatus(orders: seq<PurchaseOrder>, status: Option<int>): (r: seq<PurchaseOrder>)
    ensures forall o :: o in r <==> o in orders && (status.None? || PurchaseStatusCode(o.status) == status.value)
  {
    if orders == [] then []
    else
      var rest := OrdersWithStatus(orders[1..], status);
      assert forall o :: o in orders <==> o == orders[0] || o in orders[1..];
      if status.None? || PurchaseStatusCode(orders[0].status) == status.value then [orders[0]] + rest else rest
  }

  function GetPurchaseOrdersCall(s: State, status: Option<int>): Reply<seq<PurchaseOrder>> {
    Read(s, GetPurchaseOrders(status), OrdersWithStatus(AllOrders(s), status))
  }

  function FindOrderById(orders: seq<PurchaseOrder>, id: int): (r: Option<PurchaseOrder>)
    ensures r.Some? ==> r.value in orders && r.value.id == id
    ensures r.None? ==> forall o :: o in orders ==> o.id != id
  {
    if orders == [] then None
    else if orders[0].id == id then Some(orders[0])
    else FindOrderById(orders[1..], id)
  }

  /** The order detail: the order with its item list always present. */
  function DetailOf(s: State, id: int): (r: Result<PurchaseOrder>)
    ensures r.Success? ==> r.value.id == id && r.value.items.Some?
  {
    if GetPurchaseOrderDetail(id) in s.failing then Failure(s.failing[GetPurchaseOrderDetail(id)])
    else match FindOrderById(AllOrders(s), id)
      case Some(o) => Success(o.(items := Some(o.items.GetOr([]))))
      case None => Failure(Refused)
  }

  function DetailCall(s: State, id: int): (r: Reply<PurchaseOrder>)
    ensures r.next == Issue(s, GetPurchaseOrderDetail(id)) && r.result == DetailOf(s, id)
  {
    Reply(Issue(s, GetPurchaseOrderDetail(id)), DetailOf(s, id))
  }

  function DeleteOrderCall(s: State, id: int): (r: Reply<()>)
    ensures DeletePurchaseOrder(id) in s.failing ==> r == Failed(s, DeletePurchaseOrder(id))
    ensures DeletePurchaseOrder(id) !in s.failing ==>
      r.result.Success? && r.next == Issue(s, DeletePurchaseOrder(id)).(orders := OrdersWithoutId(s.orders, id))
  {
    var c := DeletePurchaseOrder(id);
    if c in s.failing then Failed(s, c)
    else Reply(Issue(s, c).(orders := OrdersWithoutId(s.orders, id)), Success(()))
  }

  function OrdersWithoutId(orders: seq<PurchaseOrder>, id: int): (r: seq<PurchaseOrder>)
    ensures forall o :: o in r <==> o in orders && o.id != id
  {
    if orders == [] then []
    else
      var rest := OrdersWithoutId(orders[1..], id);
      assert forall o :: o in orders <==> o == orders[0] || o in orders[1..];
      if orders[0].id == id then rest else [orders[0]] + rest
  }
}
