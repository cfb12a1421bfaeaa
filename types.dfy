/**
 * The entity records and the four wire enumerations shared with the backend.
 * Each enumeration is sent as an integer code; the front-end shows its
 * Chinese label. `Code` is the forward table (label to integer), `FromCode`
 * the reverse table, which has no entry for other integers.
 */
module Types {
  import opened Wrappers

  /** Storage condition: 常温 (room temperature), 冷藏 (refrigerated), 冷冻 (frozen). */
  datatype StorageType = Room | Cold | Frozen

  function StorageTypeCode(s: StorageType): (n: int)
    ensures 0 <= n < 3
  {
    match s
    case Room => 0
    case Cold => 1
    case Frozen => 2
  }

  function StorageTypeFromCode(n: int): (r: Option<StorageType>)
    ensures r.Some? <==> 0 <= n < 3
    ensures r.Some? ==> StorageTypeCode(r.value) == n
  {
    if n == 0 then Some(Room) else if n == 1 then Some(Cold) else if n == 2 then Some(Frozen) else None
  }

  function StorageTypeLabel(s: StorageType): string {
    match s
    case Room => "常温"
    case Cold => "冷藏"
    case Frozen => "冷冻"
  }

  /** The label a string names, if any. */
  function StorageTypeOfLabel(l: string): (r: Option<StorageType>)
    ensures r.Some? ==> StorageTypeLabel(r.value) == l
  {
    if l == "常温" then Some(Room) else if l == "冷藏" then Some(Cold) else if l == "冷冻" then Some(Frozen) else None
  }

  /** The reverse table undoes the forward table, and labels are distinct. */
  lemma StorageTypeRoundTrip(s: StorageType)
    ensures StorageTypeFromCode(StorageTypeCode(s)) == Some(s)
    ensures StorageTypeOfLabel(StorageTypeLabel(s)) == Some(s)
  {
  }

  /** Ingredient category: 水果, 蔬菜, 肉类, 碳水, 调料 (fruit, vegetable, meat, carbohydrate, spice). */
  datatype IngredientCategory = Fruit | Vegetable | Meat | Carb | Spice

  function CategoryCode(c: IngredientCategory): (n: int)
    ensures 0 <= n < 5
  {
    match c
    case Fruit => 0
    case Vegetable => 1
    case Meat => 2
    case Carb => 3
    case Spice => 4
  }

  function CategoryFromCode(n: int): (r: Option<IngredientCategory>)
    ensures r.Some? <==> 0 <= n < 5
    ensures r.Some? ==> CategoryCode(r.value) == n
  {
    if n == 0 then Some(Fruit) else if n == 1 then Some(Vegetable) else if n == 2 then Some(Meat)
    else if n == 3 then Some(Carb) else if n == 4 then Some(Spice) else None
  }

  function CategoryLabel(c: IngredientCategory): string {
    match c
    case Fruit => "水果"
    case Vegetable => "蔬菜"
    case Meat => "肉类"
    case Carb => "碳水"
    case Spice => "调料"
  }

  function CategoryOfLabel(l: string): (r: Option<IngredientCategory>)
    ensures r.Some? ==> CategoryLabel(r.value) == l
  {
    if l == "水果" then Some(Fruit) else if l == "蔬菜" then Some(Vegetable) else if l == "肉类" then Some(Meat)
    else if l == "碳水" then Some(Carb) else if l == "调料" then Some(Spice) else None
  }

  lemma CategoryRoundTrip(c: IngredientCategory)
    ensures CategoryFromCode(CategoryCode(c)) == Some(c)
    ensures CategoryOfLabel(CategoryLabel(c)) == Some(c)
  {
  }

  /** Recipe type: 快手菜 (quick) and 功夫菜 (elaborate). */
  datatype RecipeType = Quick | Elaborate

  function RecipeTypeCode(t: RecipeType): (n: int)
    ensures 0 <= n < 2
  {
    match t
    case Quick => 0
    case Elaborate => 1
  }

  function RecipeTypeFromCode(n: int): (r: Option<RecipeType>)
    ensures r.Some? <==> 0 <= n < 2
    ensures r.Some? ==> RecipeTypeCode(r.value) == n
  {
    if n == 0 then Some(Quick) else if n == 1 then Some(Elaborate) else None
  }

  function RecipeTypeLabel(t: RecipeType): string {
    match t
    case Quick => "快手菜"
    case Elaborate => "功夫菜"
  }

  function RecipeTypeOfLabel(l: string): (r: Option<RecipeType>)
    ensures r.Some? ==> RecipeTypeLabel(r.value) == l
  {
    if l == "快手菜" then Some(Quick) else if l == "功夫菜" then Some(Elaborate) else None
  }

  lemma RecipeTypeRoundTrip(t: RecipeType)
    ensures RecipeTypeFromCode(RecipeTypeCode(t)) == Some(t)
    ensures RecipeTypeOfLabel(RecipeTypeLabel(t)) == Some(t)
  {
  }

  /** Purchase order status: DRAFT is the open cart, PURCHASED a completed order. */
  datatype PurchaseStatus = Draft | Purchased

  function PurchaseStatusCode(s: PurchaseStatus): (n: int)
    ensures 0 <= n < 2
  {
    match s
    case Draft => 0
    case Purchased => 1
  }

  function PurchaseStatusFromCode(n: int): (r: Option<PurchaseStatus>)
    ensures r.Some? <==> 0 <= n < 2
    ensures r.Some? ==> PurchaseStatusCode(r.value) == n
  {
    if n == 0 then Some(Draft) else if n == 1 then Some(Purchased) else None
  }

  function PurchaseStatusLabel(s: PurchaseStatus): string {
    match s
    case Draft => "DRAFT"
    case Purchased => "PURCHASED"
  }

  lemma PurchaseStatusRoundTrip(s: PurchaseStatus)
    ensures PurchaseStatusFromCode(PurchaseStatusCode(s)) == Some(s)
  {
  }

  /** Each forward table is one-to-one. */
  lemma CodesInjective(s1: StorageType, s2: StorageType, c1: IngredientCategory, c2: IngredientCategory,
                       t1: RecipeType, t2: RecipeType, p1: PurchaseStatus, p2: PurchaseStatus)
    ensures StorageTypeCode(s1) == StorageTypeCode(s2) ==> s1 == s2
    ensures CategoryCode(c1) == CategoryCode(c2) ==> c1 == c2
    ensures RecipeTypeCode(t1) == RecipeTypeCode(t2) ==> t1 == t2
    ensures PurchaseStatusCode(p1) == PurchaseStatusCode(p2) ==> p1 == p2
  {
    StorageTypeRoundTrip(s1);
    StorageTypeRoundTrip(s2);
    CategoryRoundTrip(c1);
    CategoryRoundTrip(c2);
    RecipeTypeRoundTrip(t1);
    RecipeTypeRoundTrip(t2);
    PurchaseStatusRoundTrip(p1);
    PurchaseStatusRoundTrip(p2);
  }

  /** Ingredient metadata. */
  datatype Ingredient = Ingredient(
    id: int, name: string, category: IngredientCategory, shelfLifeDays: int,
    storageType: StorageType, imageUrl: string)

  /** One stock entry of an ingredient. */
  datatype Inventory = Inventory(
    id: int, ingredientId: int, productionDate: string, expiryDate: string,
    storageType: StorageType, updateTime: string)

  /** A recipe; `ingredientIds` may be absent. */
  datatype Recipe = Recipe(
    id: int, name: string, recipeType: RecipeType, description: string,
    coverUrl: string, ingredientIds: Option<seq<int>>)

  datatype PurchaseOrderItem = PurchaseOrderItem(ingredientId: int, ingredientName: string, unit: Option<string>)

  /** A purchase order; the open cart is the order in `Draft` status. `items` may be absent. */
  datatype PurchaseOrder = PurchaseOrder(
    id: int, status: PurchaseStatus, totalCost: int, remark: Option<string>,
    createTime: Option<string>, updateTime: Option<string>, items: Option<seq<PurchaseOrderItem>>)

  /** An inventory entry joined with its ingredient, when the catalogue has one. */
  datatype InventoryWithIngredient = InventoryWithIngredient(inventory: Inventory, ingredient: Option<Ingredient>)

  datatype ShoppingItem = ShoppingItem(ingredient: Ingredient, recipeNames: seq<string>)
}
