/**
 * The client-side transforms of the HTTP layer: the response interceptor
 * that unwraps the backend's `{code, message, data}` envelope, the decoding
 * of integer enum codes in responses into labels, the encoding of labels
 * into codes in request payloads, and the shaping of query parameters.
 * JSON values are modelled with integer numbers only.
 */
module Api {
  import opened Wrappers
  import opened Strings
  import opened Types

  datatype Json =
    | JUndefined
    | JNull
    | JBool(b: bool)
    | JNum(n: int)
    | JStr(s: string)
    | JArr(elems: seq<Json>)
    | JObj(fields: map<string, Json>)

  /** JavaScript truthiness: `undefined`, `null`, `false`, `0` and `""` are falsy. */
  predicate Truthy(j: Json) {
    match j
    case JUndefined => false
    case JNull => false
    case JBool(b) => b
    case JNum(n) => n != 0
    case JStr(s) => s != ""
    case _ => true
  }

  /** `a || b`. */
  function Or(a: Json, b: Json): (r: Json)
    ensures Truthy(a) ==> r == a
    ensures !Truthy(a) ==> r == b
  {
    if Truthy(a) then a else b
  }

  /** Property access: a missing key reads as `undefined`. */
  function Get(m: map<string, Json>, k: string): (v: Json)
    ensures k !in m ==> v == JUndefined
    ensures k in m ==> v == m[k]
  {
    if k in m then m[k] else JUndefined
  }

  /** The backend's response envelope (the `Result` record). */
  datatype Envelope = Envelope(code: int, message: string, data: Json)

  /** The message the interceptor rejects with when the message is empty. */
  const RequestFailed: string := "请求失败"

  /** The response interceptor: `data` for code 200, otherwise an error carrying the message. */
  function Unwrap(e: Envelope): (r: Result<Json>)
    ensures r.Success? <==> e.code == 200
    ensures r.Success? ==> r.value == e.data
    ensures r.Failure? ==> r.error != "" && (e.message != "" ==> r.error == e.message)
    ensures r.Failure? && e.message == "" ==> r.error == RequestFailed
  {
    if e.code == 200 then Success(e.data)
    else Failure(if e.message != "" then e.message else RequestFailed)
  }

  /** `typeof v === 'number' ? table[v] : v`: a code becomes its label (`undefined` if the table has none). */
  function DecodeCode(v: Json, table: int -> Option<string>): (r: Json)
    ensures !v.JNum? ==> r == v
    ensures v.JNum? && table(v.n).Some? ==> r == JStr(table(v.n).value)
    ensures v.JNum? && table(v.n).None? ==> r == JUndefined
  {
    match v
    case JNum(n) => (match table(n) case Some(l) => JStr(l) case None => JUndefined)
    case _ => v
  }

  function CategoryLabelOfCode(n: int): (r: Option<string>)
    ensures r.Some? <==> 0 <= n < 5
  {
    match CategoryFromCode(n)
    case Some(c) => Some(CategoryLabel(c))
    case None => None
  }

  function StorageTypeLabelOfCode(n: int): (r: Option<string>)
    ensures r.Some? <==> 0 <= n < 3
  {
    match StorageTypeFromCode(n)
    case Some(s) => Some(StorageTypeLabel(s))
    case None => None
  }

  function RecipeTypeLabelOfCode(n: int): (r: Option<string>)
    ensures r.Some? <==> 0 <= n < 2
  {
    match RecipeTypeFromCode(n)
    case Some(t) => Some(RecipeTypeLabel(t))
    case None => None
  }

  /**
   * Object spread `{...v}`: an object's fields. Any other value contributes
   * no fields here (JavaScript would spread a string's characters and an
   * array's indices).
   */
  function Spread(v: Json): map<string, Json> {
    if v.JObj? then v.fields else map[]
  }

  /**
   * The ingredient transform applied to every ingredient a response carries:
   * `category` and `storageType` codes become labels, everything else is kept.
   */
  function DecodeIngredient(item: map<string, Json>): (r: map<string, Json>)
    ensures r.Keys == item.Keys + {"category", "storageType"}
    ensures forall k :: k in item && k != "category" && k != "storageType" ==> r[k] == item[k]
    ensures r["category"] == DecodeCode(Get(item, "category"), CategoryLabelOfCode)
    ensures r["storageType"] == DecodeCode(Get(item, "storageType"), StorageTypeLabelOfCode)
  {
    item["category" := DecodeCode(Get(item, "category"), CategoryLabelOfCode)]
        ["storageType" := DecodeCode(Get(item, "storageType"), StorageTypeLabelOfCode)]
  }

  /** Reading a property of `null` or `undefined` throws a `TypeError`. */
  predicate Nullish(v: Json) {
    v.JNull? || v.JUndefined?
  }

  /**
   * `response.data.map(...)` over an ingredient list. It throws (None) for a
   * non-array body, and for a `null` or `undefined` element, whose
   * `item.category` read fails.
   */
  function DecodeIngredients(data: Json): (r: Option<seq<Json>>)
    ensures r.Some? <==> data.JArr? && forall i :: 0 <= i < |data.elems| ==> !Nullish(data.elems[i])
    ensures r.Some? ==> (|r.value| == |data.elems| &&
      forall i :: 0 <= i < |data.elems| ==> r.value[i] == JObj(DecodeIngredient(Spread(data.elems[i]))))
  {
    match data
    case JArr(items) =>
      if exists i :: 0 <= i < |items| && Nullish(items[i]) then None
      else Some(seq(|items|, i requires 0 <= i < |items| => JObj(DecodeIngredient(Spread(items[i])))))
    case _ => None
  }

  /** A list holding `null` is rejected rather than decoded. */
  lemma DecodeNullElementThrows()
    ensures DecodeIngredients(JArr([JNull])).None?
    ensures DecodeIngredients(JArr([JObj(map[])])).Some?
  {
    assert Nullish(JArr([JNull]).elems[0]);
  }

  /** Decoding twice is decoding once: labels are strings and pass through. */
  lemma DecodeIngredientIdempotent(item: map<string, Json>)
    ensures DecodeIngredient(DecodeIngredient(item)) == DecodeIngredient(item)
  {
    var once := DecodeIngredient(item);
    assert DecodeCode(once["category"], CategoryLabelOfCode) == once["category"];
    assert DecodeCode(once["storageType"], StorageTypeLabelOfCode) == once["storageType"];
  }

  /** An ingredient as the front-end holds it: labels as strings. */
  function IngredientObject(x: Ingredient): map<string, Json> {
    map["id" := JNum(x.id), "name" := JStr(x.name), "category" := JStr(CategoryLabel(x.category)),
        "shelfLifeDays" := JNum(x.shelfLifeDays), "storageType" := JStr(StorageTypeLabel(x.storageType)),
        "imageUrl" := JStr(x.imageUrl)]
  }

  /** The `addIngredient` / `updateIngredient` payload: the ingredient without its id, labels as codes. */
  function EncodeIngredient(x: Ingredient): (r: map<string, Json>)
    ensures r.Keys == {"name", "category", "shelfLifeDays", "storageType", "imageUrl"}
    ensures r["category"] == JNum(CategoryCode(x.category)) && r["storageType"] == JNum(StorageTypeCode(x.storageType))
    ensures forall k :: k in r && k != "category" && k != "storageType" ==> r[k] == IngredientObject(x)[k]
  {
    map["name" := JStr(x.name), "category" := JNum(CategoryCode(x.category)),
        "shelfLifeDays" := JNum(x.shelfLifeDays), "storageType" := JNum(StorageTypeCode(x.storageType)),
        "imageUrl" := JStr(x.imageUrl)]
  }

  /** Reads an ingredient object with string labels back into the typed record. */
  function ReadIngredient(m: map<string, Json>): (r: Option<Ingredient>)
    ensures r.Some? ==> IngredientObject(r.value) == m - (m.Keys - IngredientObject(r.value).Keys)
  {
    var id := Get(m, "id");
    var name := Get(m, "name");
    var category := Get(m, "category");
    var shelf := Get(m, "shelfLifeDays");
    var storage := Get(m, "storageType");
    var image := Get(m, "imageUrl");
    if id.JNum? && name.JStr? && category.JStr? && shelf.JNum? && storage.JStr? && image.JStr?
       && CategoryOfLabel(category.s).Some? && StorageTypeOfLabel(storage.s).Some? then
      var x := Ingredient(id.n, name.s, CategoryOfLabel(category.s).value, shelf.n,
                          StorageTypeOfLabel(storage.s).value, image.s);
      assert IngredientObject(x) == m - (m.Keys - IngredientObject(x).Keys);
      Some(x)
    else None
  }

  /**
   * An ingredient sent with codes comes back, after the response transform,
   * as the same labels; with the id the backend assigns it reads back as the
   * same record.
   */
  lemma EncodeDecodeIngredient(x: Ingredient)
    ensures DecodeIngredient(EncodeIngredient(x)) == IngredientObject(x) - {"id"}
    ensures ReadIngredient(DecodeIngredient(EncodeIngredient(x)["id" := JNum(x.id)])) == Some(x)
  {
    DecodedPayload(x);
    DecodedPayloadWithId(x);
    ReadIngredientObject(x);
  }

  /** The decoded payload is the ingredient's object without its id. */
  lemma DecodedPayload(x: Ingredient)
    ensures DecodeIngredient(EncodeIngredient(x)) == IngredientObject(x) - {"id"}
  {
    var e := EncodeIngredient(x);
    var d, m := DecodeIngredient(e), IngredientObject(x) - {"id"};
    DecodeEncodedIngredient(e, x);
    assert d.Keys == m.Keys;
    forall k | k in d.Keys
      ensures d[k] == m[k]
    {
    }
  }

  /** With the id the backend assigns, the decoded payload is the ingredient's object. */
  lemma DecodedPayloadWithId(x: Ingredient)
    ensures DecodeIngredient(EncodeIngredient(x)["id" := JNum(x.id)]) == IngredientObject(x)
  {
    DecodedPayload(x);
    DecodeIngredientUpdate(EncodeIngredient(x), "id", JNum(x.id));
    var m := IngredientObject(x);
    assert (m - {"id"})["id" := m["id"]] == m;
  }

  /** A field other than the two coded ones is untouched by the transform. */
  lemma DecodeIngredientUpdate(item: map<string, Json>, k: string, v: Json)
    requires k != "category" && k != "storageType"
    ensures DecodeIngredient(item[k := v]) == DecodeIngredient(item)[k := v]
  {
    assert Get(item[k := v], "category") == Get(item, "category");
    assert Get(item[k := v], "storageType") == Get(item, "storageType");
  }

  /** Decoding a payload that holds the codes of `x` gives `x`'s labels. */
  lemma DecodeEncodedIngredient(e: map<string, Json>, x: Ingredient)
    requires Get(e, "category") == JNum(CategoryCode(x.category))
    requires Get(e, "storageType") == JNum(StorageTypeCode(x.storageType))
    ensures DecodeIngredient(e)["category"] == JStr(CategoryLabel(x.category))
    ensures DecodeIngredient(e)["storageType"] == JStr(StorageTypeLabel(x.storageType))
  {
    CategoryRoundTrip(x.category);
    StorageTypeRoundTrip(x.storageType);
  }

  /** An ingredient object reads back as its ingredient. */
  lemma ReadIngredientObject(x: Ingredient)
    ensures ReadIngredient(IngredientObject(x)) == Some(x)
  {
    CategoryRoundTrip(x.category);
    StorageTypeRoundTrip(x.storageType);
    var m := IngredientObject(x);
    assert Get(m, "category") == JStr(CategoryLabel(x.category));
    assert Get(m, "storageType") == JStr(StorageTypeLabel(x.storageType));
  }

  /** The `getRecipes` transform: the `type` code becomes its label. */
  function DecodeRecipe(item: map<string, Json>): (r: map<string, Json>)
    ensures r.Keys == item.Keys + {"type"}
    ensures forall k :: k in item && k != "type" ==> r[k] == item[k]
    ensures r["type"] == DecodeCode(Get(item, "type"), RecipeTypeLabelOfCode)
  {
    item["type" := DecodeCode(Get(item, "type"), RecipeTypeLabelOfCode)]
  }

  /** The `getRecipeDetail` transform: as `DecodeRecipe`, and `ingredientIds || []`. */
  function DecodeRecipeDetail(item: map<string, Json>): (r: map<string, Json>)
    ensures r.Keys == item.Keys + {"type", "ingredientIds"}
    ensures forall k :: k in item && k != "type" && k != "ingredientIds" ==> r[k] == item[k]
    ensures r["type"] == DecodeCode(Get(item, "type"), RecipeTypeLabelOfCode)
    ensures Get(item, "ingredientIds").JArr? || !Truthy(Get(item, "ingredientIds")) ==> r["ingredientIds"].JArr?
    ensures !Truthy(Get(item, "ingredientIds")) ==> r["ingredientIds"] == JArr([])
    ensures Truthy(Get(item, "ingredientIds")) ==> r["ingredientIds"] == item["ingredientIds"]
  {
    DecodeRecipe(item)["ingredientIds" := Or(Get(item, "ingredientIds"), JArr([]))]
  }

  /** The fields a recipe form submits; `ingredientIds` may be absent. */
  datatype RecipeInput = RecipeInput(
    name: string, recipeType: RecipeType, description: string, coverUrl: string, ingredientIds: Option<seq<int>>)

  function IdArray(ids: seq<int>): (j: Json)
    ensures j.JArr? && |j.elems| == |ids| && forall i :: 0 <= i < |ids| ==> j.elems[i] == JNum(ids[i])
  {
    JArr(seq(|ids|, i requires 0 <= i < |ids| => JNum(ids[i])))
  }

  /** The `addRecipe` / `updateRecipe` payload: exactly five fields, the type as its code, ids defaulting to `[]`. */
  function EncodeRecipe(x: RecipeInput): (r: map<string, Json>)
    ensures r.Keys == {"name", "type", "description", "coverUrl", "ingredientIds"}
    ensures r["name"] == JStr(x.name) && r["description"] == JStr(x.description) && r["coverUrl"] == JStr(x.coverUrl)
    ensures r["type"] == JNum(RecipeTypeCode(x.recipeType))
    ensures r["ingredientIds"] == IdArray(x.ingredientIds.GetOr([]))
  {
    map["name" := JStr(x.name), "type" := JNum(RecipeTypeCode(x.recipeType)),
        "description" := JStr(x.description), "coverUrl" := JStr(x.coverUrl),
        "ingredientIds" := IdArray(x.ingredientIds.GetOr([]))]
  }

  /** A recipe sent and read back through the detail transform keeps its label and its ids. */
  lemma EncodeDecodeRecipe(x: RecipeInput)
    ensures DecodeRecipeDetail(EncodeRecipe(x))["type"] == JStr(RecipeTypeLabel(x.recipeType))
    ensures DecodeRecipeDetail(EncodeRecipe(x))["ingredientIds"] == IdArray(x.ingredientIds.GetOr([]))
  {
    RecipeTypeRoundTrip(x.recipeType);
  }

  /** `ids.join(',')`. */
  function JoinIds(ids: seq<int>): string {
    Join(seq(|ids|, i requires 0 <= i < |ids| => IntToString(ids[i])), ',')
  }

  /** Splitting a non-empty joined id list on `,` and reading each part gives back the ids, in order. */
  lemma JoinIdsRoundTrip(ids: seq<int>)
    requires |ids| >= 1
    ensures var parts := Split(JoinIds(ids), ',');
      |parts| == |ids| && forall i :: 0 <= i < |ids| ==> ParseInteger(parts[i]) == Some(ids[i])
  {
    var strs := seq(|ids|, i requires 0 <= i < |ids| => IntToString(ids[i]));
    SplitJoin(strs, ',');
    forall i | 0 <= i < |ids| ensures ParseInteger(strs[i]) == Some(ids[i]) {
      IntToStringRoundTrip(ids[i]);
    }
  }

  /** An empty id list is sent as the empty string, which reads back as one empty part. */
  lemma JoinIdsEmpty()
    ensures JoinIds([]) == "" && Split(JoinIds([]), ',') == [""]
  {
  }

  /**
   * An id-list query with one key: `{ids: ids.join(',')}` for
   * `batchDeleteIngredients`, `{recipeIds: recipeIds.join(',')}` for
   * `getPurchasePlan`.
   */
  function IdListParams(key: string, ids: seq<int>): (p: map<string, Json>)
    ensures p.Keys == {key} && p[key] == JStr(JoinIds(ids))
  {
    map[key := JStr(JoinIds(ids))]
  }

  /** `getPurchaseOrders` query: `status` only when it is defined (0 included). */
  function StatusParams(status: Option<int>): (p: map<string, Json>)
    ensures "status" in p <==> status.Some?
    ensures status.Some? ==> p == map["status" := JNum(status.value)]
    ensures status.None? ==> p == map[]
  {
    match status
    case Some(s) => map["status" := JNum(s)]
    case None => map[]
  }

  /** `getIngredients` query: `category ? {category: code} : {}`; an unknown label gives `undefined`. */
  function CategoryParams(category: Option<string>): (p: map<string, Json>)
    ensures "category" in p <==> category.Some? && category.value != ""
    ensures "category" in p && CategoryOfLabel(category.value).Some? ==>
      p["category"] == JNum(CategoryCode(CategoryOfLabel(category.value).value))
    ensures "category" in p && CategoryOfLabel(category.value).None? ==> p["category"] == JUndefined
  {
    match category
    case Some(c) =>
      if c == "" then map[]
      else map["category" := (match CategoryOfLabel(c) case Some(k) => JNum(CategoryCode(k)) case None => JUndefined)]
    case None => map[]
  }
}
