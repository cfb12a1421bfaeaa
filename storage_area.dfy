/**
 * The storage area's filters and counts over its own item shape, in which
 * the storage type is one of the strings `room-temp`, `refrigerated` and
 * `frozen`. Whether an item expires soon is a predicate given by the caller.
 */
module StorageArea {
  import opened Wrappers
  import opened Seqs

  /** The area's local item record. */
  datatype Item = Item(
    id: string, name: string, category: string, storageType: string,
    productionDate: string, shelfLife: int)

  const RoomTempKey: string := "room-temp"
  const RefrigeratedKey: string := "refrigerated"
  const FrozenKey: string := "frozen"

  /** The filter tabs: everything, one storage type, or the items expiring soon. */
  datatype Filter = All | ByStorage(key: string) | Expiring

  /** `filteredItems` for a filter, in item order. */
  function FilteredItems(items: seq<Item>, f: Filter, expiring: Item -> bool): (r: seq<Item>)
    ensures IsSubsequence(r, items)
    ensures f.All? ==> r == items
    ensures f.ByStorage? ==> forall x :: x in r <==> x in items && x.storageType == f.key
    ensures f.Expiring? ==> forall x :: x in r <==> x in items && expiring(x)
  {
    match f
    case All =>
      FilterAll(items, (x: Item) => true);
      Seqs.Filter(items, (x: Item) => true)
    case ByStorage(key) => Seqs.Filter(items, (x: Item) => x.storageType == key)
    case Expiring => Seqs.Filter(items, expiring)
  }

  /** `getFilterCount`. */
  function FilterCount(items: seq<Item>, f: Filter, expiring: Item -> bool): (n: nat)
    ensures f.All? ==> n == |items|
  {
    match f
    case All => |items|
    case ByStorage(key) => |Seqs.Filter(items, (x: Item) => x.storageType == key)|
    case Expiring => |Seqs.Filter(items, expiring)|
  }

  /** Every tab's count is the length of what that tab lists. */
  lemma CountIsLength(items: seq<Item>, f: Filter, expiring: Item -> bool)
    ensures FilterCount(items, f, expiring) == |FilteredItems(items, f, expiring)|
  {
  }

  /** When every item has one of the three storage types, the three storage counts add up to the total. */
  lemma {:induction false} StorageCountsSum(items: seq<Item>, expiring: Item -> bool)
    requires forall x :: x in items ==> x.storageType in {RoomTempKey, RefrigeratedKey, FrozenKey}
    ensures FilterCount(items, ByStorage(RoomTempKey), expiring) + FilterCount(items, ByStorage(RefrigeratedKey), expiring)
      + FilterCount(items, ByStorage(FrozenKey), expiring) == FilterCount(items, All, expiring)
  {
    var room := (x: Item) => x.storageType == RoomTempKey;
    var cold := (x: Item) => x.storageType == RefrigeratedKey;
    var frozen := (x: Item) => x.storageType == FrozenKey;
    var notRoom := (x: Item) => x.storageType != RoomTempKey;
    FilterPartition(items, room, notRoom);
    var rest := Seqs.Filter(items, notRoom);
    FilterPartition(rest, cold, frozen);
    FilterOfFilter(items, notRoom, cold);
    FilterOfFilter(items, notRoom, frozen);
  }

  /** Filtering the items of a filter by a stronger predicate is filtering by that predicate. */
  lemma {:induction false} FilterOfFilter(s: seq<Item>, p: Item -> bool, q: Item -> bool)
    requires forall x :: q(x) ==> p(x)
    ensures Seqs.Filter(Seqs.Filter(s, p), q) == Seqs.Filter(s, q)
  {
    if s != [] {
      FilterOfFilter(s[1..], p, q);
    }
  }

  /** `getDeadlineColor`: red at three days or fewer, amber up to seven, green beyond. */
  function DeadlineColor(days: int): (c: string)
    ensures days <= 3 ==> c == "#ff4d4f"
    ensures 3 < days <= 7 ==> c == "#faad14"
    ensures days > 7 ==> c == "#52c41a"
  {
    if days <= 3 then "#ff4d4f" else if days <= 7 then "#faad14" else "#52c41a"
  }

  /** How urgent a deadline colour is: green 0, amber 1, red 2. */
  function Urgency(c: string): nat {
    if c == "#ff4d4f" then 2 else if c == "#faad14" then 1 else 0
  }

  /** More remaining days never give a more urgent colour. */
  lemma DeadlineColorMonotone(d1: int, d2: int)
    requires d1 <= d2
    ensures Urgency(DeadlineColor(d2)) <= Urgency(DeadlineColor(d1))
  {
  }

  /** `storageLabels`. */
  function StorageLabel(key: string): (l: Option<string>)
    ensures l.Some? <==> key in {RoomTempKey, RefrigeratedKey, FrozenKey}
  {
    if key == RoomTempKey then Some("常温")
    else if key == RefrigeratedKey then Some("冷藏")
    else if key == FrozenKey then Some("冷冻")
    else None
  }

  /** `typeLabels`: four categories, without spices. */
  function CategoryLabel(key: string): (l: Option<string>)
    ensures l.Some? <==> key in {"fruit", "vegetable", "meat", "carbs"}
  {
    if key == "fruit" then Some("水果")
    else if key == "vegetable" then Some("蔬菜")
    else if key == "meat" then Some("肉类")
    else if key == "carbs" then Some("碳水")
    else None
  }

  /** Distinct storage keys have distinct labels. */
  lemma StorageLabelInjective(k1: string, k2: string)
    requires StorageLabel(k1).Some? && StorageLabel(k1) == StorageLabel(k2)
    ensures k1 == k2
  {
  }
}
