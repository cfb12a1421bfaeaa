/**
 * The recipe area's filters and counts over its own recipe shape, with
 * string ids and the types `quick` and `slow`.
 */
module RecipeArea {
  import opened Wrappers
  import opened Seqs

  /** The area's local recipe record. */
  datatype AreaRecipe = AreaRecipe(id: string, name: string, recipeType: string)

  const QuickKey: string := "quick"
  const SlowKey: string := "slow"

  /** The filter tabs: everything, the selected recipes, or one type. */
  datatype RecipeFilter = AllRecipes | SelectedRecipes | OfType(key: string)

  /** `filteredRecipes` for a filter, in recipe order. */
  function FilteredRecipes(recipes: seq<AreaRecipe>, selected: set<string>, f: RecipeFilter): (r: seq<AreaRecipe>)
    ensures IsSubsequence(r, recipes)
    ensures f.AllRecipes? ==> r == recipes
    ensures f.SelectedRecipes? ==> forall x :: x in r <==> x in recipes && x.id in selected
    ensures f.OfType? ==> forall x :: x in r <==> x in recipes && x.recipeType == f.key
  {
    match f
    case AllRecipes =>
      FilterAll(recipes, (x: AreaRecipe) => true);
      Filter(recipes, (x: AreaRecipe) => true)
    case SelectedRecipes => Filter(recipes, (x: AreaRecipe) => x.id in selected)
    case OfType(key) => Filter(recipes, (x: AreaRecipe) => x.recipeType == key)
  }

  /** `getFilterCount`: the selected tab counts the selection itself. */
  function FilterCount(recipes: seq<AreaRecipe>, selected: set<string>, f: RecipeFilter): (n: nat)
    ensures f.AllRecipes? ==> n == |recipes|
    ensures f.SelectedRecipes? ==> n == |selected|
  {
    match f
    case AllRecipes => |recipes|
    case SelectedRecipes => |selected|
    case OfType(key) => |Filter(recipes, (x: AreaRecipe) => x.recipeType == key)|
  }

  /** The all and type tabs count what they list. */
  lemma CountIsLength(recipes: seq<AreaRecipe>, selected: set<string>, f: RecipeFilter)
    requires !f.SelectedRecipes?
    ensures FilterCount(recipes, selected, f) == |FilteredRecipes(recipes, selected, f)|
  {
  }

  predicate DistinctIds(recipes: seq<AreaRecipe>) {
    forall i, j :: 0 <= i < j < |recipes| ==> recipes[i].id != recipes[j].id
  }

  function IdSet(recipes: seq<AreaRecipe>): set<string> {
    set r | r in recipes :: r.id
  }

  /** With distinct ids the selected tab lists no more recipes than it counts. */
  lemma SelectedListedAtMostCount(recipes: seq<AreaRecipe>, selected: set<string>)
    requires DistinctIds(recipes)
    ensures |FilteredRecipes(recipes, selected, SelectedRecipes)| <= FilterCount(recipes, selected, SelectedRecipes)
  {
    ListedAtMost(recipes, selected, (x: AreaRecipe) => x.id in selected);
    SubsetCard(selected * IdSet(recipes), selected);
  }

  lemma {:induction false} SubsetCard(a: set<string>, b: set<string>)
    requires a <= b
    ensures |a| <= |b|
  {
    if a != {} {
      var x :| x in a;
      SubsetCard(a - {x}, b - {x});
    }
  }

  /** The ids of a non-empty list: the head's id and the tail's, which are distinct from it. */
  lemma SplitIds(recipes: seq<AreaRecipe>)
    requires recipes != [] && DistinctIds(recipes)
    ensures IdSet(recipes) == {recipes[0].id} + IdSet(recipes[1..])
    ensures recipes[0].id !in IdSet(recipes[1..])
    ensures DistinctIds(recipes[1..])
  {
    var rest := recipes[1..];
    assert forall k :: 0 <= k < |rest| ==> rest[k] == recipes[k + 1];
    assert forall r :: r in recipes <==> r == recipes[0] || r in rest;
    forall r | r in rest ensures r.id != recipes[0].id {
      var k :| 0 <= k < |rest| && rest[k] == r;
    }
  }

  lemma {:induction false} ListedAtMost(recipes: seq<AreaRecipe>, selected: set<string>, p: AreaRecipe -> bool)
    requires DistinctIds(recipes)
    requires forall x :: p(x) == (x.id in selected)
    ensures |Filter(recipes, p)| <= |selected * IdSet(recipes)|
  {
    if recipes != [] {
      SplitIds(recipes);
      ListedAtMost(recipes[1..], selected, p);
      SelectedIdsStep(recipes, selected);
    }
  }

  /** The selected ids of a non-empty list: the selected ones of its tail, plus the head's when selected. */
  lemma SelectedIdsStep(recipes: seq<AreaRecipe>, selected: set<string>)
    requires recipes != [] && DistinctIds(recipes)
    ensures recipes[0].id in selected ==>
      |selected * IdSet(recipes)| == |selected * IdSet(recipes[1..])| + 1
    ensures recipes[0].id !in selected ==>
      selected * IdSet(recipes) == selected * IdSet(recipes[1..])
  {
    SplitIds(recipes);
    var x, tail := recipes[0].id, selected * IdSet(recipes[1..]);
    if x in selected {
      assert selected * IdSet(recipes) == tail + {x};
      assert x !in tail;
    }
  }

  /** A selection holding an id that is not listed counts more than the tab shows. */
  lemma SelectedCountCanExceedListed()
    ensures FilterCount([], {"r1"}, SelectedRecipes) == 1
    ensures FilteredRecipes([], {"r1"}, SelectedRecipes) == []
  {
  }

  /** When every recipe is quick or slow, the two type counts add up to the total. */
  lemma TypeCountsSum(recipes: seq<AreaRecipe>, selected: set<string>)
    requires forall x :: x in recipes ==> x.recipeType == QuickKey || x.recipeType == SlowKey
    ensures FilterCount(recipes, selected, OfType(QuickKey)) + FilterCount(recipes, selected, OfType(SlowKey))
      == FilterCount(recipes, selected, AllRecipes)
  {
    FilterPartition(recipes, (x: AreaRecipe) => x.recipeType == QuickKey, (x: AreaRecipe) => x.recipeType == SlowKey);
  }

  /** `recipeTypeLabels`. */
  function RecipeTypeLabel(key: string): (l: Option<string>)
    ensures l.Some? <==> key == QuickKey || key == SlowKey
    ensures l.Some? && key == QuickKey ==> l.value == "快菜"
    ensures l.Some? && key == SlowKey ==> l.value == "慢菜"
  {
    if key == QuickKey then Some("快菜") else if key == SlowKey then Some("慢菜") else None
  }
}
