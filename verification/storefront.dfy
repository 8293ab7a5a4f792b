/**
 * The home page: the row of category buttons and the items shown for the
 * selected category, where the button "all" shows every item.
 */
module Storefront {
  import opened Seqs
  import opened Records
  import Catalog

  const AllCategories: string := "all"

  /** The category buttons: "all" first, then the items' distinct categories
      in order of first appearance. The distinct set is taken over the item
      categories only, so an item whose category is itself "all" makes the
      label appear twice. */
  function CategoryButtons(items: seq<Item>): (r: seq<string>)
    ensures |r| == |Catalog.Categories(items)| + 1
    ensures r[0] == AllCategories
    ensures r[1..] == Catalog.Categories(items)
    ensures NoDup(r[1..])
    ensures InFirstOccurrenceOrder(r[1..], Map(items, Catalog.CategoryOf))
    ensures forall k :: 0 <= k < |items| ==> items[k].category in r[1..]
    ensures forall c :: c in r[1..] ==> exists k :: 0 <= k < |items| && items[k].category == c
  {
    var r := [AllCategories] + Catalog.Categories(items);
    assert r[1..] == Catalog.Categories(items);
    r
  }

  function InCategory(c: string): Item -> bool
  {
    (it: Item) => it.category == c
  }

  /** The items shown for the selected category. */
  function FilteredItems(items: seq<Item>, selected: string): (r: seq<Item>)
    ensures selected == AllCategories ==> r == items
    ensures selected != AllCategories ==> forall k :: 0 <= k < |r| ==> r[k].category == selected
    ensures selected != AllCategories ==>
              forall it :: multiset(r)[it] == if it.category == selected then multiset(items)[it] else 0
    ensures selected != AllCategories ==> IsSubseq(r, items)
  {
    if selected == AllCategories then items
    else
      FilterMultiplicity(items, InCategory(selected));
      FilterIsSubseq(items, InCategory(selected));
      Filter(items, InCategory(selected))
  }

  /** Selecting a category twice in a row shows the same items as selecting it once. */
  lemma FilterTwiceIsFilterOnce(items: seq<Item>, selected: string)
    ensures FilteredItems(FilteredItems(items, selected), selected) == FilteredItems(items, selected)
  {
    if selected != AllCategories {
      FilterKeepsAll(FilteredItems(items, selected), InCategory(selected));
    }
  }

  /** Every item shown for some category button is also shown under "all", and
      every item appears under the button of its own category. */
  lemma EveryItemHasAButton(items: seq<Item>, k: nat)
    requires k < |items|
    ensures items[k].category in CategoryButtons(items)
    ensures items[k] in FilteredItems(items, items[k].category)
  {
    var c := items[k].category;
    var r := CategoryButtons(items);
    assert c in r[1..];
    if c != AllCategories {
      assert multiset(FilteredItems(items, c))[items[k]] == multiset(items)[items[k]];
    }
  }
}
