/**
 * The item page's list operations on its local copy of the catalog: the
 * category list offered when adding an item, adding with the duplicate-name
 * check, replacing an edited item, and deleting. The store calls that
 * precede each local change are assumed to succeed; when they fail the
 * page logs the error and leaves its list as it was.
 */
module Catalog {
  import opened Outcomes
  import opened Seqs
  import opened Records

  /** The values read from the add or edit form. */
  datatype ItemForm = ItemForm(name: string, price: int, image: string)

  function CategoryOf(it: Item): string
  {
    it.category
  }

  function IdOf(it: Item): Option<string>
  {
    it.id
  }

  function ItemName(it: Item): string
  {
    it.name
  }

  /** The distinct categories of the loaded items, in order of first appearance. */
  function Categories(items: seq<Item>): (r: seq<string>)
    ensures NoDup(r)
    ensures forall k :: 0 <= k < |items| ==> items[k].category in r
    ensures forall c :: c in r ==> exists k :: 0 <= k < |items| && items[k].category == c
    ensures InFirstOccurrenceOrder(r, Map(items, CategoryOf))
  {
    var column := Map(items, CategoryOf);
    DistinctKeepsFirstOccurrenceOrder(column);
    DistinctMembers(column);
    assert forall k :: 0 <= k < |items| ==> column[k] in column;
    assert forall c :: c in Distinct(column) ==> exists k :: 0 <= k < |items| && items[k].category == c by {
      forall c | c in Distinct(column)
        ensures exists k :: 0 <= k < |items| && items[k].category == c
      {
        var k :| 0 <= k < |column| && column[k] == c;
        assert items[k].category == c;
      }
    }
    Distinct(column)
  }

  /** The category of a new item: the selected one, or the typed one when none is selected. */
  function ChosenCategory(selectedCategory: string, newCategory: string): string
  {
    if selectedCategory != "" then selectedCategory else newCategory
  }

  /** The record the page appends after a successful add; it has no `_id`. */
  function NewItem(form: ItemForm, selectedCategory: string, newCategory: string): Item
  {
    Item(None, form.name, form.price, form.image, ChosenCategory(selectedCategory, newCategory))
  }

  predicate NameTaken(items: seq<Item>, name: string)
  {
    exists k :: 0 <= k < |items| && items[k].name == name
  }

  /** The list after an add: unchanged when the name is already used, otherwise
      the new item appended at the end. */
  function AddItem(items: seq<Item>, form: ItemForm, selectedCategory: string, newCategory: string): (r: seq<Item>)
    ensures NameTaken(items, form.name) ==> r == items
    ensures !NameTaken(items, form.name) ==>
              |r| == |items| + 1 && r[..|items|] == items && r[|items|].name == form.name
    ensures !NameTaken(items, form.name) ==>
              r[|items|].category == (if selectedCategory != "" then selectedCategory else newCategory)
    ensures !NameTaken(items, form.name) ==>
              r[|items|] == Item(None, form.name, form.price, form.image, r[|items|].category)
  {
    if NameTaken(items, form.name) then items
    else
      var r := items + [NewItem(form, selectedCategory, newCategory)];
      assert r[..|items|] == items;
      r
  }

  /** Add keeps item names unique, and afterwards the form's name is always in the list. */
  lemma AddKeepsNamesUnique(items: seq<Item>, form: ItemForm, selectedCategory: string, newCategory: string)
    requires NoDup(Map(items, ItemName))
    ensures NoDup(Map(AddItem(items, form, selectedCategory, newCategory), ItemName))
    ensures form.name in Map(AddItem(items, form, selectedCategory, newCategory), ItemName)
  {
    var r := AddItem(items, form, selectedCategory, newCategory);
    if NameTaken(items, form.name) {
      var k :| 0 <= k < |items| && items[k].name == form.name;
      assert Map(r, ItemName)[k] == form.name;
    } else {
      assert Map(r, ItemName)[|items|] == form.name;
    }
  }

  /** The edited record: the selected item with the form's name, price and image
      and the edit form's category; every other field, `_id` included, is kept. */
  function EditedItem(selected: Item, form: ItemForm, category: string): (r: Item)
    ensures r.id == selected.id
    ensures r.name == form.name && r.price == form.price && r.image == form.image && r.category == category
  {
    selected.(name := form.name, price := form.price, image := form.image, category := category)
  }

  function ReplaceMatching(id: Option<string>, updated: Item): Item -> Item
  {
    (it: Item) => if it.id == id then updated else it
  }

  /** The list after an update: every item whose `_id` equals the selected item's
      is replaced by the updated record; all others stay, in place. */
  function UpdateItem(items: seq<Item>, selected: Item, updated: Item): (r: seq<Item>)
    ensures |r| == |items|
    ensures forall k :: 0 <= k < |items| && items[k].id == selected.id ==> r[k] == updated
    ensures forall k :: 0 <= k < |items| && items[k].id != selected.id ==> r[k] == items[k]
  {
    Map(items, ReplaceMatching(selected.id, updated))
  }

  /** Replacing by an edit of the selected item leaves the column of `_id`s as it was. */
  lemma UpdateKeepsIds(items: seq<Item>, selected: Item, form: ItemForm, category: string)
    ensures Map(UpdateItem(items, selected, EditedItem(selected, form, category)), IdOf) == Map(items, IdOf)
  {
  }

  /** When `_id`s are unique and the selected one is at position `k`, update is a single-slot write. */
  lemma UpdateChangesOneSlot(items: seq<Item>, k: nat, selected: Item, updated: Item)
    requires NoDup(Map(items, IdOf))
    requires k < |items| && items[k].id == selected.id
    ensures UpdateItem(items, selected, updated) == items[k := updated]
  {
    var r := UpdateItem(items, selected, updated);
    forall i | 0 <= i < |items| && i != k
      ensures r[i] == items[i]
    {
      assert Map(items, IdOf)[i] != Map(items, IdOf)[k];
    }
  }

  function IdDiffers(id: Option<string>): Item -> bool
  {
    (it: Item) => it.id != id
  }

  /** The list after a delete: exactly the items whose `_id` differs from the
      deleted record's, each with all its occurrences, in their original order. */
  function DeleteItem(items: seq<Item>, record: Item): (r: seq<Item>)
    ensures forall k :: 0 <= k < |r| ==> r[k].id != record.id
    ensures forall it :: multiset(r)[it] == if it.id != record.id then multiset(items)[it] else 0
    ensures IsSubseq(r, items)
  {
    FilterMultiplicity(items, IdDiffers(record.id));
    FilterIsSubseq(items, IdDiffers(record.id));
    Filter(items, IdDiffers(record.id))
  }

  /** Deleting the same record twice is the same as deleting it once. */
  lemma DeleteIdempotent(items: seq<Item>, record: Item)
    ensures DeleteItem(DeleteItem(items, record), record) == DeleteItem(items, record)
  {
    FilterKeepsAll(DeleteItem(items, record), IdDiffers(record.id));
  }
}
