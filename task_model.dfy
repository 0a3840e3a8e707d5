/**
 * The task items that ListView edits, and the array operations it uses
 * on them: `firstIndex(where:)`, `insert(_:at:)` and `remove(at:)`.
 */
module TaskModel {
  import opened Optional

  /** Stands for the UUID an item receives when it is created. */
  type Id = nat

  datatype Item = Item(id: Id, title: string, isCompleted: bool)

  /** No two items share an id. */
  predicate IdsDistinct(items: seq<Item>) {
    forall i, j :: 0 <= i < j < |items| ==> items[i].id != items[j].id
  }

  /** No item has the id `id`. */
  predicate IdFresh(items: seq<Item>, id: Id) {
    forall i :: 0 <= i < |items| ==> items[i].id != id
  }

  /** `items.firstIndex(where: { $0.id == id })`. */
  function FirstIndexOf(items: seq<Item>, id: Id): (r: Option<nat>)
    ensures r.Some? ==> r.value < |items| && items[r.value].id == id
    ensures r.Some? ==> forall j :: 0 <= j < r.value ==> items[j].id != id
    ensures r.None? <==> IdFresh(items, id)
    decreases |items|
  {
    if items == [] then None
    else if items[0].id == id then Some(0)
    else match FirstIndexOf(items[1..], id)
      case None => None
      case Some(k) => Some(k + 1)
  }

  /** `items.insert(x, at: idx)`: `x` lands at `idx`, and what was there onwards moves back by one. */
  function InsertAt(items: seq<Item>, x: Item, idx: nat): (r: seq<Item>)
    requires idx <= |items|
    ensures |r| == |items| + 1
    ensures r[idx] == x
    ensures r[..idx] == items[..idx]
    ensures r[idx + 1..] == items[idx..]
    ensures multiset(r) == multiset(items) + multiset{x}
  {
    assert items == items[..idx] + items[idx..];
    items[..idx] + [x] + items[idx..]
  }

  /** `items.remove(at: idx)`: the element at `idx` goes, the rest keep their order. */
  function RemoveAt(items: seq<Item>, idx: nat): (r: seq<Item>)
    requires idx < |items|
    ensures |r| == |items| - 1
    ensures r[..idx] == items[..idx]
    ensures r[idx..] == items[idx + 1..]
    ensures multiset(r) + multiset{items[idx]} == multiset(items)
  {
    assert items == items[..idx] + [items[idx]] + items[idx + 1..];
    items[..idx] + items[idx + 1..]
  }

  /** The copy that `duplicateTask` makes of `item`: a new id, the same title and completion flag. */
  function CopyOf(item: Item, newId: Id): (r: Item)
    ensures r.id == newId && r.title == item.title && r.isCompleted == item.isCompleted
    ensures newId != item.id ==> r != item
  {
    Item(newId, item.title, item.isCompleted)
  }

  /**
   * The list after duplicating `item`: a copy goes in at the position of the
   * first item with `item`'s id, which moves back by one; with no such item
   * the list is unchanged.
   */
  function Duplicated(items: seq<Item>, item: Item, newId: Id): (r: seq<Item>)
    ensures FirstIndexOf(items, item.id).None? ==> r == items
    ensures FirstIndexOf(items, item.id).Some? ==>
      var idx := FirstIndexOf(items, item.id).value;
      && |r| == |items| + 1
      && r[idx] == CopyOf(item, newId)
      && r[..idx] == items[..idx]
      && r[idx + 1..] == items[idx..]
  {
    match FirstIndexOf(items, item.id)
    case None => items
    case Some(idx) => InsertAt(items, CopyOf(item, newId), idx)
  }

  /**
   * The list after deleting the item with id `id`: the first such item goes
   * and the others keep their order; with no such item the list is unchanged.
   */
  function Deleted(items: seq<Item>, id: Id): (r: seq<Item>)
    ensures r == items <==> IdFresh(items, id)
    ensures FirstIndexOf(items, id).Some? ==>
      var idx := FirstIndexOf(items, id).value;
      && |r| == |items| - 1
      && r[..idx] == items[..idx]
      && r[idx..] == items[idx + 1..]
      && multiset(r) + multiset{items[idx]} == multiset(items)
  {
    match FirstIndexOf(items, id)
    case None => items
    case Some(idx) => RemoveAt(items, idx)
  }

  /** Inserting an item with a fresh id keeps ids distinct. */
  lemma InsertFreshKeepsIdsDistinct(items: seq<Item>, x: Item, idx: nat)
    requires idx <= |items|
    requires IdsDistinct(items) && IdFresh(items, x.id)
    ensures IdsDistinct(InsertAt(items, x, idx))
  {
    var r := InsertAt(items, x, idx);
    forall i, j | 0 <= i < j < |r| ensures r[i].id != r[j].id {
      var i' := if i < idx then i else i - 1;
      var j' := if j <= idx then j else j - 1;
      if i == idx {
        assert r[j] == items[j'];
      } else if j == idx {
        assert r[i] == items[i'];
      } else {
        assert r[i] == items[i'] && r[j] == items[j'] && i' < j';
      }
    }
  }

  /** Removing an item keeps ids distinct. */
  lemma RemoveKeepsIdsDistinct(items: seq<Item>, idx: nat)
    requires idx < |items|
    requires IdsDistinct(items)
    ensures IdsDistinct(RemoveAt(items, idx))
  {
    var r := RemoveAt(items, idx);
    forall i, j | 0 <= i < j < |r| ensures r[i].id != r[j].id {
      var i' := if i < idx then i else i + 1;
      var j' := if j < idx then j else j + 1;
      assert r[i] == items[i'] && r[j] == items[j'] && i' < j';
    }
  }

  /** Duplicating with a fresh id keeps ids distinct. */
  lemma DuplicateKeepsIdsDistinct(items: seq<Item>, item: Item, newId: Id)
    requires IdsDistinct(items) && IdFresh(items, newId)
    ensures IdsDistinct(Duplicated(items, item, newId))
  {
    match FirstIndexOf(items, item.id)
    case None =>
    case Some(idx) => InsertFreshKeepsIdsDistinct(items, CopyOf(item, newId), idx);
  }

  /** Deleting keeps ids distinct, and afterwards no item has the deleted id. */
  lemma DeleteKeepsIdsDistinct(items: seq<Item>, id: Id)
    requires IdsDistinct(items)
    ensures IdsDistinct(Deleted(items, id))
    ensures IdFresh(Deleted(items, id), id)
  {
    match FirstIndexOf(items, id)
    case None =>
    case Some(idx) =>
      RemoveKeepsIdsDistinct(items, idx);
      var r := Deleted(items, id);
      forall i | 0 <= i < |r| ensures r[i].id != id {
        if i < idx {
          assert r[i] == items[i];
        } else {
          assert r[i] == items[i + 1];
        }
      }
  }

  /** Deleting the copy that a duplicate made gives back the list as it was. */
  lemma DeleteUndoesDuplicate(items: seq<Item>, item: Item, newId: Id)
    requires IdFresh(items, newId)
    ensures Deleted(Duplicated(items, item, newId), newId) == items
  {
    match FirstIndexOf(items, item.id)
    case None =>
    case Some(idx) =>
      var d := Duplicated(items, item, newId);
      assert d[idx].id == newId;
      assert forall j :: 0 <= j < idx ==> d[j] == items[j];
      assert FirstIndexOf(d, newId) == Some(idx);
      assert d[..idx] + d[idx + 1..] == items;
  }

  /**
   * Stand-in for the view model the list view edits: the items, and a log of
   * the snapshots its `saveItems` has persisted, oldest first.
   */
  class ListViewModel {
    var items: seq<Item>
    ghost var saved: seq<seq<Item>>

    constructor (items: seq<Item>)
      ensures this.items == items && saved == []
    {
      this.items := items;
      saved := [];
    }

    /** Persists the current items. */
    method SaveItems()
      modifies this
      ensures items == old(items)
      ensures saved == old(saved) + [items]
    {
      saved := saved + [items];
    }
  }
}
