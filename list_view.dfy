/**
 * The task list screen's state logic: the navigation title, the emptiness
 * and "any completed" checks, and the duplicate and delete actions of an
 * item's context menu, which edit the view model's items in place and then
 * persist them.
 */
module TaskListView {
  import opened Optional
  import opened TaskModel

  /** Decimal digit characters only. */
  predicate IsDigits(s: string) {
    forall i :: 0 <= i < |s| ==> '0' <= s[i] <= '9'
  }

  /** The number a string of decimal digits denotes. */
  function DigitsValue(s: string): nat
    requires IsDigits(s)
    decreases |s|
  {
    if s == [] then 0
    else DigitsValue(s[..|s| - 1]) * 10 + (s[|s| - 1] as int - '0' as int)
  }

  function DigitChar(d: nat): (c: char)
    requires d < 10
    ensures '0' <= c <= '9' && c as int - '0' as int == d
  {
    ('0' as int + d) as char
  }

  /** Swift's rendering of a non-negative `Int` in an interpolation: decimal, no leading zeros. */
  function DecimalString(n: nat): (s: string)
    ensures |s| > 0 && IsDigits(s)
    ensures DigitsValue(s) == n
    ensures s[0] == '0' ==> n == 0
    ensures |s| > 1 ==> s[0] != '0'
    decreases n
  {
    if n < 10 then [DigitChar(n)]
    else
      var t := DecimalString(n / 10);
      var s := t + [DigitChar(n % 10)];
      assert s[..|s| - 1] == t;
      s
  }

  /**
   * The navigation title for a list of `count` tasks: "Tasks" when it is
   * empty, otherwise "Tasks (", then the count in decimal, then ")".
   */
  function NavigationTitle(count: nat): (t: string)
    ensures count == 0 ==> t == "Tasks"
    ensures count > 0 ==>
      && |t| > 8
      && t[..7] == "Tasks ("
      && t[|t| - 1] == ')'
      && IsDigits(t[7..|t| - 1])
      && DigitsValue(t[7..|t| - 1]) == count
      && t[7] != '0'
  {
    if count == 0 then "Tasks"
    else
      var digits := DecimalString(count);
      var t := "Tasks (" + digits + ")";
      assert t[7..|t| - 1] == digits;
      t
  }

  /** Different counts give different titles. */
  lemma TitleInjective(a: nat, b: nat)
    requires NavigationTitle(a) == NavigationTitle(b)
    ensures a == b
  {
    if a == 0 || b == 0 {
      assert |NavigationTitle(a)| == 5 || |NavigationTitle(b)| == 5;
    }
  }

  class ListView {
    const listViewModel: ListViewModel

    constructor (listViewModel: ListViewModel)
      ensures this.listViewModel == listViewModel
    {
      this.listViewModel := listViewModel;
    }

    /** The title the screen shows for the current items. */
    function Title(): (t: string)
      reads this, listViewModel
      ensures |listViewModel.items| == 0 <==> t == "Tasks"
      ensures |listViewModel.items| > 0 ==>
        && |t| > 8
        && t[..7] == "Tasks ("
        && t[|t| - 1] == ')'
        && IsDigits(t[7..|t| - 1])
        && DigitsValue(t[7..|t| - 1]) == |listViewModel.items|
        && t[7] != '0'
    {
      NavigationTitle(|listViewModel.items|)
    }

    /** Whether there are no tasks. */
    function IsEmpty(): (r: bool)
      reads this, listViewModel
      ensures r <==> |listViewModel.items| == 0
    {
      listViewModel.items == []
    }

    /** Whether some task is checked off; never on an empty list. */
    method HasAnyCompleted() returns (r: bool)
      ensures r <==> exists i :: 0 <= i < |listViewModel.items| && listViewModel.items[i].isCompleted
      ensures IsEmpty() ==> !r
    {
      if IsEmpty() {
        return false;
      }
      var items := listViewModel.items;
      for i := 0 to |items|
        invariant forall j :: 0 <= j < i ==> !items[j].isCompleted
      {
        if items[i].isCompleted {
          return true;
        }
      }
      return false;
    }

    /**
     * Inserts a copy of `item`, holding `newId`, in front of the first task
     * with `item`'s id, then saves. With no such task nothing changes and
     * nothing is saved.
     */
    method DuplicateTask(item: Item, newId: Id)
      modifies listViewModel
      ensures listViewModel.items == Duplicated(old(listViewModel.items), item, newId)
      ensures FirstIndexOf(old(listViewModel.items), item.id).None? ==>
        listViewModel.saved == old(listViewModel.saved)
      ensures FirstIndexOf(old(listViewModel.items), item.id).Some? ==>
        listViewModel.saved == old(listViewModel.saved) + [listViewModel.items]
      ensures IdsDistinct(old(listViewModel.items)) && IdFresh(old(listViewModel.items), newId) ==>
        IdsDistinct(listViewModel.items)
    {
      if IdsDistinct(listViewModel.items) && IdFresh(listViewModel.items, newId) {
        DuplicateKeepsIdsDistinct(listViewModel.items, item, newId);
      }
      var found := FirstIndexOf(listViewModel.items, item.id);
      if found.Some? {
        var idx := found.value;
        listViewModel.items := InsertAt(listViewModel.items, CopyOf(item, newId), idx);
        listViewModel.SaveItems();
      }
    }

    /**
     * Removes the first task with `item`'s id, then saves. With no such task
     * nothing changes and nothing is saved.
     */
    method DeleteTask(item: Item)
      modifies listViewModel
      ensures listViewModel.items == Deleted(old(listViewModel.items), item.id)
      ensures FirstIndexOf(old(listViewModel.items), item.id).None? ==>
        listViewModel.saved == old(listViewModel.saved)
      ensures FirstIndexOf(old(listViewModel.items), item.id).Some? ==>
        listViewModel.saved == old(listViewModel.saved) + [listViewModel.items]
      ensures IdsDistinct(old(listViewModel.items)) ==>
        IdsDistinct(listViewModel.items) && IdFresh(listViewModel.items, item.id)
    {
      if IdsDistinct(listViewModel.items) {
        DeleteKeepsIdsDistinct(listViewModel.items, item.id);
      }
      var found := FirstIndexOf(listViewModel.items, item.id);
      if found.Some? {
        var idx := found.value;
        listViewModel.items := RemoveAt(listViewModel.items, idx);
        listViewModel.SaveItems();
      }
    }
  }
}
