/**
 * The multi-select list of the file table (useBatchAction): the ids the
 * user ticked, in the order they were ticked.
 */
module BatchAction {

  /** `items.filter(i => i !== id)`. */
  function Without(items: seq<string>, id: string): (r: seq<string>)
    ensures id !in r
    ensures |r| <= |items|
    ensures forall x :: x in r ==> x in items
  {
    if items == [] then []
    else if items[0] == id then Without(items[1..], id)
    else [items[0]] + Without(items[1..], id)
  }

  /** Removing an id keeps every other id, as often as it occurred. */
  lemma {:induction false} WithoutKeepsOthers(items: seq<string>, id: string, x: string)
    requires x != id
    ensures multiset(Without(items, id))[x] == multiset(items)[x]
    ensures multiset(Without(items, id))[id] == 0
  {
    if items != [] {
      WithoutKeepsOthers(items[1..], id, x);
      assert items == [items[0]] + items[1..];
    }
  }

  /** Removing an id keeps the order of the rest: filtering distributes over concatenation. */
  lemma {:induction false} WithoutConcat(a: seq<string>, b: seq<string>, id: string)
    ensures Without(a + b, id) == Without(a, id) + Without(b, id)
  {
    if a != [] {
      assert (a + b)[1..] == a[1..] + b;
      WithoutConcat(a[1..], b, id);
    } else {
      assert a + b == b;
    }
  }

  /** Removing an id that is not selected changes nothing. */
  lemma {:induction false} WithoutAbsent(items: seq<string>, id: string)
    requires id !in items
    ensures Without(items, id) == items
  {
    if items != [] {
      WithoutAbsent(items[1..], id);
      assert items == [items[0]] + items[1..];
    }
  }

  class Selection {
    var selectedItems: seq<string>

    constructor ()
      ensures selectedItems == []
    {
      selectedItems := [];
    }

    /** `includes`: the id is selected when it occurs at least once. */
    predicate IsSelected(id: string)
      reads this
      ensures IsSelected(id) <==> multiset(selectedItems)[id] > 0
    {
      id in selectedItems
    }

    /**
     * Ticking appends the id even when it is already there; unticking
     * removes every occurrence. Either way no other id changes status.
     */
    method ToggleItem(id: string, checked: bool)
      modifies this
      ensures selectedItems == if checked then old(selectedItems) + [id] else Without(old(selectedItems), id)
      ensures IsSelected(id) == checked
      ensures forall other :: other != id ==> (IsSelected(other) <==> other in old(selectedItems))
    {
      if checked {
        selectedItems := selectedItems + [id];
      } else {
        selectedItems := Without(selectedItems, id);
        forall other | other != id
          ensures other in selectedItems <==> other in old(selectedItems)
        {
          WithoutKeepsOthers(old(selectedItems), id, other);
        }
      }
    }

    method ClearSelection()
      modifies this
      ensures selectedItems == []
      ensures forall id :: !IsSelected(id)
    {
      selectedItems := [];
    }
  }
}
