/**
 * The checkable item list shared by the grocery list and the recipe
 * ingredient checklist: `{ name, amount?, checked }` records, identified by
 * their position in the list.
 */
module Checklist {
  import opened Wrappers

  datatype Item = Item(name: string, amount: Option<string>, checked: bool)

  /** `{ ...item, checked: !item.checked }` */
  function Flip(item: Item): (r: Item)
    ensures r.checked != item.checked
    ensures r.name == item.name && r.amount == item.amount
  {
    item.(checked := !item.checked)
  }

  /**
   * `items.map((item, i) => i === index ? flip(item) : item)`: the item at
   * `index` is flipped, every other item is kept; an index outside the list
   * matches nothing.
   */
  function ToggleAt(items: seq<Item>, index: int): (r: seq<Item>)
    ensures |r| == |items|
    ensures forall k :: 0 <= k < |items| ==> r[k] == if k == index then Flip(items[k]) else items[k]
  {
    if items == [] then []
    else [if index == 0 then Flip(items[0]) else items[0]] + ToggleAt(items[1..], index - 1)
  }

  /** Toggling the same position twice restores the list. */
  lemma ToggleTwice(items: seq<Item>, index: int)
    ensures ToggleAt(ToggleAt(items, index), index) == items
  {
  }

  /** `items.filter(item => item.checked).length` */
  function CheckedCount(items: seq<Item>): (n: nat)
    ensures n <= |items|
    ensures n == 0 <==> forall k :: 0 <= k < |items| ==> !items[k].checked
    ensures n == |items| <==> forall k :: 0 <= k < |items| ==> items[k].checked
  {
    if items == [] then 0
    else (if items[0].checked then 1 else 0) + CheckedCount(items[1..])
  }

  /** `items.filter(item => !item.checked)`: the unchecked items, in their original order. */
  function Unchecked(items: seq<Item>): (r: seq<Item>)
    ensures |r| <= |items|
    ensures forall k :: 0 <= k < |r| ==> !r[k].checked
    ensures forall x :: x in r <==> x in items && !x.checked
  {
    if items == [] then []
    else (if items[0].checked then [] else [items[0]]) + Unchecked(items[1..])
  }

  /** The filter distributes over concatenation, so it never reorders what it keeps. */
  lemma {:induction false} UncheckedAppend(xs: seq<Item>, ys: seq<Item>)
    ensures Unchecked(xs + ys) == Unchecked(xs) + Unchecked(ys)
  {
    if xs == [] {
      assert xs + ys == ys;
    } else {
      assert (xs + ys)[1..] == xs[1..] + ys;
      UncheckedAppend(xs[1..], ys);
    }
  }

  /** A list with nothing checked passes the filter whole. */
  lemma {:induction false} UncheckedOfUnchecked(items: seq<Item>)
    requires forall k :: 0 <= k < |items| ==> !items[k].checked
    ensures Unchecked(items) == items
  {
    if items != [] {
      UncheckedOfUnchecked(items[1..]);
    }
  }

  /** Every item is counted as checked or kept by the unchecked filter, never both. */
  lemma {:induction false} CheckedAndUncheckedPartition(items: seq<Item>)
    ensures CheckedCount(items) + |Unchecked(items)| == |items|
  {
    if items != [] {
      CheckedAndUncheckedPartition(items[1..]);
    }
  }

  /** Toggling one item moves the checked count by exactly one, and never cascades. */
  lemma {:induction false} ToggleMovesCountByOne(items: seq<Item>, index: int)
    requires 0 <= index < |items|
    ensures CheckedCount(ToggleAt(items, index))
         == if items[index].checked then CheckedCount(items) - 1 else CheckedCount(items) + 1
  {
    var r := ToggleAt(items, index);
    var rest := ToggleAt(items[1..], index - 1);
    assert r == [if index == 0 then Flip(items[0]) else items[0]] + rest;
    assert r[1..] == rest;
    if index == 0 {
      assert rest == items[1..];
    } else {
      ToggleMovesCountByOne(items[1..], index - 1);
    }
  }
}
