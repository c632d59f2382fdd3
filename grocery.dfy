/**
 * The grocery list screen: a list of checkable items seeded from the
 * navigation payload, a text input for new items, toggling and deleting by
 * position, the checked/total progress, and the plain-text form of the list
 * that the share button sends.
 */
module Grocery {
  import opened Wrappers
  import opened Text
  import opened Sequences
  import opened Checklist

  /** The payload item with its `name` and `amount` copied and `checked` forced to false. */
  function Fresh(item: Item): Item {
    Item(item.name, item.amount, false)
  }

  /** `items.map(item => ({ name: item.name, amount: item.amount, checked: false }))` */
  function SeedItems(payload: seq<Item>): (r: seq<Item>)
    ensures |r| == |payload|
    ensures forall k :: 0 <= k < |r| ==>
      r[k].name == payload[k].name && r[k].amount == payload[k].amount && !r[k].checked
  {
    if payload == [] then [] else [Fresh(payload[0])] + SeedItems(payload[1..])
  }

  /** The initial list: the payload's items, unchecked, or the empty list when there is no payload. */
  function Seed(payload: Option<seq<Item>>): (r: seq<Item>)
    ensures payload.None? ==> r == []
    ensures payload.Some? ==> |r| == |payload.value|
    ensures payload.Some? ==> forall k :: 0 <= k < |r| ==>
      r[k] == Item(payload.value[k].name, payload.value[k].amount, false)
  {
    SeedItems(payload.GetOr([]))
  }

  /** Seeding from items that are already unchecked gives back exactly those items. */
  lemma SeedUncheckedIsIdentity(payload: seq<Item>)
    requires forall k :: 0 <= k < |payload| ==> !payload[k].checked
    ensures Seed(Some(payload)) == payload
  {
  }

  /**
   * The list after the add button: a blank input leaves it as it is; any other
   * input is trimmed and appended as an unchecked item without an amount.
   */
  function WithItemAdded(items: seq<Item>, input: string): (r: seq<Item>)
    ensures IsBlank(input) ==> r == items
    ensures !IsBlank(input) ==> |r| == |items| + 1 && r[..|items|] == items
    ensures !IsBlank(input) ==> r[|items|] == Item(Trim(input), None, false)
  {
    if IsBlank(input) then items else items + [Item(Trim(input), None, false)]
  }

  /** An added item's name is never empty and never starts or ends with whitespace. */
  lemma AddedNameIsClean(items: seq<Item>, input: string)
    requires !IsBlank(input)
    ensures var name := WithItemAdded(items, input)[|items|].name;
      name != [] && IsTrimmed(name) && Trim(name) == name
  {
  }

  /** `'✓'` for a checked item, `'○'` for an unchecked one. */
  function Mark(checked: bool): (c: char)
    ensures c == '\U{2713}' <==> checked
    ensures c == '\U{2713}' || c == '\U{25CB}'
  {
    if checked then '\U{2713}' else '\U{25CB}'
  }

  /** The `amount ? ... : ''` test: an amount is shown when present and not the empty string. */
  predicate ShowsAmount(amount: Option<string>) {
    amount.Some? && amount.value != ""
  }

  /** One line of the shared text: the mark, a space, the name, and ` - <amount>` when shown. */
  function ShareLine(item: Item): (r: string)
    ensures |r| >= 2 + |item.name|
    ensures r[0] == Mark(item.checked) && r[1] == ' '
    ensures r[2..2 + |item.name|] == item.name
  {
    [Mark(item.checked), ' '] + item.name + (if ShowsAmount(item.amount) then " - " + item.amount.value else "")
  }

  function ShareLines(items: seq<Item>): (r: seq<string>)
    ensures |r| == |items|
    ensures forall k :: 0 <= k < |items| ==> r[k] == ShareLine(items[k])
  {
    if items == [] then [] else [ShareLine(items[0])] + ShareLines(items[1..])
  }

  /** The text handed to the share or clipboard sink: one line per item, joined by newlines. */
  function ShareText(items: seq<Item>): (r: string)
    ensures items == [] ==> r == ""
    ensures items != [] ==> |ShareLine(items[0])| <= |r| && r[..|ShareLine(items[0])|] == ShareLine(items[0])
    ensures items != [] ==> 2 <= |r| && r[0] == Mark(items[0].checked)
    ensures |items| >= 2 ==> |ShareLine(items[0])| < |r| && r[|ShareLine(items[0])|] == '\n'
  {
    Join(ShareLines(items), '\n')
  }

  /** The line format, spelled out: where the mark, the name and the amount sit in a line. */
  lemma ShareLineFormat(item: Item)
    ensures var line := ShareLine(item);
      && |line| == 2 + |item.name| + (if ShowsAmount(item.amount) then 3 + |item.amount.value| else 0)
      && (line[0] == '\U{2713}' <==> item.checked)
      && (line[0] == '\U{25CB}' <==> !item.checked)
      && line[1] == ' '
      && line[2..2 + |item.name|] == item.name
      && (ShowsAmount(item.amount) ==> line[2 + |item.name|..] == " - " + item.amount.value)
  {
  }

  predicate NoNewline(item: Item) {
    '\n' !in item.name && (item.amount.Some? ==> '\n' !in item.amount.value)
  }

  /**
   * Splitting the shared text at its newlines recovers one line per item, in
   * list order, and the mark that starts line `k` is the checked state of
   * item `k`; there is no trailing newline, and an empty list shares `""`.
   */
  lemma {:induction false} ShareTextLines(items: seq<Item>)
    requires forall k :: 0 <= k < |items| ==> NoNewline(items[k])
    ensures items == [] ==> ShareText(items) == ""
    ensures items != [] ==> Split(ShareText(items), '\n') == ShareLines(items)
    ensures items != [] ==> forall k :: 0 <= k < |items| ==>
      (Split(ShareText(items), '\n')[k][0] == '\U{2713}' <==> items[k].checked)
  {
    if items != [] {
      var lines := ShareLines(items);
      forall k | 0 <= k < |lines| ensures '\n' !in lines[k] {
        var item := items[k];
        var tail := if ShowsAmount(item.amount) then " - " + item.amount.value else "";
        assert lines[k] == [Mark(item.checked), ' '] + item.name + tail;
      }
      SplitJoin(lines, '\n');
    }
  }

  /** The sample list `Milk 1L` (checked) and `Eggs` (no amount) shares as two lines. */
  lemma ShareTextSample()
    ensures ShareText([Item("Milk", Some("1L"), true), Item("Eggs", None, false)])
         == "\U{2713} Milk - 1L\n\U{25CB} Eggs"
  {
    var milk, eggs := Item("Milk", Some("1L"), true), Item("Eggs", None, false);
    assert ShareLine(milk) == "\U{2713} Milk - 1L";
    assert ShareLine(eggs) == "\U{25CB} Eggs";
    assert ShareLines([milk, eggs]) == [ShareLine(milk), ShareLine(eggs)];
  }

  /**
   * The width of the progress bar, in percent: `checked / total * 100`, and 0
   * for an empty list instead of a division by zero.
   */
  function ProgressPercent(items: seq<Item>): (p: real)
    ensures 0.0 <= p <= 100.0
    ensures items == [] ==> p == 0.0
    ensures p == 0.0 <==> CheckedCount(items) == 0
    ensures p == 100.0 <==> items != [] && CheckedCount(items) == |items|
  {
    var checked, total := CheckedCount(items), |items|;
    if total > 0 then
      ProgressRatioBounds(checked, total);
      (checked as real / total as real) * 100.0
    else 0.0
  }

  lemma ProgressRatioBounds(checked: nat, total: nat)
    requires 0 < total && checked <= total
    ensures 0.0 <= checked as real / total as real <= 1.0
    ensures checked as real / total as real == 0.0 <==> checked == 0
    ensures checked as real / total as real == 1.0 <==> checked == total
  {
    var q := checked as real / total as real;
    assert q * total as real == checked as real;
  }

  /** The grocery list screen's state: the list and the text of the new-item input. */
  class GroceryListScreen {
    var items: seq<Item>
    var newItem: string

    /** Mounting the screen seeds the list from the payload and clears the input. */
    constructor (payload: Option<seq<Item>>)
      ensures items == Seed(payload)
      ensures newItem == ""
    {
      items := Seed(payload);
      newItem := "";
    }

    /** The input's change handler. */
    method SetNewItem(text: string)
      modifies this`newItem
      ensures newItem == text
    {
      newItem := text;
    }

    /** The add button and the Enter key: append the trimmed input, then clear it. */
    method AddItem()
      modifies this
      ensures items == WithItemAdded(old(items), old(newItem))
      ensures newItem == if IsBlank(old(newItem)) then old(newItem) else ""
    {
      if !IsBlank(newItem) {
        items := items + [Item(Trim(newItem), None, false)];
        newItem := "";
      }
    }

    /** The checkbox of the item at `index`. */
    method ToggleItem(index: int)
      modifies this`items
      ensures items == ToggleAt(old(items), index)
    {
      items := ToggleAt(items, index);
    }

    /** The trash button of the item at `index`. */
    method DeleteItem(index: int)
      modifies this`items
      ensures items == RemoveAt(old(items), index)
    {
      items := RemoveAt(items, index);
    }

    /** The share button: the text it sends to the share or clipboard sink. */
    method ShareList() returns (text: string)
      ensures text == ShareText(items)
    {
      text := Join(ShareLines(items), '\n');
    }

    /** `checkedCount` and `totalCount` as the progress banner shows them. */
    method Progress() returns (checkedCount: nat, totalCount: nat)
      ensures checkedCount == CheckedCount(items) && totalCount == |items|
      ensures checkedCount <= totalCount
    {
      checkedCount, totalCount := CheckedCount(items), |items|;
    }
  }
}
