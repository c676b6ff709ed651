/**
 * `StatefulList`: a fixed list of menu items with an optional selected index
 * that is moved in place. Moving up stops at the first item; moving down
 * wraps from the last item to the first.
 */
module Cursor {
  import opened Wrappers

  /** The selection is absent or indexes an item of a list of length `len`. */
  predicate InBounds(selected: Option<nat>, len: nat) {
    selected.None? || selected.value < len
  }

  /** The index `up` selects: one less, but never below 0; the first index when nothing is selected. */
  function UpIndex(selected: Option<nat>): (i: nat)
    ensures selected.None? ==> i == 0
    ensures selected == Some(0) ==> i == 0
    ensures selected.Some? && selected.value > 0 ==> i == selected.value - 1
    ensures selected.Some? ==> i <= selected.value
  {
    match selected
    case Some(i) => if i == 0 then 0 else i - 1
    case None => 0
  }

  /** The index `down` selects: one more, from the last index back to 0; the first index when nothing is selected. */
  function DownIndex(selected: Option<nat>, len: nat): (i: nat)
    requires selected.Some? ==> len > 0
    ensures selected.None? ==> i == 0
    ensures selected == Some(len - 1) ==> i == 0
    ensures selected.Some? && selected.value < len - 1 ==> i == selected.value + 1
    ensures InBounds(selected, len) && len > 0 ==> i < len
  {
    match selected
    case Some(i) => if i == len - 1 then 0 else i + 1
    case None => 0
  }

  /** The selection after `k` presses of `up`. */
  function UpTimes(selected: Option<nat>, k: nat): Option<nat>
    decreases k
  {
    if k == 0 then selected else UpTimes(Some(UpIndex(selected)), k - 1)
  }

  /** The selection after `k` presses of `down`. */
  function DownTimes(selected: Option<nat>, len: nat, k: nat): Option<nat>
    requires len > 0
    decreases k
  {
    if k == 0 then selected else DownTimes(Some(DownIndex(selected, len)), len, k - 1)
  }

  /** Pressing `up` at least `i` times from index `i` ends, and stays, at index 0: there is no wrap. */
  lemma {:induction false} UpClampsAtFirst(i: nat, k: nat)
    requires k >= i
    ensures UpTimes(Some(i), k) == Some(0)
    decreases k
  {
    if k > 0 {
      UpClampsAtFirst(if i == 0 then 0 else i - 1, k - 1);
    }
  }

  /** Below the last index, each press of `down` moves one item further. */
  lemma {:induction false} DownAdvances(i: nat, len: nat, k: nat)
    requires i + k < len
    ensures DownTimes(Some(i), len, k) == Some(i + k)
    decreases k
  {
    if k > 0 {
      DownAdvances(i + 1, len, k - 1);
    }
  }

  /** `a + b` presses are `a` presses followed by `b` presses. */
  lemma {:induction false} DownTimesAdd(selected: Option<nat>, len: nat, a: nat, b: nat)
    requires len > 0
    ensures DownTimes(selected, len, a + b) == DownTimes(DownTimes(selected, len, a), len, b)
    decreases a
  {
    if a > 0 {
      DownTimesAdd(Some(DownIndex(selected, len)), len, a - 1, b);
    }
  }

  /** Pressing `down` once per item comes back to where it started: from the last item it wraps to the first. */
  lemma {:induction false} DownFullCircle(i: nat, len: nat)
    requires i < len
    ensures DownTimes(Some(i), len, len) == Some(i)
  {
    var toLast := len - 1 - i;
    DownAdvances(i, len, toLast);
    DownTimesAdd(Some(i), len, toLast, 1);
    assert DownTimes(Some(len - 1), len, 1) == Some(0);
    DownTimesAdd(Some(i), len, toLast + 1, i);
    DownAdvances(0, len, i);
  }

  class StatefulList<T> {
    var items: seq<T>
    var selected: Option<nat>

    /** `with_items`: the given items, nothing selected. */
    constructor WithItems(items: seq<T>)
      ensures this.items == items && selected == None
    {
      this.items := items;
      selected := None;
    }

    method Up()
      modifies this`selected
      ensures selected == Some(UpIndex(old(selected)))
      ensures InBounds(old(selected), |items|) && |items| > 0 ==> InBounds(selected, |items|)
    {
      var i := match selected
        case Some(i) => if i == 0 then 0 else i - 1
        case None => 0;
      selected := Some(i);
    }

    /** With a selection, `items.len() - 1` needs a non-empty list. */
    method Down()
      requires selected.Some? ==> |items| > 0
      modifies this`selected
      ensures selected == Some(DownIndex(old(selected), |items|))
      ensures InBounds(old(selected), |items|) && |items| > 0 ==> InBounds(selected, |items|)
    {
      var i := match selected
        case Some(i) => if i == |items| - 1 then 0 else i + 1
        case None => 0;
      selected := Some(i);
    }

    method Select(index: nat)
      modifies this`selected
      ensures selected == Some(index)
    {
      selected := Some(index);
    }

    method Unselect()
      modifies this`selected
      ensures selected == None
    {
      selected := None;
    }
  }
}
