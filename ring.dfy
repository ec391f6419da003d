/** The view both replay memories share once they are full: read the list starting at the
    write cursor and wrapping around, and the items come out oldest first. */
module Ring {
  import PyArith

  /** The slots read from `cursor` to the end, then from the start up to `cursor`. */
  function FromCursor<T>(slots: seq<T>, cursor: int): (r: seq<T>)
    requires 0 <= cursor <= |slots|
    ensures |r| == |slots|
  {
    slots[cursor..] + slots[..cursor]
  }

  /** Overwriting the slot under the cursor and advancing the cursor (wrapping at the end)
      drops the oldest item of the ring and adds `x` as the newest. */
  lemma OverwriteAdvances<T>(slots: seq<T>, cursor: int, x: T)
    requires 0 <= cursor < |slots|
    ensures var next := if cursor + 1 == |slots| then 0 else cursor + 1;
            FromCursor(slots[cursor := x], next) == FromCursor(slots, cursor)[1..] + [x]
  {
    var written := slots[cursor := x];
    assert FromCursor(slots, cursor)[1..] == slots[cursor + 1..] + slots[..cursor];
    if cursor + 1 == |slots| {
      assert written == slots[..cursor] + [x];
      assert FromCursor(written, 0) == written;
    } else {
      assert written[cursor + 1..] == slots[cursor + 1..];
      assert written[..cursor + 1] == slots[..cursor] + [x];
    }
  }

  /** When the ring read from cursor `|items| % capacity` is the last `capacity` items, item `j`
      of those is in slot `j % capacity`. */
  lemma SlotOfPush<T>(slots: seq<T>, capacity: int, items: seq<T>, j: int)
    requires 0 < capacity == |slots| <= |items|
    requires FromCursor(slots, |items| % capacity) == items[|items| - capacity..]
    requires |items| - capacity <= j < |items|
    ensures slots[j % capacity] == items[j]
  {
    var n := |items|;
    var p, q := n % capacity, n / capacity;
    var k := j - (n - capacity);
    assert FromCursor(slots, p)[k] == items[j];
    if p + k < capacity {
      PyArith.ModUnique(j, capacity, q - 1, p + k);
      assert FromCursor(slots, p)[k] == slots[p + k];
    } else {
      PyArith.ModUnique(j, capacity, q, p + k - capacity);
      assert FromCursor(slots, p)[k] == slots[p + k - capacity];
    }
  }
}
