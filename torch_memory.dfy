/** The replay memory of the PyTorch engine (src/rl/blocks/engine/torch/memory/engine.py): a list of
    memories bounded by a capacity, with a write cursor `position` that is used only once the list
    is full and `push` is called with `overwrite = True`. `pop` removes from the end (a stack).

    The object's fields are set by the factory from caller-supplied values and are never checked,
    so every operation is modelled on every state, with Python's negative indexing and floor
    modulo; `Valid` is the invariant that a well-formed construction establishes and every
    operation keeps. */
module TorchMemory {
  import opened Wrappers
  import opened PyArith
  import Ring
  import Sampling

  /** The `ValueError`s that ReplayMemory returns. */
  datatype MemoryError =
    | OverwriteFailed(position: int)  // writing slot `position`, or advancing the cursor, raised
    | OutOfMemory(overwrite: bool)    // the list is full and overwrite is off
    | EmptyPop                        // pop on a zero-length memory
    | SampleFailed                    // random.sample rejected the batch size

  /** The three fields of a ReplayMemory. */
  datatype Buffer<T> = Buffer(memories: seq<T>, capacity: int, position: int)

  /** The object invariant: the list fits and the cursor names a slot (or is 0 for capacity 0). */
  predicate Valid<T>(b: Buffer<T>) {
    && |b.memories| <= b.capacity
    && 0 <= b.position
    && (b.position < b.capacity || b.position == 0)
  }

  /** One `push(memory, overwrite = overwrite)`: the new fields and the returned value. A bare
      `except:` guards both the slot write and the cursor update, so with capacity 0 the slot is
      already written when the modulo raises. Push never changes the capacity, grows the list
      by one exactly when there is room, and a failure changes nothing except in that case. */
  function PushStep<T>(b: Buffer<T>, memory: T, overwrite: bool): (r: (Buffer<T>, Result<(), MemoryError>))
    ensures r.0.capacity == b.capacity
    ensures |r.0.memories| == if |b.memories| < b.capacity then |b.memories| + 1 else |b.memories|
    ensures r.1.Err? && b.capacity != 0 ==> r.0 == b
  {
    var m, p := b.memories, b.position;
    if |m| < b.capacity then (b.(memories := m + [memory]), Ok(()))
    else if !overwrite then (b, Err(OutOfMemory(overwrite)))
    else if !IndexOk(p, |m|) then (b, Err(OverwriteFailed(p)))
    else
      var written := b.(memories := m[Slot(p, |m|) := memory]);
      if b.capacity == 0 then (written, Err(OverwriteFailed(p)))
      else (written.(position := PyMod(p + 1, b.capacity)), Ok(()))
  }

  /** One `pop()`: the last memory comes off the list and the cursor steps back, wrapping from 0
      to the last slot of the old list. */
  function PopStep<T>(b: Buffer<T>): (r: (Buffer<T>, Result<T, MemoryError>))
    ensures r.1.Ok? <==> |b.memories| > 0
    ensures r.1.Ok? ==> r.0.memories + [r.1.value] == b.memories && r.0.capacity == b.capacity
    ensures r.1.Err? ==> r.0 == b && r.1.error == EmptyPop
  {
    var size, p := |b.memories|, b.position;
    if size > 0 then
      (b.(memories := b.memories[..size - 1], position := if p == 0 then size - 1 else p - 1),
       Ok(b.memories[size - 1]))
    else (b, Err(EmptyPop))
  }

  /** While there is room, push appends at the end and leaves the cursor alone. */
  lemma PushWithRoom<T>(b: Buffer<T>, memory: T, overwrite: bool)
    requires |b.memories| < b.capacity
    ensures PushStep(b, memory, overwrite) == (b.(memories := b.memories + [memory]), Ok(()))
  {
  }

  /** On a full memory without overwrite, push fails and changes nothing. */
  lemma PushFullRefused<T>(b: Buffer<T>, memory: T)
    requires |b.memories| >= b.capacity
    ensures PushStep(b, memory, false) == (b, Err(OutOfMemory(false)))
  {
  }

  /** On a full, valid memory with overwrite, push replaces exactly the slot under the cursor,
      keeps the length, and advances the cursor modulo the capacity. */
  lemma PushOverwrites<T>(b: Buffer<T>, memory: T)
    requires Valid(b) && |b.memories| == b.capacity > 0
    ensures var (b', r) := PushStep(b, memory, true);
            && r == Ok(())
            && b'.memories == b.memories[b.position := memory]
            && |b'.memories| == |b.memories|
            && b'.position == (b.position + 1) % b.capacity
            && b'.capacity == b.capacity
  {
  }

  /** Under the invariant, push succeeds exactly when there is room or overwriting is allowed on
      a non-zero capacity; the failed-overwrite error can only come from capacity 0. */
  lemma PushOutcome<T>(b: Buffer<T>, memory: T, overwrite: bool)
    requires Valid(b)
    ensures PushStep(b, memory, overwrite).1.Ok? <==> |b.memories| < b.capacity || (overwrite && b.capacity > 0)
    ensures PushStep(b, memory, overwrite).1 == Err(OverwriteFailed(b.position)) ==> b.capacity == 0
  {
  }

  /** Pop moves the cursor back by one, or to the last slot of the old list when it was at 0. */
  lemma PopCursor<T>(b: Buffer<T>)
    requires |b.memories| > 0
    ensures PopStep(b).0.position == if b.position == 0 then |b.memories| - 1 else b.position - 1
  {
  }

  /** Every push and every pop keeps the invariant. */
  lemma StepsPreserveValid<T>(b: Buffer<T>, memory: T, overwrite: bool)
    requires Valid(b)
    ensures Valid(PushStep(b, memory, overwrite).0)
    ensures Valid(PopStep(b).0)
  {
  }

  /** However the cursor is set, push (with either flag) and pop never let the list outgrow the
      capacity. */
  lemma StepsKeepFit<T>(b: Buffer<T>, memory: T, overwrite: bool)
    requires |b.memories| <= b.capacity
    ensures var b' := PushStep(b, memory, overwrite).0;
            |b'.memories| <= b'.capacity == b.capacity
    ensures var b' := PopStep(b).0;
            |b'.memories| <= b'.capacity == b.capacity
  {
  }

  /** A push into free room followed by a pop returns the pushed memory and restores the list. */
  lemma PushThenPop<T>(b: Buffer<T>, memory: T, overwrite: bool)
    requires |b.memories| < b.capacity
    ensures var (b', r) := PopStep(PushStep(b, memory, overwrite).0);
            r == Ok(memory) && b'.memories == b.memories
  {
    var pushed := PushStep(b, memory, overwrite).0;
    assert pushed.memories == b.memories + [memory];
    assert pushed.memories[..|pushed.memories| - 1] == b.memories;
  }

  /** The memories that popping until failure returns, in the order returned. */
  function Drain<T>(b: Buffer<T>): seq<T>
    decreases |b.memories|
  {
    var (b', r) := PopStep(b);
    if r.Ok? then [r.value] + Drain(b') else []
  }

  /** `s` back to front. */
  function Reversed<T>(s: seq<T>): (r: seq<T>)
    ensures |r| == |s|
  {
    if s == [] then [] else [s[|s| - 1]] + Reversed(s[..|s| - 1])
  }

  /** Pop is last-in first-out: popping everything returns the list back to front. */
  lemma {:induction false} DrainIsReversed<T>(b: Buffer<T>)
    ensures Drain(b) == Reversed(b.memories)
    decreases |b.memories|
  {
    var (b', r) := PopStep(b);
    if r.Ok? {
      DrainIsReversed(b');
      assert b'.memories == b.memories[..|b.memories| - 1];
    }
  }

  /** The state after pushing `items` in order, all with the same `overwrite` flag. */
  function PushAll<T>(b: Buffer<T>, items: seq<T>, overwrite: bool): Buffer<T>
    decreases |items|
  {
    if items == [] then b
    else PushStep(PushAll(b, items[..|items| - 1], overwrite), items[|items| - 1], overwrite).0
  }

  /** After pushing `items` with overwrite into an empty memory of `capacity` whose cursor starts
      at 0: while not full, the list is the pushes in order with the cursor still at 0; once full,
      reading the ring from the cursor gives the last `capacity` pushes, oldest first, and the
      cursor is the number of pushes modulo the capacity. */
  ghost predicate OldestFirst<T>(b: Buffer<T>, capacity: int, items: seq<T>) {
    && b.capacity == capacity
    && (|items| <= capacity ==> b.memories == items && b.position == 0)
    && (|items| >= capacity ==>
          && 0 < capacity && |b.memories| == capacity && b.position == |items| % capacity
          && Ring.FromCursor(b.memories, b.position) == items[|items| - capacity..])
  }

  /** One more push with overwrite keeps `OldestFirst`. */
  lemma OldestFirstStep<T>(b: Buffer<T>, capacity: int, items: seq<T>, x: T)
    requires capacity > 0 && OldestFirst(b, capacity, items)
    ensures OldestFirst(PushStep(b, x, true).0, capacity, items + [x])
  {
    if |items| < capacity {
      FillStep(b, capacity, items, x);
    } else {
      RingStep(b, capacity, items, x);
    }
  }

  /** A push into the free room of a memory that is still filling. */
  lemma FillStep<T>(b: Buffer<T>, capacity: int, items: seq<T>, x: T)
    requires |items| < capacity && OldestFirst(b, capacity, items)
    ensures OldestFirst(PushStep(b, x, true).0, capacity, items + [x])
  {
    var after := PushStep(b, x, true).0;
    assert after == Buffer(items + [x], capacity, 0);
    if |items| + 1 == capacity {
      assert capacity % capacity == 0;
      assert (items + [x])[0..] == items + [x];
    }
  }

  /** A push with overwrite into a full memory. */
  lemma RingStep<T>(b: Buffer<T>, capacity: int, items: seq<T>, x: T)
    requires capacity <= |items| && OldestFirst(b, capacity, items)
    ensures OldestFirst(PushStep(b, x, true).0, capacity, items + [x])
  {
    var p := b.position;
    var next := if p + 1 == capacity then 0 else p + 1;
    AdvanceWraps(p, capacity);
    ModStep(|items|, capacity);
    assert PushStep(b, x, true).0 == Buffer(b.memories[p := x], capacity, next);
    Ring.OverwriteAdvances(b.memories, p, x);
    var n := |items| + 1;
    assert (items + [x])[n - capacity..] == items[|items| - capacity..][1..] + [x];
  }

  /** From an empty memory with the cursor at 0, pushing with overwrite fills the list in push
      order, and from then on every overwrite evicts the oldest memory. */
  lemma {:induction false} OverwriteEvictsOldest<T>(capacity: int, items: seq<T>)
    requires capacity > 0
    ensures OldestFirst(PushAll(Buffer([], capacity, 0), items, true), capacity, items)
    decreases |items|
  {
    var n := |items|;
    if n > 0 {
      var prefix := items[..n - 1];
      OverwriteEvictsOldest(capacity, prefix);
      OldestFirstStep(PushAll(Buffer([], capacity, 0), prefix, true), capacity, prefix, items[n - 1]);
      assert prefix + [items[n - 1]] == items;
    }
  }

  /** Where each memory sits once the list is full: the `j`-th push (counting from 0) of the
      last `capacity` pushes is in slot `j % capacity`. */
  lemma OverwriteSlotsHoldLatest<T>(capacity: int, items: seq<T>)
    requires capacity > 0 && |items| >= capacity
    ensures var b := PushAll(Buffer([], capacity, 0), items, true);
            && |b.memories| == capacity
            && forall j :: |items| - capacity <= j < |items| ==> b.memories[j % capacity] == items[j]
  {
    OverwriteEvictsOldest(capacity, items);
    var b := PushAll(Buffer([], capacity, 0), items, true);
    forall j | |items| - capacity <= j < |items|
      ensures b.memories[j % capacity] == items[j]
    {
      Ring.SlotOfPush(b.memories, capacity, items, j);
    }
  }

  /** The test scenario: `[0, 1, 2, 3]` with capacity 5 and the cursor at 0; pushing 4, 5 and 6
      with overwrite appends 4, then overwrites slots 0 and 1. */
  lemma OverwriteScenario()
    ensures PushAll(Buffer([0, 1, 2, 3], 5, 0), [4, 5, 6], true) == Buffer([5, 6, 2, 3, 4], 5, 2)
  {
    var b1 := PushStep(Buffer([0, 1, 2, 3], 5, 0), 4, true).0;
    assert b1 == Buffer([0, 1, 2, 3, 4], 5, 0);
    var b2 := PushStep(b1, 5, true).0;
    assert b2 == Buffer([5, 1, 2, 3, 4], 5, 1);
    assert [4, 5, 6][..2] == [4, 5] && [4, 5][..1] == [4];
  }

  /** The test scenario: popping the full `[0, 1, 2, 3]` with the cursor at 0 returns 3 and leaves
      the cursor at 3, past the end of the shortened list. */
  lemma PopOnLastPositionScenario()
    ensures PopStep(Buffer([0, 1, 2, 3], 4, 0)) == (Buffer([0, 1, 2], 4, 3), Ok(3))
  {
    assert [0, 1, 2, 3][..3] == [0, 1, 2];
  }

  /** After a pop the cursor is left at the end of the list, so refilling and then overwriting
      replaces the item pushed last rather than the oldest one: the ring order is only kept by
      pushes. */
  lemma PopThenOverwriteEvictsNewest()
    ensures var popped := PopStep(Buffer([0, 1, 2, 3], 4, 0)).0;
            PushAll(popped, [4, 5], true) == Buffer([0, 1, 2, 5], 4, 0)
  {
    PopOnLastPositionScenario();
    var b1 := PushStep(Buffer([0, 1, 2], 4, 3), 4, true).0;
    assert b1 == Buffer([0, 1, 2, 4], 4, 3);
    AdvanceWraps(3, 4);
    assert [4, 5][..1] == [4];
  }

  /** A ReplayMemory object: the list, the capacity and the write cursor. */
  class ReplayMemory<T> {
    var memories: seq<T>
    var capacity: int
    var position: int

    /** The fields as a value. */
    function View(): Buffer<T>
      reads this
    {
      Buffer(memories, capacity, position)
    }

    /** `__init__` stores its arguments unchecked (the list is copied). */
    constructor(capacity: int, memories: seq<T>, position: int)
      ensures View() == Buffer(memories, capacity, position)
    {
      this.capacity := capacity;
      this.memories := memories;
      this.position := position;
    }

    /** `__len__`: the number of stored memories. */
    function Len(): (n: nat)
      reads this
      ensures n == |memories|
    {
      |memories|
    }

    /** `push`: append while there is room; when full, overwrite the cursor's slot if allowed. */
    method Push(memory: T, overwrite: bool) returns (r: Result<(), MemoryError>)
      modifies this
      ensures (View(), r) == PushStep(old(View()), memory, overwrite)
    {
      if |memories| < capacity {
        memories := memories + [memory];
        r := Ok(());
      } else if overwrite {
        if IndexOk(position, |memories|) {
          memories := memories[Slot(position, |memories|) := memory];
          if capacity != 0 {
            position := PyMod(position + 1, capacity);
            r := Ok(());
          } else {
            r := Err(OverwriteFailed(position));
          }
        } else {
          r := Err(OverwriteFailed(position));
        }
      } else {
        r := Err(OutOfMemory(overwrite));
      }
    }

    /** `pop`: remove and return the last memory, stepping the cursor back. */
    method Pop() returns (r: Result<T, MemoryError>)
      modifies this
      ensures (View(), r) == PopStep(old(View()))
    {
      var size, p := |memories|, position;
      if size > 0 {
        position := if p == 0 then size - 1 else p - 1;
        r := Ok(memories[size - 1]);
        memories := memories[..size - 1];
      } else {
        r := Err(EmptyPop);
      }
    }

    /** `sample_one`: some stored memory. `random.choice` on an empty list raises an
        `IndexError` that the `except ValueError` does not catch, hence the precondition. */
    method SampleOne() returns (r: Result<T, MemoryError>)
      requires |memories| > 0
      ensures r.Ok? && r.value in memories
    {
      var i :| 0 <= i < |memories|;
      r := Ok(memories[i]);
    }

    /** `sample_batch`: `size` memories from distinct slots, or an error when `random.sample`
        rejects the size (negative or larger than the list). */
    method SampleBatch(size: int) returns (r: Result<seq<T>, MemoryError>)
      ensures r.Ok? <==> 0 <= size <= |memories|
      ensures r.Ok? ==> |r.value| == size && Sampling.IsSample(r.value, memories)
      ensures r.Err? ==> r.error == SampleFailed
    {
      if 0 <= size <= |memories| {
        var batch := Sampling.Sample(memories, size);
        r := Ok(batch);
      } else {
        r := Err(SampleFailed);
      }
    }

    /** `capacity()`: the bound given at construction. */
    function Capacity(): (r: Result<int, MemoryError>)
      reads this
      ensures r == Ok(capacity)
    {
      Ok(capacity)
    }

    /** `available()`: the room left, so that room plus use is the capacity. */
    function Available(): (r: Result<int, MemoryError>)
      reads this
      ensures r.Ok? && r.value + |memories| == capacity
    {
      Ok(capacity - Len())
    }

    /** `used()`: the number of stored memories. */
    function Used(): (r: Result<int, MemoryError>)
      reads this
      ensures r.Ok? && r.value == Len()
    {
      Ok(Len())
    }

    /** `__iter__`: the memories in list order. */
    function Items(): (items: seq<T>)
      reads this
      ensures |items| == Len() && forall i :: 0 <= i < |items| ==> items[i] == memories[i]
    {
      memories
    }
  }

  /** The counters agree with each other, and under the invariant none is negative and the room
      left is zero exactly when the memory is full. */
  lemma CountersAgree<T>(m: ReplayMemory<T>)
    ensures m.Available().value + m.Used().value == m.Capacity().value
    ensures Valid(m.View()) ==> 0 <= m.Available().value && 0 <= m.Used().value <= m.Capacity().value
    ensures m.Available().value == 0 <==> m.Len() == m.capacity
  {
  }

  /** `ReplayMemoryFactory`: class methods that build a ReplayMemory from keyword arguments
      (modelled as a map from names to integers). */
  class ReplayMemoryFactory {

    /** `pop_kwarg`: the value of `key`. A missing key raises a `KeyError` that the
        `except ValueError` does not catch, hence the precondition. */
    static function PopKwarg<V>(key: string, kwargs: map<string, V>): (r: Result<V, MemoryError>)
      requires key in kwargs
      ensures r.Ok? && r.value == kwargs[key]
    {
      Ok(kwargs[key])
    }

    /** `from_sequence`: capacity from the required `capacity` argument, cursor from the optional
        `position` argument (default 0), the list copied; nothing is checked. */
    static method FromSequence<T>(sequence: seq<T>, kwargs: map<string, int>) returns (r: Result<ReplayMemory<T>, MemoryError>)
      requires "capacity" in kwargs
      ensures r.Ok? && fresh(r.value)
      ensures r.value.View() == Buffer(sequence, kwargs["capacity"], if "position" in kwargs then kwargs["position"] else 0)
    {
      var capacity := PopKwarg("capacity", kwargs).value;
      var position := if "position" in kwargs then kwargs["position"] else 0;
      var memory := new ReplayMemory(capacity, sequence, position);
      r := Ok(memory);
    }

    /** `from_iterator`: the iterator's items, in order, as the initial list. */
    static method FromIterator<T>(items: seq<T>, kwargs: map<string, int>) returns (r: Result<ReplayMemory<T>, MemoryError>)
      requires "capacity" in kwargs
      ensures r.Ok? && fresh(r.value)
      ensures r.value.View() == Buffer(items, kwargs["capacity"], if "position" in kwargs then kwargs["position"] else 0)
    {
      r := FromSequence(items, kwargs);
    }

    /** `new`: an empty memory. */
    static method New<T>(kwargs: map<string, int>) returns (r: Result<ReplayMemory<T>, MemoryError>)
      requires "capacity" in kwargs
      ensures r.Ok? && fresh(r.value)
      ensures r.value.View() == Buffer([], kwargs["capacity"], if "position" in kwargs then kwargs["position"] else 0)
    {
      r := FromSequence([], kwargs);
    }
  }

  /** The factory scenarios: `[0, 1, 2, 3]` with capacity 4 reports 4/0/4, the iterator `0, 1, 2`
      reports 4/1/3, and a new memory of capacity 4 reports 4/4/0 (capacity/available/used). */
  method FactoryCounters() returns (full: (int, int, int), partial: (int, int, int), empty: (int, int, int))
    ensures full == (4, 0, 4) && partial == (4, 1, 3) && empty == (4, 4, 0)
  {
    var t1 := ReplayMemoryFactory.FromSequence([0, 1, 2, 3], map["capacity" := 4]);
    full := (t1.value.Capacity().value, t1.value.Available().value, t1.value.Used().value);
    var t2 := ReplayMemoryFactory.FromIterator([0, 1, 2], map["capacity" := 4]);
    partial := (t2.value.Capacity().value, t2.value.Available().value, t2.value.Used().value);
    var t3 := ReplayMemoryFactory.New<int>(map["capacity" := 4]);
    empty := (t3.value.Capacity().value, t3.value.Available().value, t3.value.Used().value);
  }

  /** The push scenario: pushing 0, 1, 2, 3 into a new memory of capacity 4 all succeed, and
      iteration yields them in push order. */
  method PushInOrder() returns (results: seq<Result<(), MemoryError>>, items: seq<int>)
    ensures results == [Ok(()), Ok(()), Ok(()), Ok(())] && items == [0, 1, 2, 3]
  {
    var created := ReplayMemoryFactory.New<int>(map["capacity" := 4]);
    var memory := created.value;
    var r0 := memory.Push(0, false);
    var r1 := memory.Push(1, false);
    var r2 := memory.Push(2, false);
    var r3 := memory.Push(3, false);
    results := [r0, r1, r2, r3];
    items := memory.Items();
  }
}
