/** The older experience-replay buffer of the DQN example (src/example/experience/replay.py). Unlike
    the engine's ReplayMemory, its cursor advances on every push, appends included, so once the
    list is full each push overwrites the oldest observation. There is no pop. The capacity is
    never checked; with a capacity of 0 or less every push fails with `IndexError`. */
module ExperienceReplay {
  import opened Wrappers
  import opened PyArith
  import Ring
  import Sampling
  import TorchMemory

  /** `Observation`: a named tuple of four tensors, `X` standing for the tensor type. A batch is
      an `Observation<seq<X>>` whose fields are the stacked fields of the sampled observations. */
  datatype Observation<X> = Observation(state: X, action: X, nextState: X, reward: X)

  /** `ReplayMemoryError`. */
  datatype ReplayMemoryError = SampleSizeTooLarge | IndexError

  /** The three fields of a ReplayMemory. */
  datatype Buffer<T> = Buffer(memory: seq<T>, capacity: int, position: int)

  /** What the constructor establishes and every push keeps: with a positive capacity the list
      fits and the cursor names a slot; otherwise nothing is ever stored. */
  predicate Valid<T>(b: Buffer<T>) {
    && 0 <= b.position
    && (b.capacity > 0 ==> |b.memory| <= b.capacity && b.position < b.capacity)
    && (b.capacity <= 0 ==> b.memory == [] && b.position == 0)
  }

  /** One `push(observation)`: append while there is room, else overwrite the cursor's slot (a
      failed slot write returns `IndexError` before the cursor moves); then advance the cursor
      modulo the capacity. */
  function PushStep<T>(b: Buffer<T>, x: T): (r: (Buffer<T>, Result<(), ReplayMemoryError>))
    requires Valid(b)
    ensures r.0.capacity == b.capacity
    ensures |r.0.memory| == if |b.memory| < b.capacity then |b.memory| + 1 else |b.memory|
    ensures r.1.Err? ==> r.0 == b
  {
    if |b.memory| < b.capacity then
      (b.(memory := b.memory + [x], position := PyMod(b.position + 1, b.capacity)), Ok(()))
    else if !IndexOk(b.position, |b.memory|) then (b, Err(IndexError))
    else
      (b.(memory := b.memory[Slot(b.position, |b.memory|) := x], position := PyMod(b.position + 1, b.capacity)), Ok(()))
  }

  /** The `IndexError` branch is reachable only with a capacity of 0 or less, and then nothing
      changes; with a positive capacity every push succeeds. */
  lemma PushOutcome<T>(b: Buffer<T>, x: T)
    requires Valid(b)
    ensures PushStep(b, x).1.Err? <==> b.capacity <= 0
    ensures PushStep(b, x).1.Err? ==> PushStep(b, x) == (b, Err(IndexError))
  {
  }

  /** With a positive capacity, a push appends while there is room and otherwise replaces the
      cursor's slot, and in both cases moves the cursor to `(position + 1) % capacity`. */
  lemma PushAdvances<T>(b: Buffer<T>, x: T)
    requires Valid(b) && b.capacity > 0
    ensures var b' := PushStep(b, x).0;
            && b'.capacity == b.capacity
            && b'.position == (b.position + 1) % b.capacity
            && b'.memory == if |b.memory| < b.capacity then b.memory + [x] else b.memory[b.position := x]
  {
  }

  /** Every push keeps the invariant. */
  lemma PushPreservesValid<T>(b: Buffer<T>, x: T)
    requires Valid(b)
    ensures Valid(PushStep(b, x).0)
  {
    if b.capacity > 0 {
      AdvanceWraps(b.position, b.capacity);
    }
  }

  /** The state after pushing `items` in order. */
  function PushAll<T>(b: Buffer<T>, items: seq<T>): (b': Buffer<T>)
    requires Valid(b)
    ensures Valid(b')
    decreases |items|
  {
    if items == [] then b
    else
      var before := PushAll(b, items[..|items| - 1]);
      PushPreservesValid(before, items[|items| - 1]);
      PushStep(before, items[|items| - 1]).0
  }

  /** After pushing `items` into an empty buffer of `capacity`: while not full, the list is the
      pushes in order and the cursor counts them; once full, reading the ring from the cursor
      gives the last `capacity` pushes, oldest first, and the cursor is the number of pushes
      modulo the capacity. */
  ghost predicate OldestFirst<T>(b: Buffer<T>, capacity: int, items: seq<T>) {
    && b.capacity == capacity
    && (|items| < capacity ==> b.memory == items && b.position == |items|)
    && (|items| >= capacity ==>
          && 0 < capacity && |b.memory| == capacity && b.position == |items| % capacity
          && Ring.FromCursor(b.memory, b.position) == items[|items| - capacity..])
  }

  /** A push into a buffer that is still filling. */
  lemma FillStep<T>(b: Buffer<T>, capacity: int, items: seq<T>, x: T)
    requires Valid(b) && |items| < capacity && OldestFirst(b, capacity, items)
    ensures OldestFirst(PushStep(b, x).0, capacity, items + [x])
  {
    AdvanceWraps(|items|, capacity);
    var after := PushStep(b, x).0;
    assert after.memory == items + [x];
    if |items| + 1 == capacity {
      assert after.position == 0 == capacity % capacity;
      assert (items + [x])[0..] == items + [x];
    }
  }

  /** A push into a full buffer. */
  lemma RingStep<T>(b: Buffer<T>, capacity: int, items: seq<T>, x: T)
    requires Valid(b) && capacity <= |items| && OldestFirst(b, capacity, items)
    ensures OldestFirst(PushStep(b, x).0, capacity, items + [x])
  {
    var p := b.position;
    AdvanceWraps(p, capacity);
    ModStep(|items|, capacity);
    var next := if p + 1 == capacity then 0 else p + 1;
    assert PushStep(b, x).0 == Buffer(b.memory[p := x], capacity, next);
    Ring.OverwriteAdvances(b.memory, p, x);
    var n := |items| + 1;
    assert (items + [x])[n - capacity..] == items[|items| - capacity..][1..] + [x];
  }

  /** FIFO eviction: from the constructor's state, every push after the buffer is full evicts
      the oldest observation, and slot `position` always holds the next one to go. */
  lemma {:induction false} EvictsOldest<T>(capacity: int, items: seq<T>)
    requires capacity > 0
    ensures OldestFirst(PushAll(Buffer([], capacity, 0), items), capacity, items)
    decreases |items|
  {
    var n := |items|;
    if n > 0 {
      var prefix := items[..n - 1];
      EvictsOldest(capacity, prefix);
      var before := PushAll(Buffer([], capacity, 0), prefix);
      if n - 1 < capacity {
        FillStep(before, capacity, prefix, items[n - 1]);
      } else {
        RingStep(before, capacity, prefix, items[n - 1]);
      }
      assert prefix + [items[n - 1]] == items;
    }
  }

  /** Where each observation sits once the buffer is full: the `j`-th push (counting from 0) of
      the last `capacity` pushes is in slot `j % capacity`. */
  lemma SlotsHoldLatest<T>(capacity: int, items: seq<T>)
    requires capacity > 0 && |items| >= capacity
    ensures var b := PushAll(Buffer([], capacity, 0), items);
            && |b.memory| == capacity
            && forall j :: |items| - capacity <= j < |items| ==> b.memory[j % capacity] == items[j]
  {
    EvictsOldest(capacity, items);
    var b := PushAll(Buffer([], capacity, 0), items);
    forall j | |items| - capacity <= j < |items|
      ensures b.memory[j % capacity] == items[j]
    {
      Ring.SlotOfPush(b.memory, capacity, items, j);
    }
  }

  /** The two eviction policies compared: pushed into empty buffers of the same capacity (the
      engine's with overwrite on), both hold the same list after any number of pushes; the
      cursors differ only while filling (the engine's stays at 0, this one counts the pushes). */
  lemma {:induction false} PoliciesAgreeFromEmpty<T>(capacity: int, items: seq<T>)
    requires capacity > 0
    ensures var e := TorchMemory.PushAll(TorchMemory.Buffer([], capacity, 0), items, true);
            var o := PushAll(Buffer([], capacity, 0), items);
            && e.memories == o.memory
            && (|items| < capacity ==> e.position == 0 && o.position == |items|)
            && (|items| >= capacity ==> e.position == o.position)
    decreases |items|
  {
    var n := |items|;
    if n > 0 {
      var prefix, x := items[..n - 1], items[n - 1];
      PoliciesAgreeFromEmpty(capacity, prefix);
      TorchMemory.OverwriteEvictsOldest(capacity, prefix);
      EvictsOldest(capacity, prefix);
      AgreeStep(TorchMemory.PushAll(TorchMemory.Buffer([], capacity, 0), prefix, true),
                PushAll(Buffer([], capacity, 0), prefix), capacity, |prefix|, x);
    }
  }

  /** One push into each buffer keeps them in agreement. */
  lemma AgreeStep<T>(e: TorchMemory.Buffer<T>, o: Buffer<T>, capacity: int, n: nat, x: T)
    requires capacity > 0 && Valid(o) && e.capacity == o.capacity == capacity
    requires n < capacity ==> e.memories == o.memory && |o.memory| == n && e.position == 0 && o.position == n
    requires n >= capacity ==> e.memories == o.memory && |o.memory| == capacity && e.position == o.position
    ensures var e', o' := TorchMemory.PushStep(e, x, true).0, PushStep(o, x).0;
            && e'.memories == o'.memory
            && (n + 1 < capacity ==> e'.position == 0 && o'.position == n + 1)
            && (n + 1 >= capacity ==> e'.position == o'.position)
  {
    if n < capacity {
      AdvanceWraps(n, capacity);
      assert TorchMemory.PushStep(e, x, true).0 == e.(memories := e.memories + [x]);
    } else {
      AdvanceWraps(o.position, capacity);
    }
  }

  /** The buffer as a class whose three fields `capacity`, `memory` and `position` the methods
      update in place; `Valid` of them is a precondition of `Push`. */
  class ReplayMemory<X> {
    var capacity: int
    var memory: seq<Observation<X>>
    var position: int

    /** The fields as a value. */
    function View(): Buffer<Observation<X>>
      reads this
    {
      Buffer(memory, capacity, position)
    }

    /** `__init__`: an empty list with the cursor at 0. */
    constructor(capacity: int)
      ensures View() == Buffer([], capacity, 0) && Valid(View())
    {
      this.capacity := capacity;
      this.memory := [];
      this.position := 0;
    }

    /** `__len__`. */
    function Len(): (n: nat)
      reads this
      ensures n == |memory|
    {
      |memory|
    }

    /** `push`. */
    method Push(observation: Observation<X>) returns (r: Result<(), ReplayMemoryError>)
      requires Valid(View())
      modifies this
      ensures (View(), r) == PushStep(old(View()), observation)
      ensures Valid(View())
    {
      PushPreservesValid(View(), observation);
      if |memory| < capacity {
        memory := memory + [observation];
      } else {
        if !IndexOk(position, |memory|) {
          return Err(IndexError);
        }
        memory := memory[Slot(position, |memory|) := observation];
      }
      position := PyMod(position + 1, capacity);
      r := Ok(());
    }

    /** `__sample__`: `sampleSize` observations from distinct slots, or `SampleSizeTooLarge`.
        A negative size passes the length check and `random.sample` raises, which is re-raised;
        hence the precondition. */
    method Sample(sampleSize: int) returns (r: Result<seq<Observation<X>>, ReplayMemoryError>)
      requires sampleSize >= 0
      ensures r.Ok? <==> sampleSize <= |memory|
      ensures r.Err? ==> r.error == SampleSizeTooLarge
      ensures r.Ok? ==> |r.value| == sampleSize && Sampling.IsSample(r.value, memory)
    {
      if Len() < sampleSize {
        return Err(SampleSizeTooLarge);
      }
      var samples := Sampling.Sample(memory, sampleSize);
      r := Ok(samples);
    }

    /** `sample_batch`: samples `size` observations and splits them field by field. The
        `.unwrap()` raises when the size is too large, and `torch.stack` raises on an empty list;
        hence the precondition. */
    method SampleBatch(size: int) returns (r: Result<Observation<seq<X>>, ReplayMemoryError>)
      requires 1 <= size <= |memory|
      ensures r.Ok?
      ensures |r.value.state| == |r.value.action| == |r.value.nextState| == |r.value.reward| == size
      ensures Sampling.IsSample(Zip(r.value), memory)
    {
      var sampled := Sample(size);
      var samples := sampled.value;
      var states, actions, nextStates, rewards := [], [], [], [];
      for i := 0 to |samples|
        invariant |states| == |actions| == |nextStates| == |rewards| == i
        invariant forall j :: 0 <= j < i ==> states[j] == samples[j].state && actions[j] == samples[j].action
        invariant forall j :: 0 <= j < i ==> nextStates[j] == samples[j].nextState && rewards[j] == samples[j].reward
      {
        states := states + [samples[i].state];
        actions := actions + [samples[i].action];
        nextStates := nextStates + [samples[i].nextState];
        rewards := rewards + [samples[i].reward];
      }
      var batch := Observation(states, actions, nextStates, rewards);
      assert Zip(batch) == samples;
      r := Ok(batch);
    }
  }

  /** The observations a batch stands for: the `j`-th entries of its four fields. */
  function Zip<X>(batch: Observation<seq<X>>): (s: seq<Observation<X>>)
    requires |batch.state| == |batch.action| == |batch.nextState| == |batch.reward|
    ensures |s| == |batch.state|
  {
    seq(|batch.state|, j requires 0 <= j < |batch.state| =>
      Observation(batch.state[j], batch.action[j], batch.nextState[j], batch.reward[j]))
  }

  /** The batch of a list of observations: each field stacked in list order. */
  function Unzip<X>(s: seq<Observation<X>>): (batch: Observation<seq<X>>)
    ensures |batch.state| == |batch.action| == |batch.nextState| == |batch.reward| == |s|
  {
    Observation(seq(|s|, j requires 0 <= j < |s| => s[j].state),
                seq(|s|, j requires 0 <= j < |s| => s[j].action),
                seq(|s|, j requires 0 <= j < |s| => s[j].nextState),
                seq(|s|, j requires 0 <= j < |s| => s[j].reward))
  }

  /** Splitting field by field and zipping back are inverse, so a batch's fields are exactly the
      sampled observations' fields, in the same order. */
  lemma ZipUnzip<X>(s: seq<Observation<X>>, batch: Observation<seq<X>>)
    ensures Zip(Unzip(s)) == s
    ensures |batch.state| == |batch.action| == |batch.nextState| == |batch.reward| ==> Unzip(Zip(batch)) == batch
  {
    assert forall j :: 0 <= j < |s| ==> Zip(Unzip(s))[j] == s[j];
    if |batch.state| == |batch.action| == |batch.nextState| == |batch.reward| {
      var back := Unzip(Zip(batch));
      assert back.state == batch.state && back.action == batch.action;
      assert back.nextState == batch.nextState && back.reward == batch.reward;
    }
  }

  /** The batch test's scenario: a buffer of capacity 10 filled with 10 copies of one observation
      gives a batch of 5 whose every field is 5 copies of that observation's field. */
  method PrefilledBatch<X>(o: Observation<X>) returns (batch: Observation<seq<X>>)
    ensures batch == Observation(seq(5, _ => o.state), seq(5, _ => o.action), seq(5, _ => o.nextState), seq(5, _ => o.reward))
  {
    var memory := new ReplayMemory<X>(10);
    for i := 0 to 10
      invariant memory.View() == Buffer(seq(i, _ => o), 10, if i < 10 then i else 0)
    {
      AdvanceWraps(i, 10);
      var pushed := memory.Push(o);
      assert seq(i, _ => o) + [o] == seq(i + 1, _ => o);
    }
    var r := memory.SampleBatch(5);
    batch := r.value;
    ghost var idx :| Sampling.DrawnAt(Zip(batch), memory.memory, idx);
    forall j | 0 <= j < 5
      ensures batch.state[j] == o.state && batch.action[j] == o.action
      ensures batch.nextState[j] == o.nextState && batch.reward[j] == o.reward
    {
      assert Zip(batch)[j] == o;
      assert Zip(batch)[j] == Observation(batch.state[j], batch.action[j], batch.nextState[j], batch.reward[j]);
    }
    assert batch.state == seq(5, _ => o.state) && batch.action == seq(5, _ => o.action);
    assert batch.nextState == seq(5, _ => o.nextState) && batch.reward == seq(5, _ => o.reward);
  }
}
