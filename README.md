# decode-py core, modelled in Dafny

This project models the small stateful components of the decode-py reinforcement-learning
scaffold and proves properties about them.

- **The engine's replay memory** (`src/rl/blocks/engine/torch/memory/engine.py`; module
  `TorchMemory`). It is a list bounded by a capacity, with a write cursor `position`.
  - `push` appends while there is room. On a full memory it either refuses, or, with
    `overwrite`, replaces the slot under the cursor and moves the cursor on, modulo the capacity.
  - `pop` removes the last item (a stack) and steps the cursor back, wrapping from 0 to the end
    of the old list.
  - `sample_one` and `sample_batch` draw stored items.
  - `capacity`, `available` and `used` report the counters.
  - The factory builds a memory from keyword arguments.
- **The DQN example's experience replay** (`src/example/experience/replay.py`; module
  `ExperienceReplay`). This is an older ring buffer whose cursor advances on every push,
  appends included. `__sample__` draws observations, and `sample_batch` splits the sampled
  observations field by field.
- **The buffered graph-colouring broadcast** (`src/showcase/broadcast/simple.py`; module
  `Broadcast`).
  - A context holds a directed graph and a path stack.
  - A strategy moves a frontier: `extend` adds a fresh vertex below it, and `retreat` moves it
    back along the path.
  - A facade maps `trace` and `untrace` onto these two.
- **The graph database** (`src/showcase/database/simple.py`; module `GraphDB`). It writes vertices
  with data and unlabelled edges, and loads a vertex's data.
- **The observation record** (`src/rl/blocks/engine/torch/observation/engine.py`; module
  `TorchObservation`). It has four fields, each with a getter and a setter, plus a factory.
- **The displayables register** (`src/showcase/register/simple.py`; module `Register`). It
  covers the dict-backed lookup, the template factory that shares a database's dict, the
  adapters, the builder chain and the mediator.
- **The DQN net's integer bookkeeping** (`src/example/net/DQN.py`; module `Dqn`). This is the
  size of the linear head after three strided convolutions, and the guard around the optional
  preprocessor.

## How the model is built

**Shared modules.**
- `Wrappers` provides the `Option` and `Result` types.
- `PyArith` gives Python's floor division, floor modulo and negative list indexing. Dafny's
  `/` and `%` are Euclidean.
- `Ring` is the "read the ring from the cursor" view that both replay memories share.
- `Sampling` models `random.sample`: `k` items drawn from `k` distinct positions. Each draw is
  a nondeterministic choice.
- `DiGraph` abstracts the networkx `DiGraph` that the broadcast context and the graph database
  use. It has three parts:
  - the vertices, in the order they were first added;
  - each vertex's optional `data` attribute;
  - the set of edges.

**Objects and their proofs.**
- Each object whose fields the source updates is a `class`.
- Each state-changing method is proved to produce exactly the state given by a pure step
  function on a value view of its fields, e.g. `TorchMemory.PushStep` and
  `Broadcast.ExtendStep`.
- The source's promises are lemmas about those step functions and the invariants they keep:
  - FIFO eviction;
  - last-in first-out popping;
  - the tree the broadcast grows;
  - round trips such as zip after unzip.
- Exceptions that the source catches and turns into a `Result` become `Err` values.
- Exceptions raised to the caller in code that has no `Result` type also become `Err` values:
  in `lookup_node`, `graph.nodes[label]` and `list.pop`.
- Exceptions that escape a method which does declare a `Result` become preconditions. These
  are listed under "Left out".

**Details of the code that the model keeps.**
- The capacity is never checked, and `from_sequence` accepts a list longer than the capacity.
  So `TorchMemory` is modelled on every state, with `Valid` as the invariant that a
  well-formed construction sets up and every operation keeps.
- `pop` wraps a cursor at 0 to the last slot of the *old list*, not to `capacity - 1`.
- The overwrite test (src/rl/blocks/engine/torch/memory/test/test_memory.py:82-90) builds `[0, 1, 2, 3]`
  with capacity 5 and pushes 4, 5 and 6 with overwrite; it asserts the list `[5, 6, 2, 3, 4]`, and
  the model also derives the cursor, 2 (`TorchMemory.OverwriteScenario`).
- FIFO eviction holds only for push-only histories from an empty memory with the cursor at 0.
  After a `pop`, the code goes on to overwrite the newest item
  (`TorchMemory.PopThenOverwriteEvictsNewest`).
- In `replay.py`, a capacity of 0 or less fails at the slot write with `IndexError`. The modulo
  on line 58 that would divide by zero is never reached.

## Model

| member | source | states |
|---|---|---|
| TorchMemory.PushStep | src/rl/blocks/engine/torch/memory/engine.py:59-71 | push never changes the capacity; the list grows by one exactly when it is shorter than the capacity and otherwise keeps its length; a failed push changes nothing, except for the slot already written when capacity 0 makes the modulo raise |
| TorchMemory.PopStep | src/rl/blocks/engine/torch/memory/engine.py:78-85 | pop succeeds exactly on a non-empty list; then the returned item is the last one and the remaining list plus it is the old list; on an empty list it fails with the empty-pop error and changes nothing |
| TorchMemory.PushWithRoom | src/rl/blocks/engine/torch/memory/engine.py:61-62 | while the list is shorter than the capacity, push appends the item at the end, returns Ok and leaves capacity and cursor unchanged |
| TorchMemory.PushFullRefused | src/rl/blocks/engine/torch/memory/engine.py:68-69 | on a full memory without overwrite, push returns the out-of-memory error and the state is unchanged |
| TorchMemory.PushOverwrites | src/rl/blocks/engine/torch/memory/engine.py:63-66 | on a full valid memory with overwrite, push returns Ok, replaces exactly the slot under the cursor, keeps the length and capacity, and sets the cursor to (position + 1) mod capacity |
| TorchMemory.PushOutcome | src/rl/blocks/engine/torch/memory/engine.py:59-71 | under the invariant, push succeeds iff there is room or overwrite is on with a positive capacity; the failed-overwrite error only arises with capacity 0 |
| TorchMemory.PopCursor | src/rl/blocks/engine/torch/memory/engine.py:82 | pop moves the cursor to old length - 1 when it was 0, otherwise back by one |
| TorchMemory.StepsPreserveValid | src/rl/blocks/engine/torch/memory/engine.py:59-85 | every push (any flag) and every pop keeps the invariant: the list fits the capacity and the cursor names a slot |
| TorchMemory.StepsKeepFit | src/rl/blocks/engine/torch/memory/engine.py:59-85 | whatever the cursor, if the list fits the capacity then after a push (either flag) or a pop it still fits, and the capacity is unchanged |
| TorchMemory.PushThenPop | src/rl/blocks/engine/torch/memory/engine.py:61-83 | a push into free room followed by a pop returns the pushed item and restores the list |
| TorchMemory.DrainIsReversed | src/rl/blocks/engine/torch/memory/test/test_memory.py:42-49 | popping until failure returns the stored items back to front (last in, first out) |
| TorchMemory.OverwriteEvictsOldest | src/rl/blocks/engine/torch/memory/engine.py:61-66 | from an empty memory with cursor 0, pushes with overwrite first fill the list in push order with the cursor at 0; from then on the cursor is the number of pushes mod capacity and the ring read from it is the last capacity pushes, oldest first, so each overwrite evicts the oldest item |
| TorchMemory.OverwriteSlotsHoldLatest | src/rl/blocks/engine/torch/memory/engine.py:61-66 | once full, of the last capacity pushes the j-th (counting all pushes from 0) sits in slot j mod capacity |
| TorchMemory.OverwriteScenario | src/rl/blocks/engine/torch/memory/test/test_memory.py:82-90 | [0,1,2,3] with capacity 5, pushing 4, 5, 6 with overwrite gives [5,6,2,3,4] with the cursor at 2 |
| TorchMemory.PopOnLastPositionScenario | src/rl/blocks/engine/torch/memory/test/test_memory.py:92-104 | popping the full [0,1,2,3] at cursor 0 returns 3 and leaves [0,1,2] with the cursor at 3 |
| TorchMemory.PopThenOverwriteEvictsNewest | src/rl/blocks/engine/torch/memory/engine.py:63-82 | after that pop, pushing 4 and then 5 with overwrite replaces 4, the newest item, giving [0,1,2,5]: the ring order is kept only by pushes |
| TorchMemory.ReplayMemory.constructor | src/rl/blocks/engine/torch/memory/engine.py:35-43 | the three fields are exactly the arguments, unchecked |
| TorchMemory.ReplayMemory.Len | src/rl/blocks/engine/torch/memory/engine.py:45-49 | the number of stored memories |
| TorchMemory.ReplayMemory.Push | src/rl/blocks/engine/torch/memory/engine.py:51-71 | the new fields and the result are those of PushStep on the old fields, whose properties are the lemmas above |
| TorchMemory.ReplayMemory.Pop | src/rl/blocks/engine/torch/memory/engine.py:73-85 | the new fields and the result are those of PopStep on the old fields |
| TorchMemory.ReplayMemory.SampleOne | src/rl/blocks/engine/torch/memory/engine.py:88-93 | on a non-empty memory, returns Ok of a stored memory |
| TorchMemory.ReplayMemory.SampleBatch | src/rl/blocks/engine/torch/memory/engine.py:95-102 | succeeds iff 0 <= size <= length; then returns size items drawn from size distinct slots; otherwise the sample error |
| TorchMemory.ReplayMemory.Capacity | src/rl/blocks/engine/torch/memory/engine.py:104-108 | Ok of the capacity |
| TorchMemory.ReplayMemory.Available | src/rl/blocks/engine/torch/memory/engine.py:110-114 | Ok of the room left: it plus the length is the capacity |
| TorchMemory.ReplayMemory.Used | src/rl/blocks/engine/torch/memory/engine.py:116-120 | Ok of the length |
| TorchMemory.ReplayMemory.Items | src/rl/blocks/engine/torch/memory/engine.py:122 | iteration yields the stored memories in list order |
| TorchMemory.CountersAgree | src/rl/blocks/engine/torch/memory/engine.py:104-120 | available + used = capacity; under the invariant none is negative and used is at most capacity; available is 0 iff the memory is full |
| TorchMemory.ReplayMemoryFactory.PopKwarg | src/rl/blocks/engine/torch/memory/engine.py:136-145 | Ok of the keyword argument's value |
| TorchMemory.ReplayMemoryFactory.FromSequence | src/rl/blocks/engine/torch/memory/engine.py:166-183 | a fresh memory holding the sequence, the capacity argument, and the position argument or 0 |
| TorchMemory.ReplayMemoryFactory.FromIterator | src/rl/blocks/engine/torch/memory/engine.py:158-164 | the same, with the iterator's items in order |
| TorchMemory.ReplayMemoryFactory.New | src/rl/blocks/engine/torch/memory/engine.py:147-156 | the same, with an empty list |
| TorchMemory.FactoryCounters | src/rl/blocks/engine/torch/memory/test/test_memory.py:9-29 | capacity/available/used are 4/0/4, 4/1/3 and 4/4/0 for the three factory calls of the test |
| TorchMemory.PushInOrder | src/rl/blocks/engine/torch/memory/test/test_memory.py:31-40 | four pushes into a new memory of capacity 4 all return Ok and iterate in push order |
| Sampling.Sample | src/rl/blocks/engine/torch/memory/engine.py:100 | k items drawn from k distinct positions of the population |
| Sampling.SampleMembers | src/rl/blocks/engine/torch/memory/test/test_memory.py:67-71 | every sampled item is a member of the population |
| Sampling.SampleOfDistinctIsDistinct | src/example/experience/replay.py:69 | a sample of a population without repeats has no repeats |
| PyArith.FloorDiv | src/example/net/DQN.py:69 | Python's `//`: the quotient rounded towards negative infinity, for either sign of divisor |
| PyArith.PyMod | src/example/experience/replay.py:58 | Python's `%`: the remainder has the divisor's sign and completes the floor division |
| PyArith.Slot | src/rl/blocks/engine/torch/memory/engine.py:65 | the list slot a possibly negative index denotes |
| PyArith.AdvanceWraps | src/example/experience/replay.py:58 | advancing a cursor in [0, n) by one modulo n wraps to 0 only at the end |
| Ring.OverwriteAdvances | src/rl/blocks/engine/torch/memory/engine.py:65-66 | overwriting the cursor's slot and advancing the cursor drops the oldest item from the ring and adds the new one as newest |
| Ring.SlotOfPush | src/example/experience/replay.py:53-58 | when the ring read from cursor n mod capacity is the last capacity of n items, item j of those is in slot j mod capacity |
| ExperienceReplay.PushStep | src/example/experience/replay.py:47-60 | push never changes the capacity, grows the list by one exactly when there is room and otherwise keeps its length, and a failed push changes nothing |
| ExperienceReplay.PushOutcome | src/example/experience/replay.py:51-60 | under the invariant, push fails iff the capacity is at most 0, and then with IndexError and no change |
| ExperienceReplay.PushAdvances | src/example/experience/replay.py:51-58 | with positive capacity, push appends while there is room, otherwise replaces the cursor's slot, and always sets the cursor to (position + 1) mod capacity |
| ExperienceReplay.PushPreservesValid | src/example/experience/replay.py:43-58 | every push keeps: with positive capacity, list fits and cursor in [0, capacity); otherwise the list stays empty |
| ExperienceReplay.EvictsOldest | src/example/experience/replay.py:51-58 | from the constructor's state, while filling the list is the pushes in order with the cursor counting them; once full the cursor is the number of pushes mod capacity and the ring read from it is the last capacity pushes, oldest first (FIFO eviction) |
| ExperienceReplay.SlotsHoldLatest | src/example/experience/replay.py:51-58 | once full, of the last capacity pushes the j-th (counting all pushes from 0) sits in slot j mod capacity |
| ExperienceReplay.PoliciesAgreeFromEmpty | src/example/experience/replay.py:51-58 | pushed into empty memories of the same capacity, this buffer and the engine's (with overwrite) hold the same list after any pushes; their cursors differ only while filling |
| ExperienceReplay.ReplayMemory.constructor | src/example/experience/replay.py:39-45 | an empty list with the cursor at 0, which satisfies the invariant |
| ExperienceReplay.ReplayMemory.Len | src/example/experience/replay.py:72 | the number of stored observations |
| ExperienceReplay.ReplayMemory.Push | src/example/experience/replay.py:47-60 | the new fields and result are those of PushStep, and the invariant is kept |
| ExperienceReplay.ReplayMemory.Sample | src/example/experience/replay.py:62-70 | succeeds iff the size is at most the length; then size observations from distinct slots; otherwise SampleSizeTooLarge |
| ExperienceReplay.ReplayMemory.SampleBatch | src/example/experience/replay.py:74-96 | returns Ok of a batch whose four fields all have the requested length and which zips back to a sample of the stored observations |
| ExperienceReplay.ZipUnzip | src/example/experience/replay.py:85-94 | splitting observations field by field and zipping back are mutually inverse |
| ExperienceReplay.PrefilledBatch | src/example/experience/test_replay.py:40-76 | ten copies of one observation in a capacity-10 buffer give a batch of 5 whose every field is 5 copies of that observation's field |
| DiGraph.Empty | src/showcase/database/simple.py:47 | a new graph is well formed, with no vertices, data or edges |
| DiGraph.Load | src/showcase/database/simple.py:78 | succeeds iff the label is a vertex, giving its optional data attribute |
| DiGraph.Touch | src/showcase/database/simple.py:70 | afterwards the label is a vertex; a known vertex is left exactly as it was, a new one has no data; edges are unchanged |
| DiGraph.AddNode | src/showcase/database/simple.py:62 | afterwards the label is a vertex carrying the data given, whether it was new or not; edges are unchanged |
| DiGraph.AddEdge | src/showcase/database/simple.py:70 | afterwards the edge is present, no old edge is lost, and both endpoints are vertices |
| DiGraph.AddNodePreservesWellFormed | src/showcase/database/simple.py:62 | adding a vertex keeps vertices unique, the attribute map in step with the vertex list, and edges between vertices |
| DiGraph.AddEdgePreservesWellFormed | src/showcase/database/simple.py:70 | the same for adding an edge |
| DiGraph.LoadAfterWrite | src/showcase/database/simple.py:58-78 | loading a label just written gives back the data written |
| DiGraph.AddNodeOrder | src/showcase/database/simple.py:62 | a new label is appended to the vertex list, a known one keeps its place, edges are unchanged |
| DiGraph.AddEdgeRecords | src/showcase/database/simple.py:66-70 | the edge is added even between unknown labels, both endpoints become loadable vertices, new ones listed source first, and nothing else is added |
| DiGraph.EdgeEndpointHasNoData | src/showcase/database/simple.py:70-78 | a vertex that exists only as an endpoint of a new edge loads as None |
| DiGraph.LoadAbsentFails | src/showcase/database/simple.py:78 | loading a label that is not a vertex fails with KeyError |
| DiGraph.WritesKeepOtherData | src/showcase/database/simple.py:58-72 | writing a vertex under another label, or an edge, leaves every other vertex's load result unchanged |
| GraphDB.SimpleGraphDB.constructor | src/showcase/database/simple.py:43-49 | starts from the empty graph |
| GraphDB.SimpleGraphDB.WriteStatefulVertex | src/showcase/database/simple.py:58-64 | the graph becomes the old graph with the vertex added |
| GraphDB.SimpleGraphDB.WriteStatelessDirectedEdge | src/showcase/database/simple.py:66-72 | the graph becomes the old graph with the edge added |
| GraphDB.SimpleGraphDB.LoadStatefulVertex | src/showcase/database/simple.py:74-78 | succeeds iff the label is a vertex, giving its optional data |
| GraphDB.VertexOrderScenario | src/showcase/database/tests/test_simple.py:27-37 | writing vertices 0 then 9 lists [0] then [0, 9] |
| GraphDB.EdgeScenario | src/showcase/database/tests/test_simple.py:44-55 | an edge 0 -> 9 on an empty database gives edges {(0, 9)}, vertices [0, 9], vertex 0 loading as None and vertex 1 failing |
| GraphDB.WriteThenLoad | src/showcase/database/simple.py:58-78 | on any database, a write followed by a load of the same label returns the written data |
| Broadcast.PathPop | src/showcase/broadcast/simple.py:134-138 | popping fails iff the path is empty; otherwise the rest of the path plus the popped label is the old path |
| Broadcast.PushThenPopPath | src/showcase/broadcast/simple.py:126-138 | a push followed by a pop gives back the label and the old path |
| Broadcast.Init | src/showcase/broadcast/simple.py:158-168 | a fresh strategy in a fresh context: counter and frontier 0, an empty path, and a graph with no vertex and no edge |
| Broadcast.ExtendStep | src/showcase/broadcast/simple.py:183-199 | extend raises the counter and sets the frontier to the new label, pushes the old frontier, adds exactly the edge from the old frontier, and stores the data on the new vertex |
| Broadcast.RetreatStep | src/showcase/broadcast/simple.py:201-209 | retreat succeeds iff the path is non-empty, then moves the frontier to the last path entry and drops it; failure changes nothing; counter and graph never change |
| Broadcast.ExtendThenRetreat | src/showcase/broadcast/simple.py:183-209 | retreat right after extend returns to the old frontier and path, keeping the new vertex and edge |
| Broadcast.InitIsTree | src/showcase/broadcast/simple.py:158-168 | the initial state satisfies the tree invariant |
| Broadcast.ExtendPreservesTree | src/showcase/broadcast/simple.py:189-197 | extend keeps the invariant: path strictly increasing below the frontier, frontier at most the counter, vertices 0..nodes with data on all but 0, every edge from a smaller label, one incoming edge per vertex 1..nodes |
| Broadcast.RetreatPreservesTree | src/showcase/broadcast/simple.py:207 | retreat keeps the same invariant |
| Broadcast.RunIsTree | src/showcase/broadcast/simple.py:183-209 | any sequence of extends and retreats from a tree state ends in a tree state |
| Broadcast.RunAppend | src/showcase/broadcast/simple.py:183-209 | running two call sequences one after the other is running their concatenation |
| Broadcast.LeavesEffect | src/showcase/broadcast/tests/test_simple.py:141-143 | k extend/retreat pairs add k vertices numbered after the counter, each with an edge from the frontier, and leave frontier and path unchanged |
| Broadcast.BranchEffect | src/showcase/broadcast/tests/test_simple.py:139-144 | a branch adds one vertex below the frontier with k leaves below it and returns to the frontier and path it started from |
| Broadcast.NestedTrace | src/showcase/broadcast/tests/test_simple.py:131-149 | the nested loop of the test grows exactly the edges {(0,1),(0,4),(0,6),(1,2),(1,3),(4,5)} |
| Broadcast.Context.constructor | src/showcase/broadcast/simple.py:88-96 | an empty graph and an empty path |
| Broadcast.Context.AddEdge | src/showcase/broadcast/simple.py:108-114 | the graph gets the edge; the path is unchanged |
| Broadcast.Context.AddVertex | src/showcase/broadcast/simple.py:116-124 | the graph gets the vertex with its data; the path is unchanged |
| Broadcast.Context.PushToPath | src/showcase/broadcast/simple.py:126-132 | the label is appended to the path; the graph is unchanged |
| Broadcast.Context.PopFromPath | src/showcase/broadcast/simple.py:134-138 | path and result are those of PathPop; the graph is unchanged |
| Broadcast.Strategy.constructor | src/showcase/broadcast/simple.py:158-168 | counter and frontier 0 over the given context |
| Broadcast.Strategy.Extend | src/showcase/broadcast/simple.py:183-199 | the strategy's and context's new state is ExtendStep of the old |
| Broadcast.Strategy.Retreat | src/showcase/broadcast/simple.py:201-209 | the new state and the result are RetreatStep of the old |
| Broadcast.Facade.constructor | src/showcase/broadcast/simple.py:223-231 | a fresh strategy over a fresh context, in the initial state |
| Broadcast.Facade.Trace | src/showcase/broadcast/simple.py:240-246 | trace is extend on the facade's strategy |
| Broadcast.Facade.Untrace | src/showcase/broadcast/simple.py:248-254 | untrace is retreat on the facade's strategy |
| Broadcast.ContextScenario | src/showcase/broadcast/tests/test_simple.py:39-71 | vertices 0 and 9 listed in insertion order, edge (0, 9), and pops give 9 then 0 |
| Broadcast.TraceUntrace | src/showcase/broadcast/simple.py:240-254 | one trace and one untrace from the initial state leave edge (0, 1), an empty path, counter 1, frontier 0 and the data on vertex 1 |
| Broadcast.FacadeScenario | src/showcase/broadcast/tests/test_simple.py:156-180 | the facade test on a fresh facade: the same observations through the objects |
| TorchObservation.OpenAIObservation.constructor | src/rl/blocks/engine/torch/observation/engine.py:32-39 | the four fields are exactly the arguments |
| TorchObservation.OpenAIObservation.GetState | src/rl/blocks/engine/torch/observation/engine.py:68-74 | Ok of the state field |
| TorchObservation.OpenAIObservation.GetReward | src/rl/blocks/engine/torch/observation/engine.py:51-57 | Ok of the reward field |
| TorchObservation.OpenAIObservation.GetNextState | src/rl/blocks/engine/torch/observation/engine.py:85-91 | Ok of the transition field |
| TorchObservation.OpenAIObservation.GetAction | src/rl/blocks/engine/torch/observation/engine.py:102-108 | Ok of the action field |
| TorchObservation.OpenAIObservation.SetState | src/rl/blocks/engine/torch/observation/engine.py:59-66 | returns Ok; only the state field changes, to the value given |
| TorchObservation.OpenAIObservation.SetReward | src/rl/blocks/engine/torch/observation/engine.py:41-48 | returns Ok; only the reward field changes |
| TorchObservation.OpenAIObservation.SetNextState | src/rl/blocks/engine/torch/observation/engine.py:76-83 | returns Ok; only the transition field changes |
| TorchObservation.OpenAIObservation.SetAction | src/rl/blocks/engine/torch/observation/engine.py:93-100 | returns Ok; only the action field changes |
| TorchObservation.New | src/rl/blocks/engine/torch/observation/engine.py:118-130 | always Ok of a fresh observation holding the four values as given |
| TorchObservation.SettersScenario | src/rl/blocks/engine/torch/observation/test/test_observation.py:74-87 | getters give (0,1,2,3) after construction and (3,2,1,0) after the four setters |
| Register.Get | src/showcase/register/simple.py:89 | `get(key, None)` is a value iff the key is present with a non-None value |
| Register.LookupAsWritten | src/showcase/register/simple.py:83-93 | the code as written: succeeds iff the key holds a value, giving it; any failure is TypeError |
| Register.Lookup | src/showcase/register/simple.py:83-93 | as documented: succeeds iff the key holds a non-None value, giving it; otherwise KeyError |
| Register.LookupAsWrittenRaisesTypeError | src/showcase/register/simple.py:87-91 | the two agree on every success, and every failure of the code as written is TypeError where KeyError is documented |
| Register.LookupEmptyScenario | src/showcase/register/simple.py:91 | on an empty database the code as written fails with TypeError, the documented behaviour with KeyError |
| Register.LookupAfterUpdate | src/showcase/register/tests/test_simple.py:43-49 | after storing a value under a key, lookup of that key gives it and lookups of other keys are unchanged |
| Register.Dict.constructor | src/showcase/register/simple.py:73-77 | a new `UserDict` is empty |
| Register.Dict.Update | src/showcase/register/tests/test_simple.py:45 | `update(m)`: the entries of m are added, replacing those with the same keys |
| Register.DisplayablesDatabase.constructor | src/showcase/register/simple.py:73-81 | a new database owns a fresh, empty dict |
| Register.DisplayablesDatabase.Update | src/showcase/register/tests/test_simple.py:45 | updating the database updates its dict the same way and changes nothing else |
| Register.DisplayablesDatabase.LookupNode | src/showcase/register/simple.py:83-93 | as documented: succeeds iff the key holds a non-None value, giving it, otherwise KeyError; every success is that of the code as written, and where it fails the code as written raises TypeError |
| Register.TemplateFactory.MakeTemplate | src/showcase/register/simple.py:107-111 | make_template is the documented lookup_node on the factory's dict, succeeding iff the key holds a value; where it fails the code as written raises TypeError |
| Register.TemplateFactory.constructor | src/showcase/register/simple.py:96-105 | a new factory owns a fresh, empty dict |
| Register.TemplateFactory.FromDatabase | src/showcase/register/simple.py:113-121 | the factory now refers to the database's own dict object, not a copy |
| Register.UserDictScenario | src/showcase/register/tests/test_simple.py:43-49 | a database updated with one key finds that key's schema |
| Register.SharedDataScenario | src/showcase/register/simple.py:113-121 | a factory built from a database sees a key added to the database afterwards; the lookup before that fails with KeyError as documented and TypeError as written |
| Register.NodeDetailsAdapter.AdaptMemento | src/showcase/register/simple.py:132-136 | always raises NotImplementedError |
| Register.TemplateVisitor.VisitDisplayableTemplate | src/showcase/register/simple.py:159-163 | always raises NotImplementedError |
| Register.DisplayableAdapter.AdaptTemplate | src/showcase/register/simple.py:144-148 | the identity |
| Register.DisplayableBuilder.GetTemplateFactory | src/showcase/register/simple.py:184-193 | Ok of the attached factory iff one is attached, otherwise AttributeError |
| Register.DisplayableBuilder.GetNodeDetailsAdapter | src/showcase/register/simple.py:204-213 | Ok iff an adapter is attached, otherwise AttributeError |
| Register.DisplayableBuilder.GetTemplateVisitor | src/showcase/register/simple.py:224-233 | Ok iff a visitor is attached, otherwise AttributeError |
| Register.DisplayableBuilder.GetDisplayableAdapter | src/showcase/register/simple.py:244-253 | Ok iff an adapter is attached, otherwise AttributeError |
| Register.DisplayableBuilder.SetTemplateFactory | src/showcase/register/simple.py:195-202 | attaches the factory and leaves the other three parts alone |
| Register.DisplayableBuilder.SetNodeDetailsAdapter | src/showcase/register/simple.py:215-222 | attaches the adapter and leaves the other three parts alone |
| Register.DisplayableBuilder.SetTemplateVisitor | src/showcase/register/simple.py:235-242 | attaches the visitor and leaves the other three parts alone |
| Register.DisplayableBuilder.SetDisplayableAdapter | src/showcase/register/simple.py:255-262 | attaches the adapter and leaves the other three parts alone |
| Register.DisplayableBuilder.BuildDisplayable | src/showcase/register/simple.py:268-280 | never succeeds: AttributeError without a factory, KeyError when the template lookup fails, then AttributeError without a details adapter, else NotImplementedError |
| Register.RegisterMediator.GetMementos | src/showcase/register/simple.py:300-309 | Ok of the memento source iff one is attached, otherwise AttributeError |
| Register.RegisterMediator.GetDisplayableBuilder | src/showcase/register/simple.py:320-329 | Ok of the builder iff one is attached, otherwise AttributeError |
| Register.RegisterMediator.SetMementos | src/showcase/register/simple.py:311-318 | attaches the source; the builder is unchanged |
| Register.RegisterMediator.SetDisplayableBuilder | src/showcase/register/simple.py:331-338 | attaches the builder; the source is unchanged |
| Register.RegisterMediator.GetDisplayable | src/showcase/register/simple.py:344-352 | never succeeds: AttributeError without a source, the source's error when it fails, AttributeError without a builder |
| Register.BuilderPropertyScenario | src/showcase/register/simple.py:244-280 | a getter fails before its setter and returns the value after; a fully wired lookup still ends in NotImplementedError |
| Dqn.Connections | src/example/net/DQN.py:69 | for a positive stride, the output count r is the one for which the r-th window fits in d inputs and the (r+1)-th does not |
| Dqn.GetConnections | src/example/net/DQN.py:62-74 | the head size is the three-layer output count along the width times that along the height times the output channels, the layers counted by the reference Layers |
| Dqn.ConnectionsIsLargestFit | src/example/net/DQN.py:69 | for a positive stride, a window count fits the input iff it is at most the layer's output count |
| Dqn.ConnectionsMonotone | src/example/net/DQN.py:69 | for a positive stride, more inputs never give fewer outputs |
| Dqn.LayersMonotone | src/example/net/DQN.py:69-72 | for a positive stride, any number of stacked layers never gives fewer outputs for more inputs |
| Dqn.GetConnectionsMonotone | src/example/net/DQN.py:62-74 | a larger image never needs a smaller head, when the smaller image keeps a non-negative output count and channels are non-negative |
| Dqn.HeadSize | src/example/net/DQN.py:31 | with kernel 5 and stride 2, 160 -> 78 -> 37 -> 17 and 210 -> 103 -> 50 -> 23, so the head reads 17 * 23 * 32 = 12512 values |
| Dqn.SetStep | src/example/net/DQN.py:42-48 | setting succeeds iff no preprocessor is set or overwrite is asked for, and then stores the new one; otherwise the old one stays and the error says overwrite was missing |
| Dqn.SetTwice | src/example/net/DQN.py:46-48 | setting twice without overwrite keeps the first; with overwrite the second wins |
| Dqn.Cnn.constructor | src/example/net/DQN.py:18-34 | the head size is the connection count of the image, and the pipeline is attached iff asked for |
| Dqn.Cnn.PreprocessorExists | src/example/net/DQN.py:36-40 | true exactly when no preprocessor is set (the name is inverted) |
| Dqn.Cnn.SetPreprocessor | src/example/net/DQN.py:42-48 | the new preprocessor and result are those of SetStep |
| Dqn.Cnn.Preprocess | src/example/net/DQN.py:50-59 | missing-preprocessor error when none is set, Ok of the result when it succeeds, an error when it raises |
| Dqn.PreprocessScenario | src/example/net/test_DQN.py:6-18 | a 160 x 210 net built with its pipeline has a 12512-wide head and preprocesses what the pipeline accepts; without it, preprocessing fails |

## Left out

- Tensors, torch, torchvision and torch.stack. A tensor is a type parameter. `torch.stack` is
  building a sequence. The resizing pipeline is a function parameter of `Dqn.Cnn`.
- The convolution and batch-norm layers and `forward` of `CNN` are floating-point algebra and
  are not modelled.
- The distribution of `random.choice` and `random.sample`. Only the choice of distinct
  positions is modelled.
- `*args` and `**kwargs` that an operation ignores are dropped. The factory's keyword
  arguments are a map from names to integers.
- The networkx `DiGraph` internals. Edges are a set, so the list order of `graph.edges` is not
  modelled. The tests compare that list only when it holds a single edge.
- The abstract interface classes and their broken imports model no behaviour and are not part
  of this model.
- TorchMemory.ReplayMemory.SampleOne: requires a non-empty memory. `random.choice` on an
  empty list raises an `IndexError` that the `except ValueError` does not catch.
- TorchMemory.ReplayMemoryFactory.PopKwarg: requires the key to be present. The `KeyError` of
  a missing key is not caught by the `except ValueError`.
- TorchMemory.ReplayMemoryFactory.FromSequence requires a `capacity` argument, for the same
  reason. The `except Exception` branch cannot be reached in the model, because the
  constructor never raises. The same holds for FromIterator and New.
- ExperienceReplay.ReplayMemory.Sample: requires a size of at least 0. A negative size passes
  the length check, and the exception from `random.sample` is re-raised.
- ExperienceReplay.ReplayMemory.SampleBatch: requires 1 <= size <= length. `.unwrap()` raises
  on a size that is too large, and `torch.stack` raises on an empty list.
- ExperienceReplay.ReplayMemory.Push: requires the invariant. The fields are set only by the
  constructor, which establishes it.
- Dqn.Connections: requires a non-zero stride, because Python's `//` by zero raises.
- Dqn.Cnn.Preprocess: an exception from the preprocessor is a `None` result of the function
  parameter, and is reported as one error value without its message.
- Broadcast.Facade: the data type is generic. The source fixes it to `type`.
- Register.RegisterMediator.GetDisplayable: the `GetMemento` source is a function from keys to
  results. Its own behaviour is an interface that is not part of this model.
- Register.DisplayableBuilder.BuildDisplayable: it uses the corrected lookup from the finding
  below. As written, a missing template key raises TypeError rather than KeyError. It never
  reaches the visitor or the displayable adapter, because `adapt_memento` always raises.
- Register.DisplayablesDatabase.LookupNode: follows the documented KeyError rather than the
  TypeError that line 91 raises (see "Findings"); its contract states where the two differ.
- Register.TemplateFactory.MakeTemplate: the same, since it is `lookup_node`.
- Register.SharedDataScenario: `before` is the documented KeyError; `beforeAsWritten` gives the
  TypeError of the code as written.
- Register.Dict: only `update` and item lookup of `UserDict` are modelled.
- Error messages are not modelled. Each error is a constructor of an error datatype.

## Findings

| source | as written | input that shows it | evidently intended | confidence | as-written member | corrected member |
|---|---|---|---|---|---|---|
| src/showcase/register/simple.py:91 | `'looking up %s returned a None' % (node_key, lookup)` formats two values into one `%s`, so building the message raises TypeError ("not all arguments converted") | `lookup_node('node_key')` on an empty database | raise KeyError for a missing key or a None value, as the docstring on line 87 says | not executed | Register.LookupAsWritten, Register.LookupEmptyScenario | Register.Lookup |
