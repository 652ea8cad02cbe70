/**
 The fold as the code runs it: slices over backing arrays with spare capacity,
 maps and pointers on the heap, a deep clone, and then writes into the clone
 (internal/replay/state.go, fold.go). `Apply` has no `modifies` clause, so no map,
 array, pointer or step reachable from an input state can change, on success or on
 any error; `repr`, `calls` and `own` say which objects a step and a state reach.
 */
module ReplayHeap {
  import opened Wrappers
  import opened Events
  import opened Replay

  // ------------------------------------------------------------------ memory

  /** A Go map: assigning the variable shares it, only copying it entry by entry does not. */
  class GoMap<K(==), V> {
    var m: map<K, V>

    constructor ()
      ensures m == map[]
    {
      m := map[];
    }
  }

  class Pointer<T> {
    var v: T

    constructor (v: T)
      ensures this.v == v
    {
      this.v := v;
    }
  }

  /** A Go slice: the first `len` elements of a backing array whose rest is spare capacity. */
  datatype Slice<T> = Slice(backing: array<T>, len: nat) {

    predicate Fits() {
      len <= backing.Length
    }

    function Items(): seq<T>
      reads backing
    {
      if len <= backing.Length then backing[..len] else []
    }
  }

  /** make([]T, len, len + spare), with the elements of `s`. */
  method Reserve<T(0)>(s: Slice<T>, spare: nat) returns (r: Slice<T>)
    requires s.Fits()
    ensures r.Fits() && fresh(r.backing) && r.backing.Length == s.len + spare && r.len == s.len
    ensures r.Items() == s.Items()
  {
    var backing := new T[s.len + spare];
    var i := 0;
    while i < s.len
      invariant 0 <= i <= s.len && backing[..i] == s.backing[..i]
    {
      backing[i] := s.backing[i];
      i := i + 1;
    }
    r := Slice(backing, s.len);
  }

  /** append([]T(nil), s...): a copy, with whatever capacity the runtime chooses. */
  method CopySlice<T(0)>(s: Slice<T>) returns (r: Slice<T>)
    requires s.Fits()
    ensures r.Fits() && fresh(r.backing) && r.Items() == s.Items()
  {
    var spare: int := *;
    r := Reserve(s, if spare > 0 then spare else 0);
  }

  /** append(s, x): in place while there is room, and then whoever shares the array shares the write. */
  method Append<T(0)>(s: Slice<T>, x: T) returns (r: Slice<T>)
    requires s.Fits()
    modifies s.backing
    ensures r.Fits() && r.Items() == old(s.Items()) + [x] && s.Items() == old(s.Items())
    ensures if s.len < s.backing.Length then r.backing == s.backing else fresh(r.backing) && unchanged(s.backing)
  {
    if s.len < s.backing.Length {
      s.backing[s.len] := x;
      r := Slice(s.backing, s.len + 1);
    } else {
      var spare: int := *;
      var grown := Reserve(s, 1 + if spare > 0 then spare else 0);
      grown.backing[s.len] := x;
      r := Slice(grown.backing, s.len + 1);
    }
  }

  method NilSlice<T(0)>() returns (s: Slice<T>)
    ensures s.Fits() && fresh(s.backing) && s.len == 0 && s.Items() == []
  {
    var backing := new T[0];
    s := Slice(backing, 0);
  }

  // ------------------------------------------------------------------- steps

  function KeyOf(p: Pointer?<string>): Option<string>
    reads p
  {
    if p == null then None else Some(p.v)
  }

  datatype HeapInvocation = HeapInvocation(hasSideEffect: bool, key: Pointer?<string>, invokedAt: int) {
    ghost predicate Holds(inv: Invocation)
      reads key
    {
      hasSideEffect == inv.hasSideEffect && invokedAt == inv.invokedAt && KeyOf(key) == inv.key
    }
  }

  class StepCell {
    const content: Slice<Block>
    const isTerminal: bool
    const stopReason: string
    const order: Slice<string>
    var invokedOrder: Slice<string>
    const invoked: GoMap<string, HeapInvocation>
    const results: GoMap<string, ToolResult>
    /** All the memory of the step: itself, its maps, its backing arrays and its keys. */
    ghost var repr: set<object>

    constructor (content: Slice<Block>, isTerminal: bool, stopReason: string, order: Slice<string>, invokedOrder: Slice<string>)
      requires content.Fits() && order.Fits() && invokedOrder.Fits()
      ensures fresh(repr - {content.backing as object, order.backing, invokedOrder.backing}) && fresh(invoked) && fresh(results)
      ensures this.order == order && this.invokedOrder == invokedOrder
      ensures Holds(StepRecord(content.Items(), isTerminal, stopReason, map[], order.Items(), invokedOrder.Items(), map[]))
    {
      this.content, this.isTerminal, this.stopReason := content, isTerminal, stopReason;
      this.order, this.invokedOrder := order, invokedOrder;
      invoked := new GoMap();
      results := new GoMap();
      new;
      repr := {this, invoked, results, content.backing, order.backing, invokedOrder.backing};
    }

    ghost predicate Owns()
      reads this, repr
    {
      && this in repr && invoked in repr && results in repr
      && content.backing in repr && order.backing in repr && invokedOrder.backing in repr
      && content.Fits() && order.Fits() && invokedOrder.Fits()
      && forall k | k in invoked.m && invoked.m[k].key != null :: invoked.m[k].key in repr
    }

    /** The memory of the step holds the record `r`. */
    ghost predicate Holds(r: StepRecord)
      reads this, repr
    {
      && Owns()
      && content.Items() == r.content && isTerminal == r.isTerminal && stopReason == r.stopReason
      && order.Items() == r.order && invokedOrder.Items() == r.invokedOrder && results.m == r.results
      && invoked.m.Keys == r.invoked.Keys && forall k | k in invoked.m :: invoked.m[k].Holds(r.invoked[k])
    }
  }

  /** The cells hold these step records, in memory of `repr`. */
  ghost predicate Show(steps: seq<StepCell>, records: seq<StepRecord>, repr: set<object>)
    reads repr
  {
    && |steps| == |records|
    && forall i | 0 <= i < |steps| :: steps[i] in repr && steps[i].repr <= repr && steps[i].Holds(records[i])
  }

  /** The latest step, the one that is written to, shares no memory with the others, nor its two lists with each other. */
  ghost predicate Apart(steps: seq<StepCell>, records: seq<StepRecord>, repr: set<object>)
    reads repr
  {
    steps != [] && records != [] ==>
      var first, last := |steps| - 1, steps[|steps| - 1];
      last in repr && last.order.backing != last.invokedOrder.backing
      && Show(steps[..first], records[..|records| - 1], repr - last.repr)
  }

  lemma ShowMore(steps: seq<StepCell>, step: StepCell, repr: set<object>, records: seq<StepRecord>, r: StepRecord)
    requires Show(steps, records, repr) && step.Holds(r) && step.repr !! repr
    ensures Show(steps + [step], records + [r], repr + step.repr)
    ensures step.order.backing != step.invokedOrder.backing ==> Apart(steps + [step], records + [r], repr + step.repr)
  {
    assert (steps + [step])[..|steps|] == steps && (records + [r])[..|records|] == records;
    assert repr + step.repr - step.repr == repr;
  }

  // ---------------------------------------------------------------- cloning

  method CopyMap<K(==), V>(source: GoMap<K, V>, target: GoMap<K, V>)
    requires target != source && target.m == map[]
    modifies target
    ensures target.m == source.m
  {
    var left := source.m.Keys;
    while left != {}
      invariant left <= source.m.Keys && target.m.Keys <= source.m.Keys
      invariant forall k | k in source.m :: k in left || (k in target.m && target.m[k] == source.m[k])
      decreases |left|
    {
      var k :| k in left;
      target.m := target.m[k := source.m[k]];
      left := left - {k};
    }
  }

  method ClonePointer<T>(p: Pointer?<T>) returns (next: Pointer?<T>)
    ensures p == null <==> next == null
    ensures next != null ==> fresh(next) && next.v == p.v
  {
    next := null;
    if p != null {
      next := new Pointer(p.v);
    }
  }

  /** One entry of `invoked`, with a new pointer for its key. */
  method CopyEntry(target: GoMap<string, HeapInvocation>, k: string, entry: HeapInvocation, ghost was: Invocation)
    requires entry.Holds(was)
    modifies target
    ensures k in target.m && target.m == old(target.m)[k := target.m[k]]
    ensures target.m[k].Holds(was) && (target.m[k].key != null ==> fresh(target.m[k].key))
  {
    var key := ClonePointer(entry.key);
    target.m := target.m[k := entry.(key := key)];
  }

  method CopyInvoked(source: GoMap<string, HeapInvocation>, target: GoMap<string, HeapInvocation>, ghost was: map<string, Invocation>)
    requires target != source && target.m == map[]
    requires source.m.Keys == was.Keys && forall k | k in source.m :: source.m[k].Holds(was[k])
    modifies target
    ensures target.m.Keys == was.Keys
    ensures forall k | k in target.m :: target.m[k].Holds(was[k]) && (target.m[k].key != null ==> fresh(target.m[k].key))
  {
    var left := source.m.Keys;
    while left != {}
      invariant left <= was.Keys && target.m.Keys <= was.Keys
      invariant forall k | k in was :: k in left ||
                  (k in target.m && target.m[k].Holds(was[k]) && (target.m[k].key != null ==> fresh(target.m[k].key)))
      decreases |left|
    {
      var k :| k in left;
      CopyEntry(target, k, source.m[k], was[k]);
      left := left - {k};
    }
  }

  /** New backing arrays for the three slices; the maps are still to be filled. */
  method CloneSlices(s: StepCell, ghost r: StepRecord) returns (next: StepCell)
    requires s.Holds(r)
    ensures next.Holds(r.(invoked := map[], results := map[]))
    ensures fresh(next) && fresh(next.repr) && next.order.backing != next.invokedOrder.backing
  {
    var content := CopySlice(s.content);
    var order := CopySlice(s.order);
    var invokedOrder := CopySlice(s.invokedOrder);
    next := new StepCell(content, s.isTerminal, s.stopReason, order, invokedOrder);
  }

  method FillResults(next: StepCell, source: GoMap<string, ToolResult>, ghost r: StepRecord)
    requires next.Holds(r) && r.results == map[] && source != next.results
    modifies next.results
    ensures next.Holds(r.(results := source.m))
  {
    CopyMap(source, next.results);
  }

  method FillInvoked(next: StepCell, source: GoMap<string, HeapInvocation>, ghost r: StepRecord, ghost was: map<string, Invocation>)
    requires next.Holds(r) && r.invoked == map[] && source != next.invoked
    requires source.m.Keys == was.Keys && forall k | k in source.m :: source.m[k].Holds(was[k])
    modifies next`repr, next.invoked
    ensures next.Holds(r.(invoked := was)) && fresh(next.repr - old(next.repr))
  {
    CopyInvoked(source, next.invoked, was);
    next.repr := next.repr + set k | k in next.invoked.m && next.invoked.m[k].key != null :: next.invoked.m[k].key as object;
  }

  method CloneStep(s: StepCell, ghost r: StepRecord) returns (next: StepCell)
    requires s.Holds(r)
    ensures next.Holds(r) && fresh(next) && fresh(next.repr) && next.order.backing != next.invokedOrder.backing
  {
    next := CloneSlices(s, r);
    FillResults(next, s.results, r.(invoked := map[], results := map[]));
    FillInvoked(next, s.invoked, r.(invoked := map[]), r.invoked);
  }

  /** One round of the loop of CloneSteps. */
  method CloneNext(steps: seq<StepCell>, i: nat, next: seq<StepCell>,
                   ghost records: seq<StepRecord>, ghost repr: set<object>, ghost own: set<object>)
      returns (more: seq<StepCell>, ghost moreOwn: set<object>)
    requires Show(steps, records, repr) && i < |steps| && Show(next, records[..i], own)
    ensures Show(more, records[..i + 1], moreOwn) && Apart(more, records[..i + 1], moreOwn) && fresh(moreOwn - own)
    ensures Show(steps, records, repr)
  {
    var step := CloneStep(steps[i], records[i]);
    ShowMore(next, step, own, records[..i], records[i]);
    assert records[..i] + [records[i]] == records[..i + 1];
    more, moreOwn := next + [step], own + step.repr;
  }

  method CloneSteps(steps: seq<StepCell>, ghost records: seq<StepRecord>, ghost repr: set<object>)
      returns (next: seq<StepCell>, ghost own: set<object>)
    requires Show(steps, records, repr)
    ensures Show(next, records, own) && Apart(next, records, own) && fresh(own)
  {
    next, own := [], {};
    var i := 0;
    while i < |steps|
      invariant 0 <= i <= |steps| && fresh(own) && Show(steps, records, repr)
      invariant Show(next, records[..i], own) && Apart(next, records[..i], own)
    {
      next, own := CloneNext(steps, i, next, records, repr, own);
      i := i + 1;
    }
    assert records[..i] == records;
  }

  // ------------------------------------------------------------------- states

  datatype HeapCall = HeapCall(
    toolUseId: string, toolName: string, toolArgs: string, hasSideEffect: bool, key: Pointer?<string>, invokedAt: int)
  {
    /** The call is `call`, with its key in `repr`. */
    ghost predicate Holds(call: ToolCall, repr: set<object>)
      reads repr
    {
      (key == null || key in repr) && call == ToolCall(toolUseId, toolName, toolArgs, hasSideEffect, KeyOf(key), invokedAt)
    }
  }

  ghost predicate ShowsCalls(s: Slice<HeapCall>, calls: seq<ToolCall>, repr: set<object>)
    reads repr
  {
    s.backing in repr && s.Fits() && s.len == |calls| && forall i | 0 <= i < s.len :: s.backing[i].Holds(calls[i], repr)
  }

  ghost predicate ShowsCall(p: Pointer?<HeapCall>, call: Option<ToolCall>, repr: set<object>)
    reads repr
  {
    if p == null then call == None else p in repr && call.Some? && p.v.Holds(call.value, repr)
  }

  ghost predicate ShowsFailure(p: Pointer?<Failure>, failure: Option<Failure>, repr: set<object>)
    reads repr
  {
    if p == null then failure == None else p in repr && failure == Some(p.v)
  }

  /** All of a state but its steps. */
  function HeadPart(v: RunState): RunState {
    v.(steps := [])
  }

  /** The fields of a state that need no memory but the struct's own. */
  function PlainPart(v: RunState): RunState {
    v.(pending := [], inFlight := None, failure := None, steps := [], seen := map[])
  }

  class StateCell {
    var runId: string
    var tenantId: string
    var status: RunStatus
    var currentStep: int
    var maxSteps: int
    var nextSequence: int
    var lastEventId: string
    var lastEventAt: int
    var pending: Slice<HeapCall>
    var inFlight: Pointer?<HeapCall>
    var nextAction: NextAction
    var finalOutput: string
    var failure: Pointer?<Failure>
    var prompt: string
    var steps: seq<StepCell>
    var seen: GoMap<int, string>
    /** The memory of the pending and in-flight calls and of the failure, and that of the steps. */
    ghost var calls: set<object>
    ghost var own: set<object>

    /** The zero RunState. */
    constructor ()
      ensures Shows(EMPTY) && fresh(Memory()) && steps == []
    {
      runId, tenantId, status, currentStep, maxSteps := "", "", NoStatus, 0, 0;
      nextSequence, lastEventId, lastEventAt, inFlight := 0, "", 0, null;
      nextAction, finalOutput, failure, prompt, steps := NoAction, "", null, "", [];
      seen := new GoMap();
      var nothing := NilSlice<HeapCall>();
      pending := nothing;
      new;
      calls, own := {pending.backing}, {};
    }

    /** A struct copy, with these in place of the slices, maps and pointers. */
    constructor Like(s: StateCell, pending: Slice<HeapCall>, inFlight: Pointer?<HeapCall>, failure: Pointer?<Failure>,
                     steps: seq<StepCell>, seen: GoMap<int, string>, ghost calls: set<object>)
      ensures Plain() == s.Plain() && this.calls == calls && own == {}
      ensures this.pending == pending && this.inFlight == inFlight && this.failure == failure
      ensures this.steps == steps && this.seen == seen
    {
      runId, tenantId, status, currentStep, maxSteps := s.runId, s.tenantId, s.status, s.currentStep, s.maxSteps;
      nextSequence, lastEventId, lastEventAt := s.nextSequence, s.lastEventId, s.lastEventAt;
      nextAction, finalOutput, prompt := s.nextAction, s.finalOutput, s.prompt;
      this.pending, this.inFlight, this.failure, this.steps, this.seen := pending, inFlight, failure, steps, seen;
      this.calls, own := calls, {};
    }

    function Plain(): RunState
      reads this
    {
      RunState(runId, tenantId, status, currentStep, maxSteps, nextSequence, lastEventId, lastEventAt,
               [], None, nextAction, finalOutput, None, prompt, [], map[])
    }

    /** All the memory the state reaches. */
    ghost function Memory(): set<object>
      reads this
    {
      {this, seen} + calls + own
    }

    /** Everything but the steps holds what `v` has there, and `v` has none. */
    ghost predicate ShowsHead(v: RunState)
      reads this, seen, calls
    {
      && this !in calls && seen !in calls && seen.m == v.seen && Plain() == PlainPart(v)
      && ShowsCalls(pending, v.pending, calls) && ShowsCall(inFlight, v.inFlight, calls) && ShowsFailure(failure, v.failure, calls)
    }

    /** The memory reachable from here holds the state `v`. */
    ghost predicate Shows(v: RunState)
      reads Memory()
    {
      ShowsHead(HeadPart(v)) && this !in own && seen !in own && Show(steps, v.steps, own)
    }
  }

  // ---------------------------------------------------- cloning states

  /** cloneToolCall. */
  method CloneCall(c: HeapCall, ghost was: ToolCall, ghost repr: set<object>) returns (next: HeapCall, ghost own: set<object>)
    requires c.Holds(was, repr)
    ensures fresh(own) && next.Holds(was, own)
  {
    var key := ClonePointer(c.key);
    next, own := c.(key := key), if key == null then {} else {key};
  }

  method CloneInFlight(p: Pointer?<HeapCall>, ghost was: Option<ToolCall>, ghost repr: set<object>)
      returns (next: Pointer?<HeapCall>, ghost own: set<object>)
    requires ShowsCall(p, was, repr)
    ensures fresh(own) && ShowsCall(next, was, own)
  {
    next, own := null, {};
    if p != null {
      var call, keys := CloneCall(p.v, was.value, repr);
      next := new Pointer(call);
      own := keys + {next};
    }
  }

  method ClonePending(s: Slice<HeapCall>, ghost was: seq<ToolCall>, ghost repr: set<object>)
      returns (next: Slice<HeapCall>, ghost own: set<object>)
    requires ShowsCalls(s, was, repr)
    ensures fresh(own) && ShowsCalls(next, was, own)
  {
    var backing := new HeapCall[s.len];
    next, own := Slice(backing, s.len), {backing};
    var i := 0;
    while i < s.len
      invariant 0 <= i <= s.len && fresh(own) && backing in own
      invariant forall j | 0 <= j < i :: backing[j].Holds(was[j], own)
    {
      var call, keys := CloneCall(s.backing[i], was[i], repr);
      backing[i] := call;
      own := own + keys;
      i := i + 1;
    }
  }

  method CloneSeen(s: GoMap<int, string>) returns (next: GoMap<int, string>)
    ensures fresh(next) && next.m == s.m
  {
    next := new GoMap();
    CopyMap(s, next);
  }

  /** The slices, maps and pointers of a state other than its steps. */
  method CloneParts(s: StateCell, ghost v: RunState)
      returns (pending: Slice<HeapCall>, inFlight: Pointer?<HeapCall>, failure: Pointer?<Failure>, seen: GoMap<int, string>,
               ghost own: set<object>)
    requires s.ShowsHead(v)
    ensures fresh(own) && fresh(seen) && seen !in own && seen.m == v.seen
    ensures ShowsCalls(pending, v.pending, own) && ShowsCall(inFlight, v.inFlight, own) && ShowsFailure(failure, v.failure, own)
  {
    failure := ClonePointer(s.failure);
    seen := CloneSeen(s.seen);
    ghost var own0, own1;
    inFlight, own0 := CloneInFlight(s.inFlight, v.inFlight, s.calls);
    pending, own1 := ClonePending(s.pending, v.pending, s.calls);
    own := own0 + own1 + if failure == null then {} else {failure};
  }

  method CloneHead(s: StateCell, ghost v: RunState) returns (next: StateCell)
    requires s.ShowsHead(v)
    ensures next.ShowsHead(v) && fresh(next.Memory()) && next.own == {}
  {
    var pending, inFlight, failure, seen, own := CloneParts(s, v);
    next := new StateCell.Like(s, pending, inFlight, failure, [], seen, own);
  }

  /** What the latest step's events may write: the step, its maps and the array of its invoked ids. */
  ghost function Writable(steps: seq<StepCell>): set<object>
    reads if steps == [] then null else steps[|steps| - 1]
  {
    if steps == [] then {} else var last := steps[|steps| - 1]; {last, last.invoked, last.results, last.invokedOrder.backing}
  }

  lemma WritableIsOwn(steps: seq<StepCell>, records: seq<StepRecord>, own: set<object>)
    requires Show(steps, records, own)
    ensures Writable(steps) <= own
  {
  }

  /** Nothing else, of the steps or of the `calls` beside them, is in the memory the latest step's events may write. */
  ghost predicate Alone(steps: seq<StepCell>, records: seq<StepRecord>, own: set<object>, calls: set<object>)
    reads own
  {
    Apart(steps, records, own) && (steps != [] ==> steps[|steps| - 1] in own && Writable(steps) !! calls)
  }

  method SetSteps(n: StateCell, steps: seq<StepCell>, ghost own: set<object>, ghost v: RunState)
    requires n.ShowsHead(HeadPart(v)) && n !in own && n.seen !in own && own !! n.calls
    requires Show(steps, v.steps, own) && Apart(steps, v.steps, own)
    modifies n
    ensures n.Shows(v) && Alone(n.steps, v.steps, n.own, n.calls) && n.own == own && n.seen == old(n.seen) && n.calls == old(n.calls)
  {
    WritableIsOwn(steps, v.steps, own);
    n.steps, n.own := steps, own;
  }

  /** cloneRunState: a state of the same value that shares no memory with the original. */
  method CloneState(s: StateCell, ghost v: RunState) returns (next: StateCell)
    requires s.Shows(v)
    ensures next.Shows(v) && fresh(next.Memory()) && Alone(next.steps, v.steps, next.own, next.calls)
  {
    next := CloneHead(s, HeadPart(v));
    var steps, own := CloneSteps(s.steps, v.steps, s.own);
    SetSteps(next, steps, own, v);
  }

  // ------------------------------------------------ writing into the clone

  /** currentStepFor: a pointer to the latest step, if the call is one of its own. */
  method CurrentStepFor(steps: seq<StepCell>, id: string, ghost v: RunState, ghost repr: set<object>)
      returns (r: Result<StepCell, ApplyError>)
    requires Show(steps, v.steps, repr)
    ensures match Replay.CurrentStepFor(v, id)
            case Ok(record) => r.Ok? && steps != [] && r.value == steps[|steps| - 1] && r.value.Holds(record)
            case Err(e) => r == Err(e)
  {
    if steps == [] {
      return Err(UnknownToolUseId);
    }
    var step := steps[|steps| - 1];
    if id !in step.order.Items() {
      return Err(UnknownToolUseId);
    }
    r := Ok(step);
  }

  /** step.invokedOrder = append(step.invokedOrder, id). */
  method NoteOrder(step: StepCell, id: string, ghost r: StepRecord)
    requires step.Holds(r) && step.order.backing != step.invokedOrder.backing
    modifies step, step.invokedOrder.backing
    ensures step.Holds(r.(invokedOrder := r.invokedOrder + [id])) && fresh(step.repr - old(step.repr))
  {
    step.invokedOrder := Append(step.invokedOrder, id);
    step.repr := step.repr + {step.invokedOrder.backing};
  }

  /** step.invoked[id] = invocation{...}, the key behind a pointer of its own. */
  method NoteEntry(step: StepCell, id: string, p: Payload, at: int, ghost r: StepRecord)
    requires p.ToolInvoked? && step.Holds(r)
    modifies step`repr, step.invoked
    ensures step.Holds(r.(invoked := r.invoked[id := Invocation(p.hasSideEffect, p.key, at)])) && fresh(step.repr - old(step.repr))
  {
    var key: Pointer?<string> := null;
    if p.key.Some? {
      key := new Pointer(p.key.value);
      step.repr := step.repr + {key};
    }
    step.invoked.m := step.invoked.m[id := HeapInvocation(p.hasSideEffect, key, at)];
  }

  method NoteInvoked(step: StepCell, id: string, p: Payload, at: int, ghost r: StepRecord)
    requires p.ToolInvoked? && step.Holds(r) && step.order.backing != step.invokedOrder.backing
    modifies step, step.invoked, step.invokedOrder.backing
    ensures step.Holds(r.(invokedOrder := r.invokedOrder + [id], invoked := r.invoked[id := Invocation(p.hasSideEffect, p.key, at)]))
    ensures fresh(step.repr - old(step.repr))
  {
    NoteOrder(step, id, r);
    NoteEntry(step, id, p, at, r.(invokedOrder := r.invokedOrder + [id]));
  }

  /** The latest step took another value, and perhaps new memory. */
  lemma ShowLast(steps: seq<StepCell>, records: seq<StepRecord>, r: StepRecord, rest: set<object>)
    requires steps != [] && |steps| == |records| && steps[|steps| - 1].Holds(r)
    requires Show(steps[..|steps| - 1], records[..|steps| - 1], rest)
    ensures Show(steps, records[|steps| - 1 := r], rest + steps[|steps| - 1].repr)
  {
    var init := steps[..|steps| - 1];
    assert forall i | 0 <= i < |init| :: init[i] == steps[i];
  }

  /** The record of the latest step after an accepted ToolInvoked, and after an accepted ToolResulted. */
  function WithInvoked(records: seq<StepRecord>, p: Payload, at: int): seq<StepRecord>
    requires p.ToolInvoked? && records != []
  {
    var r := records[|records| - 1];
    records[|records| - 1 := r.(invokedOrder := r.invokedOrder + [p.toolUseId],
                                invoked := r.invoked[p.toolUseId := Invocation(p.hasSideEffect, p.key, at)])]
  }

  function WithResult(records: seq<StepRecord>, result: ToolResult): seq<StepRecord>
    requires records != []
  {
    var r := records[|records| - 1];
    records[|records| - 1 := r.(results := r.results[result.toolUseId := result])]
  }

  /** The writes of an accepted ToolInvoked, into the latest step. */
  method RecordInvoked(steps: seq<StepCell>, p: Payload, at: int, ghost records: seq<StepRecord>, ghost repr: set<object>)
      returns (ghost more: set<object>)
    requires p.ToolInvoked? && steps != [] && Show(steps, records, repr) && Apart(steps, records, repr)
    modifies Writable(steps)
    ensures Show(steps, WithInvoked(records, p, at), more) && fresh(more - repr)
  {
    var step := steps[|steps| - 1];
    ghost var r, rest := records[|records| - 1], repr - step.repr;
    NoteInvoked(step, p.toolUseId, p, at, r);
    ShowLast(steps, records, WithInvoked(records, p, at)[|records| - 1], rest);
    more := rest + step.repr;
  }

  /** The checks of applyToolInvoked, which write nothing. */
  method CheckInvoked(steps: seq<StepCell>, p: Payload, at: int, ghost v: RunState, ghost repr: set<object>) returns (err: Option<ApplyError>)
    requires p.ToolInvoked? && Show(steps, v.steps, repr)
    ensures var w := Replay.ApplyToolInvoked(v, p, at);
            if err == None then v.steps != [] && w == Ok(v.(steps := WithInvoked(v.steps, p, at))) else w == Err(err.value)
  {
    var current := CurrentStepFor(steps, p.toolUseId, v, repr);
    if current.Err? {
      return Some(current.error);
    }
    err := if p.toolUseId in current.value.invokedOrder.Items() then Some(ToolOrder) else None;
  }

  method Invoked(steps: seq<StepCell>, p: Payload, at: int, ghost v: RunState, ghost repr: set<object>)
      returns (err: Option<ApplyError>, ghost more: set<object>)
    requires p.ToolInvoked? && Show(steps, v.steps, repr) && Apart(steps, v.steps, repr)
    modifies Writable(steps)
    ensures StepsBecame(steps, more, Replay.ApplyToolInvoked(v, p, at), err) && HeadStays(v, Replay.ApplyToolInvoked(v, p, at))
    ensures fresh(more - repr)
  {
    err := CheckInvoked(steps, p, at, v, repr);
    more := repr;
    if err == None {
      more := RecordInvoked(steps, p, at, v.steps, repr);
    }
  }

  /** The write of an accepted ToolResulted, into the latest step. */
  method RecordResult(steps: seq<StepCell>, result: ToolResult, ghost records: seq<StepRecord>, ghost repr: set<object>)
    requires steps != [] && Show(steps, records, repr) && Apart(steps, records, repr)
    modifies Writable(steps)
    ensures Show(steps, WithResult(records, result), repr)
  {
    var step := steps[|steps| - 1];
    ghost var rest := repr - step.repr;
    step.results.m := step.results.m[result.toolUseId := result];
    ShowLast(steps, records, WithResult(records, result)[|records| - 1], rest);
    assert rest + step.repr == repr;
  }

  /** The checks of applyToolResulted, which write nothing. */
  method CheckResulted(steps: seq<StepCell>, r: ToolResult, ghost v: RunState, ghost repr: set<object>) returns (err: Option<ApplyError>)
    requires Show(steps, v.steps, repr)
    ensures var w := Replay.ApplyToolResulted(v, r);
            if err == None then v.steps != [] && w == Ok(v.(steps := WithResult(v.steps, r))) else w == Err(err.value)
  {
    var current := CurrentStepFor(steps, r.toolUseId, v, repr);
    if current.Err? {
      return Some(current.error);
    }
    var step := current.value;
    err := if r.toolUseId !in step.invokedOrder.Items() || r.toolUseId in step.results.m then Some(ToolOrder) else None;
  }

  method Resulted(steps: seq<StepCell>, r: ToolResult, ghost v: RunState, ghost repr: set<object>) returns (err: Option<ApplyError>)
    requires Show(steps, v.steps, repr) && Apart(steps, v.steps, repr)
    modifies Writable(steps)
    ensures StepsBecame(steps, repr, Replay.ApplyToolResulted(v, r), err) && HeadStays(v, Replay.ApplyToolResulted(v, r))
  {
    err := CheckResulted(steps, r, v, repr);
    if err == None {
      RecordResult(steps, r, v.steps, repr);
    }
  }

  /** A slice the decoder has just allocated. */
  method Decoded(items: seq<Block>) returns (s: Slice<Block>)
    ensures s.Fits() && fresh(s.backing) && s.Items() == items
  {
    var backing := new Block[|items|](i requires 0 <= i < |items| => items[i]);
    s := Slice(backing, |items|);
  }

  lemma NextId(blocks: seq<Block>, i: nat, ids: seq<string>)
    requires i < |blocks|
    ensures ids + ToolUseIds(blocks[i..]) ==
            (if blocks[i].ToolUse? then ids + [blocks[i].id] else ids) + ToolUseIds(blocks[i + 1..])
  {
    assert blocks[i..][0] == blocks[i] && blocks[i..][1..] == blocks[i + 1..];
  }

  /** The ids of the tool_use blocks, in content order, appended one by one. */
  method OrderOf(content: Slice<Block>, ghost blocks: seq<Block>) returns (order: Slice<string>)
    requires content.Fits() && content.Items() == blocks
    ensures order.Fits() && fresh(order.backing) && order.Items() == ToolUseIds(blocks)
  {
    order := NilSlice();
    var i := 0;
    while i < content.len
      invariant 0 <= i <= content.len && order.Fits() && fresh(order.backing) && content.Items() == blocks
      invariant order.Items() + ToolUseIds(blocks[i..]) == ToolUseIds(blocks)
    {
      NextId(blocks, i, order.Items());
      var block := content.backing[i];
      assert block == blocks[i];
      if block.ToolUse? {
        order := Append(order, block.id);
      }
      i := i + 1;
    }
  }

  /** Is the previous step's batch of calls still open? */
  method BatchOpen(steps: seq<StepCell>, ghost v: RunState, ghost repr: set<object>) returns (open: bool)
    requires Show(steps, v.steps, repr)
    ensures open == (v.steps != [] && v.steps[|v.steps| - 1].order != [] && !AllResulted(v.steps[|v.steps| - 1]))
  {
    if steps == [] {
      return false;
    }
    var prev := steps[|steps| - 1];
    open := prev.order.len > 0 && exists id | id in prev.order.Items() :: id !in prev.results.m;
  }

  method NewStep(p: Payload, content: seq<Block>) returns (step: StepCell)
    requires p.LLMResponded?
    ensures step.Holds(StepRecord(content, p.isTerminal, p.stopReason, map[], ToolUseIds(content), [], map[])) && fresh(step.repr)
  {
    var blocks := Decoded(content);
    var order := OrderOf(blocks, content);
    var invokedOrder := NilSlice();
    step := new StepCell(blocks, p.isTerminal, p.stopReason, order, invokedOrder);
  }

  method Responded(steps: seq<StepCell>, p: Payload, ghost v: RunState, ghost repr: set<object>) returns (r: Result<StepCell, ApplyError>)
    requires p.LLMResponded? && Show(steps, v.steps, repr)
    ensures var w := Replay.ApplyLLMResponded(v, p);
            if w.Err? then r == Err(w.error)
            else r.Ok? && fresh(r.value.repr) && Show(steps + [r.value], w.value.steps, repr + r.value.repr)
  {
    var open := BatchOpen(steps, v, repr);
    if open {
      return Err(ToolOrder);
    }
    if p.content.None? {
      return Err(InvalidPayload);
    }
    var step := NewStep(p, p.content.value);
    ghost var w := Replay.ApplyLLMResponded(v, p).value;
    ShowMore(steps, step, repr, v.steps, w.steps[|steps|]);
    r := Ok(step);
  }

  /** The writes made the state what the fold makes it, or failed as the fold fails. */
  ghost predicate Became(n: StateCell, w: Result<RunState, ApplyError>, err: Option<ApplyError>)
    reads n, n.Memory()
  {
    if w.Ok? then err == None && n.Shows(w.value) else err == Some(w.error)
  }

  /** A change of the steps alone, and its error. */
  ghost predicate StepsBecame(steps: seq<StepCell>, own: set<object>, w: Result<RunState, ApplyError>, err: Option<ApplyError>)
    reads own
  {
    if w.Ok? then err == None && Show(steps, w.value.steps, own) else err == Some(w.error)
  }

  predicate HeadStays(v: RunState, w: Result<RunState, ApplyError>) {
    w.Ok? ==> HeadPart(w.value) == HeadPart(v)
  }

  lemma Together(n: StateCell, v: RunState, w: Result<RunState, ApplyError>, err: Option<ApplyError>)
    requires n.ShowsHead(HeadPart(v)) && HeadStays(v, w) && n !in n.own && n.seen !in n.own && StepsBecame(n.steps, n.own, w, err)
    ensures Became(n, w, err)
  {
  }

  ghost method Grow(n: StateCell, more: set<object>, v: RunState)
    requires n.ShowsHead(v)
    modifies n`own
    ensures n.own == more && n.ShowsHead(v)
  {
    n.own := more;
  }

  /** No memory of the state is in `before`: what was there before stays out of reach. */
  ghost predicate Avoids(n: StateCell, before: set<object>)
    reads n
  {
    n !in before && n.seen !in before && n.calls !! before && n.own !! before
  }

  method InvokedOn(n: StateCell, p: Payload, at: int, ghost v: RunState, ghost before: set<object>) returns (err: Option<ApplyError>)
    requires p.ToolInvoked? && n.Shows(v) && Alone(n.steps, v.steps, n.own, n.calls) && Avoids(n, before)
    modifies n`own, Writable(n.steps)
    ensures Became(n, Replay.ApplyPayload(v, p, at), err) && Avoids(n, before) && n.seen == old(n.seen)
  {
    ghost var more;
    WritableIsOwn(n.steps, v.steps, n.own);
    err, more := Invoked(n.steps, p, at, v, n.own);
    Grow(n, more, HeadPart(v));
    Together(n, v, Replay.ApplyToolInvoked(v, p, at), err);
  }

  method ResultedOn(n: StateCell, r: ToolResult, at: int, ghost v: RunState, ghost before: set<object>) returns (err: Option<ApplyError>)
    requires n.Shows(v) && Alone(n.steps, v.steps, n.own, n.calls) && Avoids(n, before)
    modifies Writable(n.steps)
    ensures Became(n, Replay.ApplyPayload(v, ToolResulted(r), at), err) && Avoids(n, before) && n.seen == old(n.seen)
  {
    WritableIsOwn(n.steps, v.steps, n.own);
    err := Resulted(n.steps, r, v, n.own);
    Together(n, v, Replay.ApplyToolResulted(v, r), err);
  }

  method AppendStep(n: StateCell, step: StepCell, number: int, ghost v: RunState, ghost w: RunState)
    requires n.ShowsHead(HeadPart(v)) && n !in n.own + step.repr && n.seen !in n.own + step.repr
    requires HeadPart(w) == HeadPart(v).(currentStep := number) && Show(n.steps + [step], w.steps, n.own + step.repr)
    modifies n
    ensures n.Shows(w) && n.seen == old(n.seen) && n.calls == old(n.calls) && n.own == old(n.own) + step.repr
  {
    n.currentStep := number;
    n.steps, n.own := n.steps + [step], n.own + step.repr;
  }

  method RespondedOn(n: StateCell, p: Payload, at: int, ghost v: RunState, ghost before: set<object>) returns (err: Option<ApplyError>)
    requires p.LLMResponded? && n.Shows(v) && Avoids(n, before)
    modifies n
    ensures Became(n, Replay.ApplyPayload(v, p, at), err) && Avoids(n, before) && n.seen == old(n.seen)
  {
    var step := Responded(n.steps, p, v, n.own);
    if step.Err? {
      return Some(step.error);
    }
    AppendStep(n, step.value, p.step, v, Replay.ApplyLLMResponded(v, p).value);
    err := None;
  }

  predicate OnlyFields(p: Payload) {
    !p.LLMResponded? && !p.ToolInvoked? && !p.ToolResulted?
  }

  lemma FieldsAlone(v: RunState, p: Payload, at: int)
    requires OnlyFields(p)
    ensures var w, h := Replay.ApplyPayload(v, p, at), Replay.ApplyPayload(HeadPart(v), p, 0);
            if w.Ok? then h.Ok? && w.value.steps == v.steps && HeadPart(w.value) == h.value else h == w
  {
  }

  /** Only the head changed: the steps are the same cells, and what is new was just allocated. */
  twostate predicate OnlyHead(n: StateCell)
    reads n
  {
    n.steps == old(n.steps) && n.own == old(n.own) && n.seen == old(n.seen) && fresh(n.calls - old(n.calls))
  }

  ghost predicate HeadBecame(n: StateCell, w: Result<RunState, ApplyError>, err: Option<ApplyError>)
    reads n, n.seen, n.calls
  {
    if w.Ok? then err == None && n.ShowsHead(w.value) else err == Some(w.error)
  }

  method Started(n: StateCell, p: Payload, ghost h: RunState) returns (err: Option<ApplyError>)
    requires p.RunStarted? && n.ShowsHead(h)
    modifies n
    ensures HeadBecame(n, Replay.ApplyPayload(h, p, 0), err) && OnlyHead(n)
  {
    n.status, n.currentStep, n.maxSteps := Running, 0, p.maxSteps;
    if p.input.None? {
      return Some(InvalidPayload);
    }
    n.prompt := p.input.value;
    err := None;
    assert n.Plain() == PlainPart(Replay.ApplyPayload(h, p, 0).value);
  }

  method SetStatus(n: StateCell, status: RunStatus, output: string, ghost h: RunState)
    requires n.ShowsHead(h)
    modifies n
    ensures n.ShowsHead(h.(status := status, finalOutput := output)) && OnlyHead(n)
  {
    n.status, n.finalOutput := status, output;
  }

  ghost method GrowCalls(n: StateCell, more: set<object>, h: RunState)
    requires n.ShowsHead(h) && n !in more && n.seen !in more
    modifies n`calls
    ensures n.ShowsHead(h) && n.calls == old(n.calls) + more
  {
    n.calls := n.calls + more;
  }

  method SetFailure(n: StateCell, failure: Pointer<Failure>, ghost h: RunState)
    requires n.ShowsHead(h) && failure in n.calls
    modifies n`status, n`failure
    ensures n.ShowsHead(h.(status := Failed, failure := Some(failure.v)))
  {
    n.status, n.failure := Failed, failure;
  }

  method SetFailed(n: StateCell, failure: Failure, ghost h: RunState)
    requires n.ShowsHead(h)
    modifies n
    ensures n.ShowsHead(h.(status := Failed, failure := Some(failure))) && OnlyHead(n)
  {
    var copy := new Pointer(failure);
    GrowCalls(n, {copy}, h);
    SetFailure(n, copy, h);
  }

  /** The payloads that only set fields. */
  method SetFields(n: StateCell, p: Payload, ghost h: RunState) returns (err: Option<ApplyError>)
    requires OnlyFields(p) && n.ShowsHead(h)
    modifies n
    ensures HeadBecame(n, Replay.ApplyPayload(h, p, 0), err) && OnlyHead(n)
  {
    err := None;
    match p
    case RunStarted(_, _, _) => err := Started(n, p, h);
    case AwaitingApproval(_) => SetStatus(n, WaitingApproval, n.finalOutput, h);
    case RunApproved(_) => SetStatus(n, Running, n.finalOutput, h);
    case RunCompleted(finalOutput, _) => SetStatus(n, Completed, finalOutput, h);
    case RunFailed(failure) => SetFailed(n, failure, h);
    case RunCancelled(_) => SetStatus(n, Cancelled, n.finalOutput, h);
    case Malformed(_) => err := Some(InvalidPayload);
  }

  method FieldsOn(n: StateCell, p: Payload, at: int, ghost v: RunState, ghost before: set<object>) returns (err: Option<ApplyError>)
    requires OnlyFields(p) && n.Shows(v) && Avoids(n, before)
    modifies n
    ensures Became(n, Replay.ApplyPayload(v, p, at), err) && Avoids(n, before) && n.seen == old(n.seen)
  {
    FieldsAlone(v, p, at);
    err := SetFields(n, p, HeadPart(v));
  }

  method ApplyPayload(n: StateCell, p: Payload, at: int, ghost v: RunState, ghost before: set<object>) returns (err: Option<ApplyError>)
    requires n.Shows(v) && Alone(n.steps, v.steps, n.own, n.calls) && Avoids(n, before)
    modifies n, Writable(n.steps)
    ensures Became(n, Replay.ApplyPayload(v, p, at), err) && Avoids(n, before) && n.seen == old(n.seen)
  {
    match p
    case LLMResponded(_, _, _, _) =>  err := RespondedOn(n, p, at, v, before);
    case ToolInvoked(_, _, _, _, _, _) => err := InvokedOn(n, p, at, v, before);
    case ToolResulted(r) => err := ResultedOn(n, r, at, v, before);
    case _ => err := FieldsOn(n, p, at, v, before);
  }

  // --------------------------------------------------------- derived fields

  lemma DeriveNext(step: StepRecord, ids: seq<string>, i: nat)
    requires i < |ids|
    ensures var id, here, there := ids[i], ids[i..], ids[i + 1..];
            var call := ToolCallFromContent(step.content, id);
            && PendingCalls(step, here) ==
               (if id !in step.results && id !in step.invokedOrder && call.Some? then [call.value] else []) + PendingCalls(step, there)
            && FirstInFlight(step, here) ==
               if id !in step.results && id in step.invokedOrder && call.Some? then Some(WithInvocation(call.value, step.invoked, id))
               else FirstInFlight(step, there)
  {
    assert ids[i..][0] == ids[i] && ids[i..][1..] == ids[i + 1..];
  }

  /** What the loop of deriveToolState does with one call of the step. */
  datatype Derived = Skip | Pending(call: HeapCall) | InFlight(call: HeapCall)

  ghost predicate DerivedAs(d: Derived, step: StepRecord, id: string, repr: set<object>)
    reads repr
  {
    var call := ToolCallFromContent(step.content, id);
    match d
    case Skip => id in step.results || call.None?
    case Pending(c) => id !in step.results && id !in step.invokedOrder && call.Some? && c.key == null && c.Holds(call.value, {})
    case InFlight(c) => id !in step.results && id in step.invokedOrder && call.Some? && c.Holds(WithInvocation(call.value, step.invoked, id), repr)
  }

  lemma CallFromContent(content: seq<Block>, id: string)
    ensures var call := ToolCallFromContent(content, id);
            call.Some? ==> call.value == ToolCall(id, call.value.toolName, call.value.toolArgs, false, None, 0)
  {
  }

  method DeriveOne(last: StepCell, id: string, ghost step: StepRecord) returns (d: Derived)
    requires last.Holds(step)
    ensures DerivedAs(d, step, id, last.repr)
  {
    if id in last.results.m {
      return Skip;
    }
    var call := ToolCallFromContent(last.content.Items(), id);
    CallFromContent(last.content.Items(), id);
    if call.None? {
      return Skip;
    }
    var c := HeapCall(id, call.value.toolName, call.value.toolArgs, false, null, 0);
    if id !in last.invokedOrder.Items() {
      return Pending(c);
    }
    if id in last.invoked.m {
      var inv := last.invoked.m[id];
      c := c.(hasSideEffect := inv.hasSideEffect, key := inv.key, invokedAt := inv.invokedAt);
    }
    d := InFlight(c);
  }

  ghost predicate ShowsInFlight(c: Option<HeapCall>, call: Option<ToolCall>, repr: set<object>)
    reads repr
  {
    if c.None? then call == None else call.Some? && c.value.Holds(call.value, repr)
  }

  method AppendPending(s: Slice<HeapCall>, c: HeapCall, ghost calls: seq<ToolCall>, ghost call: ToolCall) returns (r: Slice<HeapCall>)
    requires ShowsCalls(s, calls, {s.backing}) && c.Holds(call, {})
    modifies s.backing
    ensures ShowsCalls(r, calls + [call], {r.backing}) && (r.backing == s.backing || fresh(r.backing))
  {
    r := Append(s, c);
    assert forall i | 0 <= i < s.len :: r.Items()[i] == old(s.Items()[i]);
    assert forall i | 0 <= i < r.len :: r.backing[i] == r.Items()[i];
  }

  /** The calls before the i-th have been derived. */
  ghost predicate DerivedSoFar(pending: Slice<HeapCall>, inFlight: Option<HeapCall>, calls: seq<ToolCall>,
                               step: StepRecord, i: nat, repr: set<object>)
    reads pending.backing, repr
  {
    && i <= |step.order| && ShowsCalls(pending, calls, {pending.backing})
    && calls + PendingCalls(step, step.order[i..]) == PendingCalls(step, step.order)
    && (inFlight.None? ==> FirstInFlight(step, step.order[i..]) == FirstInFlight(step, step.order))
    && (inFlight.Some? ==> ShowsInFlight(inFlight, FirstInFlight(step, step.order), repr))
  }

  method DeriveRound(last: StepCell, id: string, pending: Slice<HeapCall>, inFlight: Option<HeapCall>, ghost i: nat,
                     ghost calls: seq<ToolCall>, ghost step: StepRecord)
      returns (nextPending: Slice<HeapCall>, nextInFlight: Option<HeapCall>, ghost nextCalls: seq<ToolCall>)
    requires last.Holds(step) && pending.backing !in last.repr && i < |step.order| && id == step.order[i]
    requires DerivedSoFar(pending, inFlight, calls, step, i, last.repr)
    modifies pending.backing
    ensures DerivedSoFar(nextPending, nextInFlight, nextCalls, step, i + 1, last.repr)
    ensures nextPending.backing == pending.backing || fresh(nextPending.backing)
  {
    nextPending, nextInFlight, nextCalls := pending, inFlight, calls;
    DeriveNext(step, step.order, i);
    var d := DeriveOne(last, id, step);
    match d {
      case Skip =>
      case InFlight(c) =>
        if inFlight.None? {
          nextInFlight := Some(c);
        }
      case Pending(c) =>
        ghost var call := ToolCallFromContent(step.content, id).value;
        nextPending := AppendPending(pending, c, calls, call);
        nextCalls := calls + [call];
    }
  }

  /** The loop of deriveToolState over the calls of the latest step. */
  method DeriveFrom(last: StepCell, ghost step: StepRecord) returns (pending: Slice<HeapCall>, inFlight: Option<HeapCall>)
    requires last.Holds(step)
    ensures fresh(pending.backing) && ShowsCalls(pending, PendingCalls(step, step.order), {pending.backing})
    ensures ShowsInFlight(inFlight, FirstInFlight(step, step.order), last.repr)
  {
    pending := NilSlice();
    inFlight := None;
    ghost var calls: seq<ToolCall> := [];
    var i := 0;
    while i < last.order.len
      invariant 0 <= i <= last.order.len && last.Holds(step) && fresh(pending.backing)
      invariant DerivedSoFar(pending, inFlight, calls, step, i, last.repr)
    {
      var id := last.order.backing[i];
      assert id == last.order.Items()[i];
      pending, inFlight, calls := DeriveRound(last, id, pending, inFlight, i, calls, step);
      i := i + 1;
    }
  }

  method PointTo(c: Option<HeapCall>, ghost call: Option<ToolCall>, ghost repr: set<object>)
      returns (p: Pointer?<HeapCall>, ghost own: set<object>)
    requires ShowsInFlight(c, call, repr)
    ensures ShowsCall(p, call, own) && fresh(own - repr)
  {
    p, own := null, {};
    if c.Some? {
      p := new Pointer(c.value);
      own := if c.value.key == null then {p as object} else {p as object, c.value.key};
    }
  }

  /** The fields deriveToolState sets, from the latest step. */
  method DeriveCalls(steps: seq<StepCell>, ghost v: RunState, ghost repr: set<object>)
      returns (pending: Slice<HeapCall>, inFlight: Pointer?<HeapCall>, ghost own: set<object>)
    requires Show(steps, v.steps, repr)
    ensures ShowsCalls(pending, Replay.DeriveToolState(v).pending, own)
    ensures ShowsCall(inFlight, Replay.DeriveToolState(v).inFlight, own) && fresh(own - repr)
  {
    if steps == [] {
      pending := NilSlice();
      return pending, null, {pending.backing};
    }
    var last := steps[|steps| - 1];
    ghost var step := v.steps[|v.steps| - 1];
    var found;
    pending, found := DeriveFrom(last, step);
    inFlight, own := PointTo(found, FirstInFlight(step, step.order), last.repr);
    own := own + {pending.backing};
  }

  lemma InMore(pending: Slice<HeapCall>, inFlight: Pointer?<HeapCall>, calls: seq<ToolCall>, call: Option<ToolCall>,
               own: set<object>, more: set<object>)
    requires ShowsCalls(pending, calls, own) && ShowsCall(inFlight, call, own) && own <= more
    ensures ShowsCalls(pending, calls, more) && ShowsCall(inFlight, call, more)
  {
  }

  method SetCalls(n: StateCell, pending: Slice<HeapCall>, inFlight: Pointer?<HeapCall>, ghost h: RunState,
                  ghost calls: seq<ToolCall>, ghost call: Option<ToolCall>)
    requires n.ShowsHead(h) && ShowsCalls(pending, calls, n.calls) && ShowsCall(inFlight, call, n.calls)
    modifies n`pending, n`inFlight
    ensures n.ShowsHead(h.(pending := calls, inFlight := call))
  {
    n.pending, n.inFlight := pending, inFlight;
  }

  /** The same, for calls in memory the state does not yet count as its own. */
  method Adopt(n: StateCell, pending: Slice<HeapCall>, inFlight: Pointer?<HeapCall>, ghost h: RunState,
               ghost calls: seq<ToolCall>, ghost call: Option<ToolCall>, ghost own: set<object>)
    requires n.ShowsHead(h) && ShowsCalls(pending, calls, own) && ShowsCall(inFlight, call, own)
    requires n !in own && n.seen !in own
    modifies n`pending, n`inFlight, n`calls
    ensures n.ShowsHead(h.(pending := calls, inFlight := call)) && n.calls == old(n.calls) + own
  {
    GrowCalls(n, own, h);
    InMore(pending, inFlight, calls, call, own, n.calls);
    SetCalls(n, pending, inFlight, h, calls, call);
  }

  lemma DerivedHead(v: RunState)
    ensures var d := Replay.DeriveToolState(v);
            HeadPart(d) == HeadPart(v).(pending := d.pending, inFlight := d.inFlight) && d.steps == v.steps
  {
  }

  /** deriveToolState. */
  method DeriveState(n: StateCell, ghost v: RunState) returns (ghost own: set<object>)
    requires n.ShowsHead(HeadPart(v)) && Show(n.steps, v.steps, n.own) && n !in n.own && n.seen !in n.own
    modifies n`pending, n`inFlight, n`calls
    ensures n.ShowsHead(HeadPart(Replay.DeriveToolState(v))) && Show(n.steps, v.steps, n.own)
    ensures n.calls == old(n.calls) + own && fresh(own - n.own)
  {
    DerivedHead(v);
    ghost var d := Replay.DeriveToolState(v);
    var pending, inFlight;
    pending, inFlight, own := DeriveCalls(n.steps, v, n.own);
    Adopt(n, pending, inFlight, HeadPart(v), d.pending, d.inFlight, own);
  }

  /** computeNextAction on the cell. */
  method NextActionOf(n: StateCell, ghost v: RunState) returns (a: NextAction)
    requires n.Shows(v)
    ensures a == ComputeNextAction(v)
  {
    if IsTerminalStatus(n.status) || n.status == WaitingApproval {
      return ActionNone;
    }
    if n.steps == [] {
      return CallLLM;
    }
    if n.inFlight != null {
      return ResolveInFlightTool;
    }
    var last := n.steps[|n.steps| - 1];
    if last.isTerminal {
      return FinishRun;
    }
    if n.pending.len > 0 {
      return ExecuteTool;
    }
    if last.order.len == 0 {
      return FinishRun;
    }
    a := if n.currentStep < n.maxSteps then CallLLM else FailMaxSteps;
  }

  // ------------------------------------------------------------------- apply

  method WriteBooks(n: StateCell, e: Envelope, action: NextAction, ghost h: RunState)
    requires n.ShowsHead(h)
    modifies n`nextAction, n`nextSequence, n`lastEventId, n`lastEventAt, n.seen
    ensures n.ShowsHead(h.(nextAction := action, nextSequence := e.seqNo + 1, lastEventId := e.eventId, lastEventAt := e.occurredAt,
                           seen := h.seen[e.seqNo := e.eventId]))
  {
    n.nextAction, n.nextSequence := action, e.seqNo + 1;
    n.lastEventId, n.lastEventAt := e.eventId, e.occurredAt;
    n.seen.m := n.seen.m[e.seqNo := e.eventId];
  }

  lemma BookkeptHead(v: RunState, e: Envelope)
    ensures var d, b := Replay.DeriveToolState(v), Replay.Bookkeep(v, e);
            && b.steps == d.steps && d.steps == v.steps
            && HeadPart(b) == HeadPart(d).(nextAction := ComputeNextAction(d), nextSequence := e.seqNo + 1,
                 lastEventId := e.eventId, lastEventAt := e.occurredAt, seen := d.seen[e.seqNo := e.eventId])
  {
  }

  /** NextAction, then bookkeeping, on derived fields. */
  method BookNext(n: StateCell, e: Envelope, ghost d: RunState)
    requires n.Shows(d)
    modifies n`nextAction, n`nextSequence, n`lastEventId, n`lastEventAt, n.seen
    ensures n.ShowsHead(HeadPart(d).(nextAction := ComputeNextAction(d), nextSequence := e.seqNo + 1,
              lastEventId := e.eventId, lastEventAt := e.occurredAt, seen := d.seen[e.seqNo := e.eventId]))
    ensures Show(n.steps, d.steps, n.own)
  {
    var action := NextActionOf(n, d);
    WriteBooks(n, e, action, HeadPart(d));
  }

  /** Derived fields, then bookkeeping, written into the clone. */
  method Bookkeep(n: StateCell, e: Envelope, ghost v: RunState, ghost before: set<object>)
    requires n.Shows(v) && Avoids(n, before)
    modifies n, n.seen
    ensures n.Shows(Replay.Bookkeep(v, e)) && Avoids(n, before)
  {
    BookkeptHead(v, e);
    ghost var own := DeriveState(n, v);
    BookNext(n, e, Replay.DeriveToolState(v));
  }

  function Booked(w: Result<RunState, ApplyError>, e: Envelope): Result<RunState, ApplyError> {
    if w.Ok? then Ok(Replay.Bookkeep(w.value, e)) else w
  }

  method WriteEvent(n: StateCell, e: Envelope, ghost v: RunState, ghost before: set<object>) returns (err: Option<ApplyError>)
    requires n.Shows(v) && Alone(n.steps, v.steps, n.own, n.calls) && Avoids(n, before)
    modifies n, n.seen, Writable(n.steps)
    ensures Became(n, Booked(Replay.ApplyPayload(v, e.payload, e.occurredAt), e), err) && Avoids(n, before)
  {
    err := ApplyPayload(n, e.payload, e.occurredAt, v, before);
    if err.None? {
      Bookkeep(n, e, Replay.ApplyPayload(v, e.payload, e.occurredAt).value, before);
    }
  }

  /** The first event names the run. */
  function Named(v: RunState, e: Envelope): RunState {
    if v.seen == map[] then v.(runId := e.runId, tenantId := e.tenantId) else v
  }

  method Name(n: StateCell, e: Envelope, ghost h: RunState)
    requires n.ShowsHead(h)
    modifies n`runId, n`tenantId
    ensures n.ShowsHead(Named(h, e))
  {
    if n.seen.m == map[] {
      n.runId, n.tenantId := e.runId, e.tenantId;
    }
  }

  lemma NamedHead(v: RunState, e: Envelope)
    ensures HeadPart(Named(v, e)) == Named(HeadPart(v), e) && Named(v, e).steps == v.steps
  {
  }

  method Rename(n: StateCell, e: Envelope, ghost v: RunState)
    requires n.Shows(v) && Alone(n.steps, v.steps, n.own, n.calls)
    modifies n`runId, n`tenantId
    ensures n.Shows(Named(v, e)) && Alone(n.steps, v.steps, n.own, n.calls)
  {
    NamedHead(v, e);
    Name(n, e, HeadPart(v));
  }

  method NamedClone(s: StateCell, e: Envelope, ghost v: RunState) returns (next: StateCell)
    requires s.Shows(v)
    ensures next.Shows(Named(v, e)) && Alone(next.steps, v.steps, next.own, next.calls) && fresh(next.Memory())
  {
    next := CloneState(s, v);
    Rename(next, e, v);
  }

  /** The part of Apply that writes: into a clone, never into `s`. */
  method ApplyToClone(s: StateCell, e: Envelope, ghost v: RunState, ghost before: set<object>)
      returns (next: StateCell, err: Option<ApplyError>)
    requires s.Shows(v)
    ensures Became(next, Booked(Replay.ApplyPayload(Named(v, e), e.payload, e.occurredAt), e), err) && Avoids(next, before)
  {
    next := NamedClone(s, e, v);
    NamedHead(v, e);
    WritableIsOwn(next.steps, v.steps, next.own);
    assert Avoids(next, before);
    err := WriteEvent(next, e, Named(v, e), before);
  }

  method StructuralCheck(s: StateCell, e: Envelope, ghost v: RunState) returns (err: Option<ApplyError>)
    requires s.ShowsHead(HeadPart(v))
    ensures err == StructuralError(v, e)
  {
    if s.seen.m == map[] {
      if e.seqNo != 0 || e.payload.Type() != RunStartedEvent {
        return Some(FirstEventNotStart);
      }
      return None;
    }
    if e.runId != s.runId {
      return Some(RunIdMismatch);
    }
    if IsTerminalStatus(s.status) {
      return Some(EventAfterTerminal);
    }
    err := if e.seqNo != s.nextSequence then Some(SequenceGap) else None;
  }

  /**
   Apply, with everything it reaches on the heap. It may write nothing that was
   there before: every map, pointer, step and backing array of the input state is
   what it was, on success and on every error. The result is the fold's, and it
   reaches no object of `before`, which may be all that was there before, the input's
   memory included (a redelivery gives back the input itself).
   */
  method Apply(s: StateCell, e: Envelope, ghost v: RunState, ghost before: set<object>) returns (r: Result<StateCell, ApplyError>)
    requires s.Shows(v)
    ensures s.Shows(v)
    ensures match Replay.Apply(v, e)
            case Ok(w) => r.Ok? && r.value.Shows(w) && (if e.seqNo in v.seen then r.value == s else Avoids(r.value, before))
            case Err(x) => r == Err(x)
  {
    if e.seqNo in s.seen.m {
      r := if s.seen.m[e.seqNo] == e.eventId then Ok(s) else Err(ConflictingEvent);
      return;
    }
    var structural := StructuralCheck(s, e, v);
    if structural.Some? {
      return Err(structural.value);
    }
    var next, err := ApplyToClone(s, e, v, before);
    r := if err.Some? then Err(err.value) else Ok(next);
  }

  /** The loop of Fold. */
  method Fold(evs: seq<Envelope>, ghost before: set<object>) returns (r: Result<StateCell, ApplyError>)
    ensures match Replay.Fold(evs)
            case Ok(w) => r.Ok? && r.value.Shows(w) && Avoids(r.value, before)
            case Err(x) => r == Err(x)
  {
    if evs == [] {
      return Err(RunNotFound);
    }
    var s := new StateCell();
    ghost var v := EMPTY;
    var i := 0;
    assert evs[0..] == evs;
    while i < |evs|
      invariant 0 <= i <= |evs| && s.Shows(v) && Avoids(s, before)
      invariant FoldFrom(v, evs[i..]) == FoldFrom(EMPTY, evs)
    {
      assert evs[i..][0] == evs[i] && evs[i..][1..] == evs[i + 1..];
      var next := Apply(s, evs[i], v, before);
      if next.Err? {
        return Err(next.error);
      }
      s, v := next.value, Replay.Apply(v, evs[i]).value;
      i := i + 1;
    }
    r := Ok(s);
  }

  /** The loop of FoldUpTo: it stops at the first event past `upTo`. */
  method FoldUpTo(evs: seq<Envelope>, upTo: int, ghost before: set<object>) returns (r: Result<StateCell, ApplyError>)
    ensures match Replay.FoldUpTo(evs, upTo)
            case Ok(w) => r.Ok? && r.value.Shows(w) && Avoids(r.value, before)
            case Err(x) => r == Err(x)
  {
    var truncated := [];
    var i := 0;
    assert evs[0..] == evs;
    while i < |evs|
      invariant 0 <= i <= |evs| && truncated + UpTo(evs[i..], upTo) == UpTo(evs, upTo)
    {
      assert evs[i..][0] == evs[i] && evs[i..][1..] == evs[i + 1..];
      if evs[i].seqNo > upTo {
        break;
      }
      truncated := truncated + [evs[i]];
      i := i + 1;
    }
    assert truncated == UpTo(evs, upTo);
    r := Fold(truncated, before);
  }
}
