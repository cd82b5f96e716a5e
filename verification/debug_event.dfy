/** The host-side views of debug events (JSDebugEvent): the iteration helpers
    over a frame's arguments or locals and over a state's frames, the event
    categories, and the event objects whose `state` and `script` properties
    fetch from the engine once and then keep what they fetched. The engine's
    own frame, state and script accessors are parameters or opaque handles. */
module DebugEvent {
  import opened PyRuntime

  /** FrameData: the name/value pairs of a frame, read through three
      accessors given at construction (a count and, per position, a name
      and a value). */
  datatype FrameData<!F, N, V> = FrameData(frame: F, count: F -> int, name: (F, int) -> N, value: (F, int) -> V)
  {
    /** len(): the count, or the ValueError that len() raises when a
        `__len__` answers a negative number. */
    function Len(): Result<nat>
    {
      var n := count(frame);
      if n < 0 then Err(ValueError) else Ok(n)
    }

    /** Iteration: one (name, value) pair per position 0 .. count - 1, in
        order; the count is asked once, and a negative count yields nothing. */
    method Items() returns (r: seq<(N, V)>)
      ensures Len().Ok? ==> |r| == Len().value
      ensures Len().Err? ==> r == []
      ensures forall i :: 0 <= i < |r| ==> r[i] == (name(frame, i), value(frame, i))
    {
      var n := count(frame);
      r := [];
      var i := 0;
      while i < n
        invariant 0 <= i <= if n < 0 then 0 else n
        invariant |r| == i
        invariant forall j :: 0 <= j < i ==> r[j] == (name(frame, j), value(frame, j))
      {
        r := r + [(name(frame, i), value(frame, i))];
        i := i + 1;
      }
    }
  }

  /** Frames: the call frames of an execution state, through the state's
      frame count and its frame(i) accessor. */
  datatype Frames<!S, Fr> = Frames(state: S, frameCount: S -> int, frame: (S, int) -> Fr)
  {
    /** len(): the state's frame count, or ValueError when it is negative. */
    function Len(): Result<nat>
    {
      var n := frameCount(state);
      if n < 0 then Err(ValueError) else Ok(n)
    }

    /** Iteration: frame(0), frame(1), ..., frame(frameCount - 1), in order. */
    method Items() returns (r: seq<Fr>)
      ensures Len().Ok? ==> |r| == Len().value
      ensures Len().Err? ==> r == []
      ensures forall i :: 0 <= i < |r| ==> r[i] == frame(state, i)
    {
      var n := frameCount(state);
      r := [];
      var i := 0;
      while i < n
        invariant 0 <= i <= if n < 0 then 0 else n
        invariant |r| == i
        invariant forall j :: 0 <= j < i ==> r[j] == frame(state, j)
      {
        r := r + [frame(state, i)];
        i := i + 1;
      }
    }
  }

  /** The engine's debug event types. The numeric codes the engine uses are
      not part of this model; OtherEvent stands for any code that is none of
      the five. */
  datatype DebugEventType = Break | Exception | NewFunction | BeforeCompile | AfterCompile | OtherEvent(code: int)

  /** The five categories that have an event class and a handler. */
  type Category = t: DebugEventType | !t.OtherEvent? witness Break

  /** The engine's event object, reduced to what its two accessors return:
      a handle to the execution state and a handle to the compiled script. */
  datatype NativeEvent = NativeEvent(executionState: nat, script: nat)

  /** JSDebugEvent.State, wrapping an engine execution state. */
  class State {
    const native: nat

    constructor (native: nat)
      ensures this.native == native
    {
      this.native := native;
    }
  }

  /** JSDebugEvent.Script, wrapping an engine script. */
  class Script {
    const native: nat

    constructor (native: nat)
      ensures this.native == native
    {
      this.native := native;
    }
  }

  /** An event object handed to a handler: BreakEvent, ExceptionEvent,
      NewFunctionEvent, BeforeCompileEvent or AfterCompileEvent according to
      `kind`. The two caches hold what `state` and `script` fetched; the two
      counters say how often the engine was asked. */
  class DebugEventObject {
    const kind: Category
    const event: NativeEvent
    var cachedState: Option<State>
    var cachedScript: Option<Script>
    var stateFetches: nat
    var scriptFetches: nat

    /** Each cache is filled at most once, from the engine's answer for this
        event. */
    ghost predicate Valid()
      reads this
    {
      && (cachedState.None? <==> stateFetches == 0)
      && (cachedState.Some? <==> stateFetches == 1)
      && (cachedState.Some? ==> cachedState.value.native == event.executionState)
      && (cachedScript.None? <==> scriptFetches == 0)
      && (cachedScript.Some? <==> scriptFetches == 1)
      && (cachedScript.Some? ==> cachedScript.value.native == event.script)
    }

    /** Break, Exception and both compile events are state events;
        NewFunction is not. */
    predicate HasState()
    {
      kind != NewFunction
    }

    /** Only the two compile events have a script. */
    predicate HasScript()
    {
      kind == BeforeCompile || kind == AfterCompile
    }

    constructor (kind: Category, event: NativeEvent)
      ensures Valid()
      ensures this.kind == kind && this.event == event
      ensures cachedState == None && cachedScript == None
    {
      this.kind := kind;
      this.event := event;
      cachedState := None;
      cachedScript := None;
      stateFetches := 0;
      scriptFetches := 0;
    }

    /** The `state` property: on first access wrap the engine's execution
        state and keep it; later accesses return that same object. An event
        class without the property raises AttributeError. */
    method GetState() returns (r: Result<State>)
      requires Valid()
      modifies this`cachedState, this`stateFetches
      ensures Valid()
      ensures !HasState() ==> r == Err(AttributeError) && unchanged(this)
      ensures HasState() ==> r.Ok? && cachedState == Some(r.value) && r.value.native == event.executionState
      ensures HasState() && old(cachedState).Some? ==> r == Ok(old(cachedState).value) && unchanged(this)
      ensures HasState() && old(cachedState).None? ==> fresh(r.value)
    {
      if !HasState() {
        return Err(AttributeError);
      }
      if cachedState.None? {
        var s := new State(event.executionState);
        cachedState := Some(s);
        stateFetches := stateFetches + 1;
      }
      r := Ok(cachedState.value);
    }

    /** The `script` property of the compile events, cached the same way. */
    method GetScript() returns (r: Result<Script>)
      requires Valid()
      modifies this`cachedScript, this`scriptFetches
      ensures Valid()
      ensures !HasScript() ==> r == Err(AttributeError) && unchanged(this)
      ensures HasScript() ==> r.Ok? && cachedScript == Some(r.value) && r.value.native == event.script
      ensures HasScript() && old(cachedScript).Some? ==> r == Ok(old(cachedScript).value) && unchanged(this)
      ensures HasScript() && old(cachedScript).None? ==> fresh(r.value)
    {
      if !HasScript() {
        return Err(AttributeError);
      }
      if cachedScript.None? {
        var s := new Script(event.script);
        cachedScript := Some(s);
        scriptFetches := scriptFetches + 1;
      }
      r := Ok(cachedScript.value);
    }
  }

  /** Reading `state` twice gives the same object and asks the engine once. */
  method StateIsCachedOnce(e: DebugEventObject) returns (first: State, second: State)
    requires e.Valid() && e.HasState() && e.cachedState.None?
    modifies e
    ensures first == second && e.stateFetches == 1
  {
    var r1 := e.GetState();
    var r2 := e.GetState();
    first, second := r1.value, r2.value;
  }
}
