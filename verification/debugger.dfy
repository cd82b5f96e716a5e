/** JSDebugger: the adapter between the engine's debug object and the host's
    handlers. It enables and disables debugging by installing or clearing three
    callbacks on the engine's debug object, routes each engine event to the
    handler registered for its category, and sends `continue` requests with a
    step action over the engine's command channel. */
module Debugger {
  import opened PyRuntime
  import opened DebugProtocol
  import opened DebugEvent

  /** The identity of a host callable assigned as a handler. */
  type Handler = nat

  /** What a handler was called with: an event object, or a decoded message. */
  datatype Argument = EventArg(event: DebugEventObject) | MessageArg(message: Json)

  datatype Call = Call(handler: Handler, argument: Argument)

  /** The engine's process-wide debug object: its enabled flag, its three
      callback slots (Some(d) holds the bound method of debugger d) and the
      requests passed to its command channel, in order. */
  class EngineDebug {
    var enabled: bool
    var onDebugEvent: Option<Debugger>
    var onDebugMessage: Option<Debugger>
    var onDispatchDebugMessages: Option<Debugger>
    var commands: seq<Json>

    constructor ()
      ensures !enabled && commands == []
      ensures onDebugEvent == None && onDebugMessage == None && onDispatchDebugMessages == None
    {
      enabled := false;
      onDebugEvent := None;
      onDebugMessage := None;
      onDispatchDebugMessages := None;
      commands := [];
    }
  }

  class Debugger {
    /** The protocol part of the debugger (its request counter). */
    const protocol: Protocol
    /** The engine's debug object this debugger talks to. */
    const engine: EngineDebug

    /** The handlers the host may assign; unset until it does. */
    var onMessage: Option<Handler>
    var onBreak: Option<Handler>
    var onException: Option<Handler>
    var onNewFunction: Option<Handler>
    var onBeforeCompile: Option<Handler>
    var onAfterCompile: Option<Handler>

    /** Every handler call made so far, in order. */
    var calls: seq<Call>

    constructor (engine: EngineDebug)
      ensures this.engine == engine && fresh(protocol) && protocol.counter == 0
      ensures onMessage == None && onBreak == None && onException == None
      ensures onNewFunction == None && onBeforeCompile == None && onAfterCompile == None
      ensures calls == []
    {
      this.engine := engine;
      protocol := new Protocol();
      onMessage, onBreak, onException := None, None, None;
      onNewFunction, onBeforeCompile, onAfterCompile := None, None, None;
      calls := [];
    }

    /** The `enabled` property reads the engine's flag. */
    function Enabled(): (b: bool)
      reads this, engine
      ensures b == engine.enabled
    {
      engine.enabled
    }

    /** The handler for an event type: the one registered for its category,
        if any; none for a type outside the five categories. */
    function HandlerFor(t: DebugEventType): Option<Handler>
      reads this
    {
      match t
      case Break => onBreak
      case Exception => onException
      case NewFunction => onNewFunction
      case BeforeCompile => onBeforeCompile
      case AfterCompile => onAfterCompile
      case OtherEvent(_) => None
    }

    /** setEnabled: install this debugger's three callbacks, or clear all
        three, then set the engine's flag. */
    method SetEnabled(enable: bool)
      modifies engine`enabled, engine`onDebugEvent, engine`onDebugMessage, engine`onDispatchDebugMessages
      ensures Enabled() == enable
      ensures engine.onDebugEvent == (if enable then Some(this) else None)
      ensures engine.onDebugMessage == (if enable then Some(this) else None)
      ensures engine.onDispatchDebugMessages == (if enable then Some(this) else None)
    {
      if enable {
        engine.onDebugEvent := Some(this);
        engine.onDebugMessage := Some(this);
        engine.onDispatchDebugMessages := Some(this);
      } else {
        engine.onDebugEvent := None;
        engine.onDebugMessage := None;
        engine.onDispatchDebugMessages := None;
      }
      engine.enabled := enable;
    }

    /** Entering a `with` block enables the debugger and yields it. */
    method Enter() returns (self: Debugger)
      modifies engine`enabled, engine`onDebugEvent, engine`onDebugMessage, engine`onDispatchDebugMessages
      ensures self == this && Enabled()
      ensures engine.onDebugEvent == Some(this) && engine.onDebugMessage == Some(this)
      ensures engine.onDispatchDebugMessages == Some(this)
    {
      SetEnabled(true);
      self := this;
    }

    /** Leaving a `with` block disables the debugger; the pending exception,
        if any, is not suppressed. */
    method Exit(pending: Option<PyError>) returns (suppress: bool)
      modifies engine`enabled, engine`onDebugEvent, engine`onDebugMessage, engine`onDispatchDebugMessages
      ensures !suppress && !Enabled()
      ensures engine.onDebugEvent == None && engine.onDebugMessage == None
      ensures engine.onDispatchDebugMessages == None
    {
      SetEnabled(false);
      suppress := false;
    }

    /** onDebugMessage: decode the message and pass it to onMessage, only
        when onMessage is set (an unset handler means no decoding at all). */
    method OnDebugMessage(msg: string, clientData: nat, loads: Loads) returns (o: Outcome)
      modifies this`calls
      ensures onMessage.None? ==> o == Pass && calls == old(calls)
      ensures onMessage.Some? && loads(msg).None? ==> o == Fail(ValueError) && calls == old(calls)
      ensures onMessage.Some? && loads(msg).Some? ==>
        o == Pass && calls == old(calls) + [Call(onMessage.value, MessageArg(loads(msg).value))]
    {
      o := Pass;
      if onMessage.Some? {
        match loads(msg)
        case None =>
          o := Fail(ValueError);
        case Some(m) =>
          calls := calls + [Call(onMessage.value, MessageArg(m))];
      }
    }

    /** onDebugEvent: wrap the engine event in the class of its category and
        call that category's handler, if one is set. Nothing happens for an
        unset handler or a type outside the five categories. */
    method OnDebugEvent(t: DebugEventType, state: nat, evt: NativeEvent)
      modifies this`calls
      ensures HandlerFor(t).None? ==> calls == old(calls)
      ensures HandlerFor(t).Some? ==>
        && |calls| == |old(calls)| + 1
        && calls[..|old(calls)|] == old(calls)
        && var c := calls[|old(calls)|];
        && c.handler == HandlerFor(t).value
        && c.argument.EventArg?
        && fresh(c.argument.event)
        && c.argument.event.kind == t
        && c.argument.event.event == evt
        && c.argument.event.Valid()
        && c.argument.event.cachedState.None?
        && c.argument.event.cachedScript.None?
    {
      match t
      case Break =>
        if onBreak.Some? {
          var e := new DebugEventObject(Break, evt);
          calls := calls + [Call(onBreak.value, EventArg(e))];
        }
      case Exception =>
        if onException.Some? {
          var e := new DebugEventObject(Exception, evt);
          calls := calls + [Call(onException.value, EventArg(e))];
        }
      case NewFunction =>
        if onNewFunction.Some? {
          var e := new DebugEventObject(NewFunction, evt);
          calls := calls + [Call(onNewFunction.value, EventArg(e))];
        }
      case BeforeCompile =>
        if onBeforeCompile.Some? {
          var e := new DebugEventObject(BeforeCompile, evt);
          calls := calls + [Call(onBeforeCompile.value, EventArg(e))];
        }
      case AfterCompile =>
        if onAfterCompile.Some? {
          var e := new DebugEventObject(AfterCompile, evt);
          calls := calls + [Call(onAfterCompile.value, EventArg(e))];
        }
      case OtherEvent(_) =>
    }

    /** onDispatchDebugMessages always answers true. */
    method OnDispatchDebugMessages() returns (r: bool)
      ensures r
    {
      r := true;
    }

    /** sendCommand: take the next sequence number, pass the request to the
        engine's command channel and return it. Positional arguments are not
        part of the request; keyword arguments become its "arguments". */
    method SendCommand(cmd: string, args: seq<Json>, kwds: map<string, Json>) returns (request: Json)
      modifies protocol`counter, engine`commands
      ensures request == RequestObject(old(protocol.counter), cmd, kwds)
      ensures protocol.counter == old(protocol.counter) + 1
      ensures engine.commands == old(engine.commands) + [request]
    {
      var s := protocol.NextSeq();
      request := RequestObject(s, cmd, kwds);
      engine.commands := engine.commands + [request];
    }

    /** debugContinue: a `continue` request whose only argument is the step
        action; the step count is not sent. The action defaults to "next"
        and the count to 1. */
    method DebugContinue(action: string := "next", steps: int := 1) returns (request: Json)
      modifies protocol`counter, engine`commands
      ensures request == RequestObject(old(protocol.counter), "continue", map["stepaction" := JStr(action)])
      ensures protocol.counter == old(protocol.counter) + 1
      ensures engine.commands == old(engine.commands) + [request]
    {
      request := SendCommand("continue", [], map["stepaction" := JStr(action)]);
    }

    method StepNext(steps: int := 1) returns (request: Json)
      modifies protocol`counter, engine`commands
      ensures request == RequestObject(old(protocol.counter), "continue", map["stepaction" := JStr("next")])
      ensures protocol.counter == old(protocol.counter) + 1
      ensures engine.commands == old(engine.commands) + [request]
    {
      request := DebugContinue("next", steps);
    }

    method StepIn(steps: int := 1) returns (request: Json)
      modifies protocol`counter, engine`commands
      ensures request == RequestObject(old(protocol.counter), "continue", map["stepaction" := JStr("in")])
      ensures protocol.counter == old(protocol.counter) + 1
      ensures engine.commands == old(engine.commands) + [request]
    {
      request := DebugContinue("in", steps);
    }

    method StepOut(steps: int := 1) returns (request: Json)
      modifies protocol`counter, engine`commands
      ensures request == RequestObject(old(protocol.counter), "continue", map["stepaction" := JStr("out")])
      ensures protocol.counter == old(protocol.counter) + 1
      ensures engine.commands == old(engine.commands) + [request]
    {
      request := DebugContinue("out", steps);
    }

    /** stepMin sends the step action "out", as stepOut does. */
    method StepMin(steps: int := 1) returns (request: Json)
      modifies protocol`counter, engine`commands
      ensures request == RequestObject(old(protocol.counter), "continue", map["stepaction" := JStr("out")])
      ensures protocol.counter == old(protocol.counter) + 1
      ensures engine.commands == old(engine.commands) + [request]
    {
      request := DebugContinue("out", steps);
    }
  }

  /** A stepOut followed by a stepMin sends two requests that differ only in
      their sequence numbers, which are consecutive. */
  method StepOutThenStepMin(d: Debugger) returns (out: Json, min: Json)
    modifies d.protocol, d.engine
    ensures out.JObject? && min.JObject?
    ensures out.fields - {"seq"} == min.fields - {"seq"}
    ensures "seq" in out.fields && "seq" in min.fields
    ensures out.fields["seq"].JNum? && min.fields["seq"] == JNum(out.fields["seq"].n + 1)
  {
    out := d.StepOut();
    min := d.StepMin();
  }

  /** debugContinue() with no arguments sends the step action "next", as
      stepNext() does. */
  method ContinueWithDefaults(d: Debugger) returns (request: Json)
    modifies d.protocol, d.engine
    ensures request == RequestObject(old(d.protocol.counter), "continue", map["stepaction" := JStr("next")])
    ensures d.engine.commands == old(d.engine.commands) + [request]
  {
    request := d.DebugContinue();
  }

  /** Disabling after enabling leaves no callback of any debugger installed,
      whatever was installed before. */
  method EnableThenDisable(d: Debugger)
    modifies d.engine
    ensures !d.Enabled()
    ensures d.engine.onDebugEvent == None && d.engine.onDebugMessage == None
    ensures d.engine.onDispatchDebugMessages == None
    ensures d.engine.commands == old(d.engine.commands)
  {
    d.SetEnabled(true);
    d.SetEnabled(false);
  }
}
