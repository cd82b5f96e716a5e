# python-v8 debugger adapter and deep convert, in Dafny

This project models the two Python cores of the python-v8 embedding bridge. The rest of the bridge lives in the native `_v8` extension.

- **The debugger protocol adapter** (`v8/debugger.py`) has three parts:
  - `JSDebugProtocol` holds the request counter, the packet classes and `parsePacket`.
  - `JSDebugEvent` holds the frame iteration helpers and the event classes, whose `state` and `script` properties cache what they fetch.
  - `JSDebugger` enables and disables debugging on the engine's debug object, routes engine events and messages to the host's handlers, and sends `continue` requests with a step action.
- **Deep convert** (`v8/utils.py`) turns a script value into host-native values:
  - a `JSArray` becomes a list;
  - a `JSObject` becomes a dict with `str()` keys;
  - anything else is returned unchanged.

Modules, one per component:

- `PyRuntime` (`py_runtime.dfy`): Option, Result and the host exceptions the code can raise.
- `DebugProtocol` (`debug_protocol.dfy`): decoded JSON values, packets and their accessors, `parsePacket`, the `Protocol` counter class and the shape of a request.
- `DebugEvent` (`debug_event.dfy`): `FrameData` and `Frames` as datatypes whose iteration is a loop, the event types, and the `DebugEventObject` class with its two caches.
- `Debugger` (`debugger.dfy`): the engine's debug object (`EngineDebug`: enabled flag, three callback slots, a log of the requests sent) and the `Debugger` class.
- `Utils` (`convert.dfy`): the value tree, `Convert`, Python's `dict()` over a list of pairs, and the lemmas.

Quirks of the code are kept as written:

- `stepMin` sends `"out"`, like `stepOut`.
- The `steps` argument never reaches the request.
- Positional arguments of `sendCommand` are dropped.
- `Request.args` reads the key `"args"`, but a request stores its arguments under `"arguments"`.
- `parsePacket` never yields a `Request`: every type other than `"event"` gives a `Response`.

`JSDebugger` inherits from `JSDebugProtocol`. Here the `Debugger` class holds a `Protocol` object instead.

Two further points about the code:

- `NewFunctionEvent` has no `state` property (v8/debugger.py:267-271). Reading it raises AttributeError.
- `convert` removes script handles only when their type is exactly `JSArray` or `JSObject` (v8/utils.py:10-16). Script functions and handles of subclasses pass through unchanged, so no script handle remains only in trees made of scalars, script arrays and script objects.

## Model

| member | source | states |
|---|---|---|
| DebugProtocol.MakePacket | v8/debugger.py:32-33 | A packet is built unless the payload is text that does not decode, which raises ValueError. A text payload is stored decoded; any other payload is stored as it is. The packet has the requested class. |
| DebugProtocol.Key | v8/debugger.py:35-84 | Every packet property looks up a non-empty key of the packet's data. |
| DebugProtocol.KeysDistinct | v8/debugger.py:35-84 | Distinct properties look up distinct keys. |
| DebugProtocol.Offers | v8/debugger.py:35-84 | Every packet class has `seq` and `type`, and the base class has nothing else. Only Request has `args`, and only Event has `event`. |
| DebugProtocol.Subscript | v8/debugger.py:35-41 | `data[key]` succeeds exactly when the data is an object holding the key, and then gives its value. A non-object raises TypeError and a missing key raises KeyError. |
| DebugProtocol.Read | v8/debugger.py:35-84 | A property the packet's class does not define raises AttributeError. A defined one succeeds exactly when the data is an object holding its key, and gives that value; otherwise it raises TypeError or KeyError. |
| DebugProtocol.ParsePacket | v8/debugger.py:95-98 | Malformed text gives ValueError. A result exists exactly when the decoded value is an object with a "type" member; otherwise the error is the one `obj['type']` raises, KeyError or TypeError. The packet keeps the decoded object. It is always an Event or a Response, and an Event exactly when its `type` property reads "event". |
| DebugProtocol.TextAndDecodedPayloadsAgree | v8/debugger.py:32-33 | A packet built from JSON text equals the packet built from the decoded object, and that object is stored as it is (when it is not a string). |
| DebugProtocol.RequestReadAsRequestPacket | v8/debugger.py:43-50 | Read through the Request class, a sent request shows its seq, type "request" and command. Its `args` property raises KeyError, because the arguments sit under "arguments". |
| DebugProtocol.RequestParsesAsResponse | v8/debugger.py:95-98 | Text that decodes to a request object parses as a Response packet holding that object. |
| DebugProtocol.Protocol.constructor | v8/debugger.py:86-87 | A fresh protocol's counter is 0. |
| DebugProtocol.Protocol.NextSeq | v8/debugger.py:89-93 | Returns the current counter and increments it by exactly one. |
| DebugProtocol.FirstThreeSequenceNumbers | v8/debugger.py:86-93 | Three calls on a fresh protocol give 0, 1 and 2. |
| DebugProtocol.RequestObject | v8/debugger.py:421-426 | A request is an object with exactly the keys seq, type, command and arguments. Its type is "request" and its seq is the number it was given. |
| DebugEvent.FrameData.Items | v8/debugger.py:109-114 | The count is read once. Iteration yields count pairs when `len()` succeeds and none when it raises. Pair i is (name(frame, i), value(frame, i)), in order. |
| DebugEvent.Frames.Items | v8/debugger.py:205-210 | Iteration yields frameCount frames when `len()` succeeds and none when it raises. Item i is frame(i), in order. |
| DebugEvent.State.constructor | v8/debugger.py:212-214 | A state object keeps the engine state it wraps. |
| DebugEvent.Script.constructor | v8/debugger.py:273-275 | A script object keeps the engine script it wraps. |
| DebugEvent.DebugEventObject.constructor | v8/debugger.py:245-271 | A new event object has its category and engine event, and empty caches. |
| DebugEvent.DebugEventObject.GetState | v8/debugger.py:248-253 | A NewFunction event has no `state` and raises AttributeError. Otherwise the first read wraps the engine's state in a fresh object and caches it. Later reads return that same object without asking the engine again, which is asked at most once. |
| DebugEvent.DebugEventObject.GetScript | v8/debugger.py:314-319 | Only compile events have `script`; others raise AttributeError. It is cached the same way: one fetch, then the same object. |
| DebugEvent.StateIsCachedOnce | v8/debugger.py:248-253 | Two reads of `state` return the same object, and the engine is asked once. |
| Debugger.EngineDebug.constructor | tests/test_debugger.py:19-20 | The engine's debug object starts disabled, with no callbacks and no requests sent. |
| Debugger.Debugger.constructor | v8/debugger.py:342-353 | A new debugger has counter 0 and all six handlers unset, and no handler has been called. |
| Debugger.Debugger.Enabled | v8/debugger.py:370-371 | `isEnabled` answers the engine's enabled flag. |
| Debugger.Debugger.SetEnabled | v8/debugger.py:373-387 | Afterwards `enabled` equals the argument. Enabling installs this debugger's event, message and dispatch callbacks; disabling clears all three. |
| Debugger.Debugger.Enter | v8/debugger.py:355-358 | Entering a `with` block enables the debugger, installs the three callbacks and yields the debugger itself. |
| Debugger.Debugger.Exit | v8/debugger.py:360-361 | Leaving a `with` block disables the debugger and clears the callbacks. A pending exception is not suppressed. |
| Debugger.EnableThenDisable | v8/debugger.py:373-385 | Enabling then disabling leaves no callback installed and sends nothing. |
| Debugger.Debugger.OnDebugMessage | v8/debugger.py:389-391 | With onMessage unset, nothing happens and no decoding takes place. With it set, the decoded message is passed to it exactly once, or ValueError is raised for malformed text. |
| Debugger.Debugger.OnDebugEvent | v8/debugger.py:393-403 | At most one handler is called: the one for the event's category, and only if it is set. It receives a fresh event object of that category, wrapping the engine event, with empty caches. An unset handler or an unknown type changes nothing. |
| Debugger.Debugger.OnDispatchDebugMessages | v8/debugger.py:405-406 | Always answers true. |
| Debugger.Debugger.SendCommand | v8/debugger.py:420-430 | Consumes exactly one sequence number. Forwards exactly one request, {seq, type "request", command, arguments = keyword arguments}, and returns it. Positional arguments are dropped. |
| Debugger.Debugger.DebugContinue | v8/debugger.py:432-433 | Sends "continue" with arguments exactly {stepaction: action}. The step count is not sent. The action defaults to "next" and the count to 1. |
| Debugger.ContinueWithDefaults | v8/debugger.py:432-433 | `debugContinue()` with no arguments sends step action "next". |
| Debugger.Debugger.StepNext | v8/debugger.py:435-437 | Sends "continue" with step action "next". |
| Debugger.Debugger.StepIn | v8/debugger.py:439-441 | Sends "continue" with step action "in". |
| Debugger.Debugger.StepOut | v8/debugger.py:443-445 | Sends "continue" with step action "out". |
| Debugger.Debugger.StepMin | v8/debugger.py:447-449 | Sends "continue" with step action "out", the same action as stepOut. |
| Debugger.StepOutThenStepMin | v8/debugger.py:443-449 | The requests of stepOut and a following stepMin are equal apart from "seq", and their sequence numbers are consecutive. |
| Utils.Str | v8/utils.py:14 | str() of a string is the string itself, of a bool is "True" or "False", and of an integer is non-empty and starts with '-' exactly when the integer is negative. |
| Utils.NatToDecimal | v8/utils.py:14 | The decimal digits of a natural number: non-empty, all digits, no leading zero. |
| Utils.DecimalRoundTrip | v8/utils.py:14 | Reading the decimal digits of n back gives n. |
| Utils.StrOfInt | v8/utils.py:14 | str() of an integer is its decimal digits, after '-' when it is negative. |
| Utils.StrIntInjective | v8/utils.py:14 | Distinct integer member names give distinct dict keys. |
| Utils.DictOf | v8/utils.py:14 | dict(pairs) has at most one entry per pair, and is empty exactly when there are no pairs. |
| Utils.Convert | v8/utils.py:8-16 | A top-level result is never a JSArray or JSObject. An array gives a list of the same length. An object gives a dict whose keys are all strings. Anything else comes back unchanged. |
| Utils.ArrayBecomesList | v8/utils.py:10-11 | A JSArray becomes a list of the same length whose element i is convert of element i. |
| Utils.ObjectBecomesDict | v8/utils.py:13-14 | A JSObject becomes a dict whose keys are exactly str() of the enumerated member names. A member's key maps to convert of its attribute, unless a later member has the same str() name. |
| Utils.ObjectEntryPerMember | v8/utils.py:13-14 | When member names stay distinct under str(), the dict has exactly one entry per member. |
| Utils.DictOfKeys | v8/utils.py:14 | The keys of dict(pairs) are exactly the pairs' keys. |
| Utils.DictOfEntryFromPair | v8/utils.py:14 | Every entry of dict(pairs) is one of the pairs. |
| Utils.DictOfLastWins | v8/utils.py:14 | A key's entry comes from its last pair. |
| Utils.DictOfSize | v8/utils.py:14 | With distinct keys, dict(pairs) has one entry per pair. |
| Utils.Idempotent | v8/utils.py:10-16 | convert(convert(x)) == convert(x). |
| Utils.NoHandlesRemain | v8/utils.py:8-16 | A finite tree of scalars, JSArrays and JSObjects converts to a value with no script handle at any depth, and every dict key in it is a string. |
| Utils.InnerObjectExample | tests/test_wrapper.py:569-579 | The member `c` of the dict test's object, less `float`, converts to {str: 'goofy', obj: {name: 'john doe'}}. |
| Utils.NestedObjectExample | tests/test_wrapper.py:567-580 | {a: 1, b: [1, 2, 3], c: {str: 'goofy', obj: {name: 'john doe'}}, d: true, e: null} converts to the dict the test expects, less the member `c.float`. |
| Utils.NestedArrayExample | tests/test_wrapper.py:504-517 | [[1, 'abla'], [2, 'ajkss']] as nested JSArrays converts to nested lists. |

## Left out

- The native `_v8` extension is not part of this model. It covers contexts, isolates, lockers, value conversion, the property bridge, watch/unwatch and exception mapping.
- The native calls `debugBreak`, `debugBreakForCommand`, `cancelDebugBreak`, `processDebugMessages` and the `context` property are foreign calls with no logic on the host side.
- The `Frame`, `State` and `Script` accessor properties only forward to native objects. `State` and `Script` keep just the handle they wrap.
- JSON encoding and decoding:
  - decoding is the parameter `loads`, whose None result stands for the ValueError of malformed text;
  - requests are logged as decoded objects, not as JSON text, so `sendCommand` returns that object instead of a string;
  - JSON numbers are integers.
- The wiring in `Frame.arguments` and `Frame.locals` is not modelled. It passes an int property and bound methods whose arities differ from how `FrameData` calls them. `FrameData` is modelled over abstract count, name and value accessors.
- The engine's numeric event codes are not modelled. Event types form a datatype, and `OtherEvent` stands for every other code.
- What a handler does when called is not modelled. A call is recorded in the debugger's `calls` log.
- The `repr`/`str` renderings of states, scripts and compile events are string formatting over native accessors.
- Utils.Convert: cyclic script object graphs are not modelled. Values are finite trees, and on a cycle the Python recursion would not terminate.
- Utils.Convert: floating point scalars and the Python 2 `__members__` branch are not modelled. This is why the dict test's `c.float` member is absent from Utils.NestedObjectExample.
- Utils.Convert: enumerated member names are given with their attribute values. The code reads each value as `obj.__getattr__(str(k))`, so two members with the same str() name always carry the same value. The model lets them differ. This is why Utils.ObjectBecomesDict says "unless a later member has the same str() name".
- `setup.py` (build and packaging) is not part of this model.
