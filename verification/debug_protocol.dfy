/** The JSON based debugger protocol (JSDebugProtocol): packets received from
    the engine, their accessors, the request sequence counter and the shape of
    a request. JSON text itself is not modelled: decoding is the parameter
    `loads`, and requests are kept as decoded JSON objects. */
module DebugProtocol {
  import opened PyRuntime

  /** A decoded JSON document, as json.loads returns it (numbers are integers
      in this model). */
  datatype Json =
    | JNull
    | JBool(b: bool)
    | JNum(n: int)
    | JStr(s: string)
    | JArray(items: seq<Json>)
    | JObject(fields: map<string, Json>)

  /** json.loads: None stands for the ValueError raised on malformed text. */
  type Loads = string -> Option<Json>

  const REQUEST := "request"
  const RESPONSE := "response"
  const EVENT := "event"

  /** The packet classes: the base Packet and its Request, Response and Event
      subclasses. */
  datatype PacketKind = PlainPacket | RequestPacket | ResponsePacket | EventPacket

  datatype Packet = Packet(kind: PacketKind, data: Json)

  /** Packet construction: a text payload is decoded, any other payload is
      stored as it is. */
  function MakePacket(kind: PacketKind, payload: Json, loads: Loads): (r: Result<Packet>)
    ensures r.Ok? <==> !payload.JStr? || loads(payload.s).Some?
    ensures r.Err? ==> r.error == ValueError
    ensures r.Ok? ==> r.value.kind == kind
    ensures r.Ok? && payload.JStr? ==> r.value.data == loads(payload.s).value
    ensures !payload.JStr? ==> r == Ok(Packet(kind, payload))
  {
    if payload.JStr? then
      match loads(payload.s)
      case None => Err(ValueError)
      case Some(d) => Ok(Packet(kind, d))
    else
      Ok(Packet(kind, payload))
  }

  /** The read-only properties of the packet classes. */
  datatype Field = Seq | Type | Cmd | Args | RequestSeq | Body | Running | Success | Message | EventName

  /** The key each property looks up in the packet's data. */
  function Key(f: Field): (k: string)
    ensures |k| > 0
  {
    match f
    case Seq => "seq"
    case Type => "type"
    case Cmd => "command"
    case Args => "args"
    case RequestSeq => "request_seq"
    case Body => "body"
    case Running => "running"
    case Success => "success"
    case Message => "message"
    case EventName => "event"
  }

  /** Distinct properties look up distinct keys. */
  lemma KeysDistinct(f: Field, g: Field)
    ensures Key(f) == Key(g) ==> f == g
  {
  }

  /** Whether the class of a packet of this kind defines the property. */
  predicate Offers(kind: PacketKind, f: Field)
    ensures f == Seq || f == Type ==> Offers(kind, f)
    ensures kind == PlainPacket ==> (Offers(kind, f) <==> f == Seq || f == Type)
    ensures f == Args ==> (Offers(kind, f) <==> kind == RequestPacket)
    ensures f == EventName ==> (Offers(kind, f) <==> kind == EventPacket)
  {
    match f
    case Seq | Type => true
    case Args => kind == RequestPacket
    case Cmd => kind == RequestPacket || kind == ResponsePacket
    case RequestSeq | Running | Success | Message => kind == ResponsePacket
    case Body => kind == ResponsePacket || kind == EventPacket
    case EventName => kind == EventPacket
  }

  /** `data[key]`: only a JSON object can be subscripted with a string. */
  function Subscript(data: Json, key: string): (r: Result<Json>)
    ensures r.Ok? <==> data.JObject? && key in data.fields
    ensures r.Ok? ==> r.value == data.fields[key]
    ensures !data.JObject? ==> r == Err(TypeError)
    ensures data.JObject? && key !in data.fields ==> r == Err(KeyError)
  {
    if !data.JObject? then Err(TypeError)
    else if key in data.fields then Ok(data.fields[key])
    else Err(KeyError)
  }

  /** Reading a property of a packet. */
  function Read(p: Packet, f: Field): (r: Result<Json>)
    ensures !Offers(p.kind, f) ==> r == Err(AttributeError)
    ensures r.Ok? <==> Offers(p.kind, f) && p.data.JObject? && Key(f) in p.data.fields
    ensures r.Ok? ==> r.value == p.data.fields[Key(f)]
    ensures r.Err? && Offers(p.kind, f) ==> r.error == TypeError || r.error == KeyError
  {
    if Offers(p.kind, f) then Subscript(p.data, Key(f)) else Err(AttributeError)
  }

  /** parsePacket: decode the text and classify it by its "type" member. */
  function ParsePacket(payload: string, loads: Loads): (r: Result<Packet>)
    ensures loads(payload).None? ==> r == Err(ValueError)
    ensures loads(payload).Some? && Subscript(loads(payload).value, "type").Err? ==>
      r == Err(Subscript(loads(payload).value, "type").error)
    ensures r.Ok? <==> loads(payload).Some? && Subscript(loads(payload).value, "type").Ok?
    ensures r.Ok? ==> r.value.data == loads(payload).value
    ensures r.Ok? ==> r.value.kind == EventPacket || r.value.kind == ResponsePacket
    ensures r.Ok? ==> (r.value.kind == EventPacket <==> Read(r.value, Type) == Ok(JStr(EVENT)))
  {
    match loads(payload)
    case None => Err(ValueError)
    case Some(obj) =>
      match Subscript(obj, "type")
      case Err(e) => Err(e)
      case Ok(t) => MakePacket(if t == JStr(EVENT) then EventPacket else ResponsePacket, obj, loads)
  }

  /** A packet built from JSON text equals the packet built from the object
      that text decodes to, unless that object is itself a string (which
      would be decoded a second time). */
  lemma TextAndDecodedPayloadsAgree(kind: PacketKind, text: string, loads: Loads)
    requires loads(text).Some? && !loads(text).value.JStr?
    ensures MakePacket(kind, JStr(text), loads) == MakePacket(kind, loads(text).value, loads)
    ensures MakePacket(kind, JStr(text), loads) == Ok(Packet(kind, loads(text).value))
  {
  }

  /** The request counter of the protocol. */
  class Protocol {
    var counter: nat

    constructor ()
      ensures counter == 0
    {
      counter := 0;
    }

    /** nextSeq: hand out the current number and advance by one. */
    method NextSeq() returns (s: nat)
      modifies this`counter
      ensures s == old(counter)
      ensures counter == old(counter) + 1
    {
      s := counter;
      counter := counter + 1;
    }
  }

  /** A fresh protocol numbers its requests 0, 1, 2, ... */
  method FirstThreeSequenceNumbers() returns (a: nat, b: nat, c: nat)
    ensures a == 0 && b == 1 && c == 2
  {
    var p := new Protocol();
    a := p.NextSeq();
    b := p.NextSeq();
    c := p.NextSeq();
  }

  /** The object a request is encoded from. */
  function RequestObject(seqNo: nat, command: string, arguments: map<string, Json>): (r: Json)
    ensures r.JObject? && r.fields.Keys == {"seq", "type", "command", "arguments"}
    ensures Subscript(r, "type") == Ok(JStr(REQUEST)) && Subscript(r, "seq") == Ok(JNum(seqNo))
  {
    JObject(map["seq" := JNum(seqNo), "type" := JStr(REQUEST), "command" := JStr(command), "arguments" := JObject(arguments)])
  }

  /** Read back through the Request class, a request shows its number, type
      and command, but its `args` property looks up a key the request does not
      have: the arguments are stored under "arguments". */
  lemma RequestReadAsRequestPacket(seqNo: nat, command: string, arguments: map<string, Json>)
    ensures var p := Packet(RequestPacket, RequestObject(seqNo, command, arguments));
      && Read(p, Seq) == Ok(JNum(seqNo))
      && Read(p, Type) == Ok(JStr(REQUEST))
      && Read(p, Cmd) == Ok(JStr(command))
      && Read(p, Args) == Err(KeyError)
      && Subscript(p.data, "arguments") == Ok(JObject(arguments))
  {
  }

  /** parsePacket never yields a Request: a request text parses as a Response. */
  lemma RequestParsesAsResponse(payload: string, loads: Loads, seqNo: nat, command: string, arguments: map<string, Json>)
    requires loads(payload) == Some(RequestObject(seqNo, command, arguments))
    ensures ParsePacket(payload, loads) == Ok(Packet(ResponsePacket, RequestObject(seqNo, command, arguments)))
  {
  }
}
