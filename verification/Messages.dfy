/**
 The values that travel between a Phoenix server and this client: text, JSON, events, payloads and
 messages (src/rust/message.rs, src/ffi/message.rs, src/ffi/topic.rs, src/rust/reference.rs).
 Text is kept as its UTF-8 bytes, because the binary framing measures fields in bytes.
 */
module Messages {
  import opened Wrappers

  type Byte = b: int | 0 <= b < 256

  type Text = seq<Byte>

  datatype Topic = Topic(name: Text)

  datatype Reference = Reference(text: Text)

  datatype JoinReference = JoinReference(text: Text)

  datatype Json =
    | Null
    | Bool(flag: bool)
    | Number(number: real)
    | String(text: Text)
    | Array(elements: seq<Json>)
    | Object(members: map<Text, Json>)

  datatype Payload = Value(json: Json) | Binary(bytes: seq<Byte>)

  datatype PhoenixEvent = Join | Leave | Close | Reply | Error | Heartbeat

  datatype Event = Phoenix(phoenix: PhoenixEvent) | User(name: Text)

  datatype EventPayload = EventPayload(event: Event, payload: Payload)

  datatype ReplyStatus = StatusOk | StatusError

  datatype Message =
    | ControlMessage(event: Event, payload: Payload, controlReference: Option<Reference>)
    | BroadcastMessage(topic: Topic, eventPayload: EventPayload)
    | ReplyMessage(topic: Topic, event: Event, payload: Payload, joinReference: JoinReference,
                   reference: Reference, status: ReplyStatus)
    | PushMessage(topic: Topic, eventPayload: EventPayload, joinReference: JoinReference,
                  pushReference: Option<Reference>)

  function PayloadOf(m: Message): Payload {
    match m
    case ControlMessage(_, payload, _) => payload
    case BroadcastMessage(_, ep) => ep.payload
    case ReplyMessage(_, _, payload, _, _, _) => payload
    case PushMessage(_, ep, _, _) => ep.payload
  }

  /** The bytes of a string of ASCII characters. */
  function Ascii(s: string): Text
    requires forall i | 0 <= i < |s| :: s[i] < 128 as char
  {
    seq(|s|, i requires 0 <= i < |s| => s[i] as int)
  }

  const STATUS: Text := Ascii("status")
  const RESPONSE: Text := Ascii("response")
  const PHOENIX: Text := Ascii("phoenix")

  function PrintPhoenix(e: PhoenixEvent): Text {
    match e
    case Join => Ascii("phx_join")
    case Leave => Ascii("phx_leave")
    case Close => Ascii("phx_close")
    case Reply => Ascii("phx_reply")
    case Error => Ascii("phx_error")
    case Heartbeat => Ascii("heartbeat")
  }

  function ParsePhoenix(s: Text): Option<PhoenixEvent> {
    if s == Ascii("phx_join") then Some(Join)
    else if s == Ascii("phx_leave") then Some(Leave)
    else if s == Ascii("phx_close") then Some(Close)
    else if s == Ascii("phx_error") then Some(Error)
    else if s == Ascii("phx_reply") then Some(Reply)
    else if s == Ascii("heartbeat") then Some(Heartbeat)
    else None
  }

  function PrintEvent(e: Event): Text {
    match e
    case Phoenix(p) => PrintPhoenix(p)
    case User(name) => name
  }

  function ParseEvent(s: Text): Event {
    match ParsePhoenix(s)
    case Some(p) => Phoenix(p)
    case None => User(s)
  }

  function PrintStatus(s: ReplyStatus): Text {
    match s
    case StatusOk => Ascii("ok")
    case StatusError => Ascii("error")
  }

  function ParseStatus(s: Text): ReplyStatus {
    if s == Ascii("ok") then StatusOk else StatusError
  }

  /** The names on the wire, byte by byte. */
  lemma NamesInBytes()
    ensures PrintPhoenix(Join) == [112, 104, 120, 95, 106, 111, 105, 110]
    ensures PrintPhoenix(Leave) == [112, 104, 120, 95, 108, 101, 97, 118, 101]
    ensures PrintPhoenix(Close) == [112, 104, 120, 95, 99, 108, 111, 115, 101]
    ensures PrintPhoenix(Reply) == [112, 104, 120, 95, 114, 101, 112, 108, 121]
    ensures PrintPhoenix(Error) == [112, 104, 120, 95, 101, 114, 114, 111, 114]
    ensures PrintPhoenix(Heartbeat) == [104, 101, 97, 114, 116, 98, 101, 97, 116]
    ensures PrintStatus(StatusOk) == [111, 107] && PrintStatus(StatusError) == [101, 114, 114, 111, 114]
    ensures PHOENIX == [112, 104, 111, 101, 110, 105, 120]
    ensures STATUS == [115, 116, 97, 116, 117, 115]
    ensures RESPONSE == [114, 101, 115, 112, 111, 110, 115, 101]
  {
  }

  /** Each built-in event name is told apart from the other five. */
  lemma PhoenixNamesAreDistinct(e: PhoenixEvent, f: PhoenixEvent)
    ensures PrintPhoenix(e) == PrintPhoenix(f) <==> e == f
  {
    var a, b := PrintPhoenix(e), PrintPhoenix(f);
    assert (if e.Join? then |a| == 8 else |a| == 9) && (if f.Join? then |b| == 8 else |b| == 9);
    if |a| == 9 && |b| == 9 {
      assert a != b || (a[4] == b[4] && a[5] == b[5] && a[0] == b[0] && a[7] == b[7]);
    }
  }

  lemma PhoenixReadsBack(e: PhoenixEvent, s: Text)
    ensures ParsePhoenix(PrintPhoenix(e)) == Some(e)
    ensures ParsePhoenix(s) == Some(e) ==> s == PrintPhoenix(e)
  {
    PhoenixNamesAreDistinct(e, Join);
    PhoenixNamesAreDistinct(e, Leave);
    PhoenixNamesAreDistinct(e, Close);
    PhoenixNamesAreDistinct(e, Error);
    PhoenixNamesAreDistinct(e, Reply);
  }

  /** Text survives parse and print unchanged; an event survives print and parse exactly when it is
      not a user event carrying a built-in name. */
  lemma EventsReadBack(e: Event, s: Text)
    ensures PrintEvent(ParseEvent(s)) == s
    ensures ParseEvent(PrintEvent(e)) == e <==> (e.User? ==> forall p :: PrintPhoenix(p) != e.name)
  {
    if ParsePhoenix(s).Some? {
      PhoenixReadsBack(ParsePhoenix(s).value, s);
    }
    match e
    case Phoenix(p) => PhoenixReadsBack(p, s);
    case User(name) =>
      forall p | PrintPhoenix(p) == name ensures ParsePhoenix(name) == Some(p) {
        PhoenixReadsBack(p, name);
      }
      if ParsePhoenix(name).Some? {
        PhoenixReadsBack(ParsePhoenix(name).value, name);
      }
  }

  /** A status survives, and every text but "ok" reads as an error. */
  lemma StatusesReadBack(s: ReplyStatus)
    ensures ParseStatus(PrintStatus(s)) == s
    ensures forall text :: ParseStatus(text) == StatusOk <==> text == [111, 107]
  {
    assert |PrintStatus(StatusError)| == 5 && |PrintStatus(StatusOk)| == 2;
  }
}
