/**
 The five-field JSON form of messages (src/rust/message.rs), at the level of JSON values: a join
 reference, a reference, a topic, an event and a payload, where the references that are null say what
 kind of message it is.
 */
module JsonCodec {
  import opened Wrappers
  import opened Messages

  datatype JsonError =
    | NotFiveFields
    | EventNotText
    | TopicNotText
    | ReferenceNotText
    | JoinReferenceNotText
    | NotAReplyPayload
    | UnrecognizedControl

  /** A reference as a field: a string, or null for none. */
  function OptionalField(reference: Option<Reference>): Json {
    if reference.Some? then String(reference.value.text) else Null
  }

  /** What the client sends for a message; a reply's status is not part of it. */
  function EncodeJson(m: Message): Json
    requires PayloadOf(m).Value?
  {
    match m
    case ControlMessage(event, payload, reference) =>
      Array([Null, OptionalField(reference), String(PHOENIX), String(PrintEvent(event)), payload.json])
    case BroadcastMessage(topic, ep) =>
      Array([Null, Null, String(topic.name), String(PrintEvent(ep.event)), ep.payload.json])
    case ReplyMessage(topic, event, payload, joinReference, reference, _) =>
      Array([String(joinReference.text), String(reference.text), String(topic.name),
             String(PrintEvent(event)), payload.json])
    case PushMessage(topic, ep, joinReference, reference) =>
      Array([String(joinReference.text), OptionalField(reference), String(topic.name),
             String(PrintEvent(ep.event)), ep.payload.json])
  }

  // ---------------------------------------------------------------------------------- what is accepted

  /** The event is one that its own text reads as: a user event does not carry a built-in name. */
  ghost predicate Canonical(e: Event) {
    e.User? ==> forall p :: PrintPhoenix(p) != e.name
  }

  /** The payload a server puts in a reply. */
  predicate IsReplyPayload(j: Json, status: ReplyStatus, response: Json) {
    && j.Object? && STATUS in j.members && RESPONSE in j.members
    && j.members[STATUS].String? && ParseStatus(j.members[STATUS].text) == status
    && j.members[RESPONSE] == response
  }

  /** The value is a server's way of writing the message. The topic of a control message is not looked at. */
  ghost predicate Writes(j: Json, m: Message) {
    && PayloadOf(m).Value?
    && j.Array? && |j.elements| == 5 && j.elements[2].String?
    && var (joinReference, reference, topic, event, payload) :=
         (j.elements[0], j.elements[1], Topic(j.elements[2].text), j.elements[3], j.elements[4]);
    match m
    case ControlMessage(e, p, r) =>
      e.Phoenix? && r.Some? && j.elements == [Null, OptionalField(r), j.elements[2], String(PrintEvent(e)), p.json]
    case BroadcastMessage(t, ep) =>
      && Canonical(ep.event) && topic == t
      && j.elements == [Null, Null, j.elements[2], String(PrintEvent(ep.event)), ep.payload.json]
    case ReplyMessage(t, e, p, jr, r, status) =>
      && e == Phoenix(PhoenixEvent.Reply) && topic == t && IsReplyPayload(payload, status, p.json)
      && j.elements == [String(jr.text), String(r.text), j.elements[2], String(PrintEvent(e)), payload]
    case PushMessage(t, ep, jr, r) =>
      && Canonical(ep.event) && topic == t && (r.Some? ==> ep.event != Phoenix(PhoenixEvent.Reply))
      && j.elements == [String(jr.text), OptionalField(r), j.elements[2], String(PrintEvent(ep.event)), ep.payload.json]
  }

  // ---------------------------------------------------------------------------------- decoding

  /** What is left to decide once the five fields have been read. */
  function Classify(joinReference: Option<JoinReference>, reference: Option<Reference>, topic: Topic,
                    event: Event, payload: Json): Result<Message, JsonError>
  {
    if joinReference.None? && reference.None? then
      Success(BroadcastMessage(topic, EventPayload(event, Value(payload))))
    else if joinReference.None? then
      if event.Phoenix? then Success(ControlMessage(event, Value(payload), reference))
      else Failure(UnrecognizedControl)
    else if reference.Some? && event == Phoenix(PhoenixEvent.Reply) then
      if !payload.Object? || STATUS !in payload.members || RESPONSE !in payload.members then Failure(NotAReplyPayload)
      else if !payload.members[STATUS].String? then Failure(NotAReplyPayload)
      else
        Success(ReplyMessage(topic, event, Value(payload.members[RESPONSE]), joinReference.value,
                             reference.value, ParseStatus(payload.members[STATUS].text)))
    else
      Success(PushMessage(topic, EventPayload(event, Value(payload)), joinReference.value, reference))
  }

  /** Reads a value back field by field, from the last field to the first; the first field that is not
      what it should be names the error. */
  function Decode(j: Json): Result<Message, JsonError> {
    if !j.Array? || |j.elements| != 5 then Failure(NotFiveFields)
    else
      var fields := j.elements;
      if !fields[3].String? then Failure(EventNotText)
      else if !fields[2].String? then Failure(TopicNotText)
      else if !fields[1].Null? && !fields[1].String? then Failure(ReferenceNotText)
      else if !fields[0].Null? && !fields[0].String? then Failure(JoinReferenceNotText)
      else
        Classify(if fields[0].Null? then None else Some(JoinReference(fields[0].text)),
                 if fields[1].Null? then None else Some(Reference(fields[1].text)),
                 Topic(fields[2].text), ParseEvent(fields[3].text), fields[4])
  }

  method Pop<T>(fields: seq<T>) returns (last: T, rest: seq<T>)
    requires |fields| > 0
    ensures rest == fields[..|fields| - 1] && last == fields[|fields| - 1]
  {
    last, rest := fields[|fields| - 1], fields[..|fields| - 1];
  }

  /** Pops the fields off the array one by one. */
  method DecodeJson(j: Json) returns (r: Result<Message, JsonError>)
    ensures r == Decode(j)
    ensures forall m: Message :: r == Success(m) <==> Writes(j, m)
  {
    hide ParsePhoenix, Classify, Writes;
    forall m: Message ensures Decode(j) == Success(m) <==> Writes(j, m) {
      DecodeAcceptsWhatIsWritten(j, m);
    }
    if !j.Array? || |j.elements| != 5 {
      return Failure(NotFiveFields);
    }
    var payload, fields := Pop(j.elements);
    var field: Json;
    field, fields := Pop(fields);
    if !field.String? {
      return Failure(EventNotText);
    }
    var event := ParseEvent(field.text);
    field, fields := Pop(fields);
    if !field.String? {
      return Failure(TopicNotText);
    }
    var topic := Topic(field.text);
    field, fields := Pop(fields);
    var reference: Option<Reference>;
    match field {
      case Null => reference := None;
      case String(s) => reference := Some(Reference(s));
      case _ => return Failure(ReferenceNotText);
    }
    field, fields := Pop(fields);
    var joinReference: Option<JoinReference>;
    match field {
      case Null => joinReference := None;
      case String(s) => joinReference := Some(JoinReference(s));
      case _ => return Failure(JoinReferenceNotText);
    }
    r := Classify(joinReference, reference, topic, event, payload);
  }

  /** Decoding accepts exactly what a server writes, and reads the message that was written. */
  lemma DecodeAcceptsWhatIsWritten(j: Json, m: Message)
    ensures Decode(j) == Success(m) <==> Writes(j, m)
  {
    hide ParsePhoenix, PrintPhoenix;
    if j.Array? && |j.elements| == 5 && j.elements[3].String? {
      var text := j.elements[3].text;
      var elements := j.elements;
      assert elements == [elements[0], elements[1], elements[2], elements[3], elements[4]];
      assert PrintEvent(ParseEvent(text)) == text && Canonical(ParseEvent(text)) by {
        EventsReadBack(ParseEvent(text), text);
      }
      forall e: Event | Canonical(e) ensures ParseEvent(PrintEvent(e)) == e {
        EventsReadBack(e, text);
      }
    }
  }

  predicate IsFive(j: Json) {
    j.Array? && |j.elements| == 5
  }

  predicate NullOrText(j: Json) {
    j.Null? || j.String?
  }

  /** Which error is given when: the last field that is not what it should be names it, and of well-formed fields only a
      malformed reply payload and a user event in a control message are refused. */
  lemma RefusedExactly(j: Json)
    ensures Decode(j) == Failure(NotFiveFields) <==> !IsFive(j)
    ensures Decode(j) == Failure(EventNotText) <==> IsFive(j) && !j.elements[3].String?
    ensures Decode(j) == Failure(TopicNotText) <==> IsFive(j) && j.elements[3].String? && !j.elements[2].String?
    ensures Decode(j) == Failure(ReferenceNotText)
            <==> IsFive(j) && j.elements[3].String? && j.elements[2].String? && !NullOrText(j.elements[1])
    ensures Decode(j) == Failure(JoinReferenceNotText)
            <==> && IsFive(j) && j.elements[3].String? && j.elements[2].String? && NullOrText(j.elements[1])
                 && !NullOrText(j.elements[0])
    ensures Decode(j) == Failure(NotAReplyPayload)
            <==> && IsFive(j) && j.elements[0].String? && j.elements[1].String? && j.elements[2].String?
                 && j.elements[3] == String(PrintPhoenix(PhoenixEvent.Reply))
                 && forall status, response :: !IsReplyPayload(j.elements[4], status, response)
    ensures Decode(j) == Failure(UnrecognizedControl)
            <==> && IsFive(j) && j.elements[0].Null? && j.elements[1].String? && j.elements[2].String?
                 && j.elements[3].String? && forall p :: PrintPhoenix(p) != j.elements[3].text
  {
    hide ParsePhoenix, PrintPhoenix;
    if IsFive(j) && j.elements[3].String? {
      var text, payload := j.elements[3].text, j.elements[4];
      PhoenixReadsBack(PhoenixEvent.Reply, text);
      EventsReadBack(ParseEvent(text), text);
      if payload.Object? && STATUS in payload.members && RESPONSE in payload.members
         && payload.members[STATUS].String?
      {
        assert IsReplyPayload(payload, ParseStatus(payload.members[STATUS].text), payload.members[RESPONSE]);
      }
      if ParseEvent(text).Phoenix? {
        assert PrintPhoenix(ParseEvent(text).phoenix) == text;
      }
    }
  }

  // ---------------------------------------------------------------------------------- round trips

  /** What the client would read, were its own message sent back to it. */
  function ReadBack(m: Message): Result<Message, JsonError>
    requires PayloadOf(m).Value?
  {
    match m
    case ControlMessage(e, p, None) =>
      Success(BroadcastMessage(Topic(PHOENIX), EventPayload(ParseEvent(PrintEvent(e)), p)))
    case ControlMessage(e, p, Some(r)) =>
      var event := ParseEvent(PrintEvent(e));
      if event.Phoenix? then Success(ControlMessage(event, p, Some(r))) else Failure(UnrecognizedControl)
    case BroadcastMessage(topic, ep) =>
      Success(BroadcastMessage(topic, EventPayload(ParseEvent(PrintEvent(ep.event)), ep.payload)))
    case ReplyMessage(topic, e, p, joinReference, r, _) => ReferencedReadsBack(topic, e, p.json, joinReference, r)
    case PushMessage(topic, ep, joinReference, Some(r)) =>
      ReferencedReadsBack(topic, ep.event, ep.payload.json, joinReference, r)
    case PushMessage(topic, ep, joinReference, None) =>
      Success(PushMessage(topic, EventPayload(ParseEvent(PrintEvent(ep.event)), ep.payload), joinReference, None))
  }

  /** Replies and referenced pushes look alike: only phx_reply tells them apart. */
  function ReferencedReadsBack(topic: Topic, e: Event, p: Json, joinReference: JoinReference, r: Reference)
    : Result<Message, JsonError>
  {
    var event := ParseEvent(PrintEvent(e));
    if event != Phoenix(PhoenixEvent.Reply) then
      Success(PushMessage(topic, EventPayload(event, Value(p)), joinReference, Some(r)))
    else if p.Object? && STATUS in p.members && RESPONSE in p.members && p.members[STATUS].String? then
      Success(ReplyMessage(topic, event, Value(p.members[RESPONSE]), joinReference, r,
                           ParseStatus(p.members[STATUS].text)))
    else
      Failure(NotAReplyPayload)
  }

  lemma EncodedReadsBack(m: Message)
    requires PayloadOf(m).Value?
    ensures Decode(EncodeJson(m)) == ReadBack(m)
  {
    hide ParseEvent, PrintEvent;
  }

  /** The messages that come back unchanged. */
  ghost predicate Survives(m: Message) {
    match m
    case ControlMessage(e, _, reference) => e.Phoenix? && reference.Some?
    case BroadcastMessage(_, ep) => Canonical(ep.event)
    case ReplyMessage(_, _, _, _, _, _) => false
    case PushMessage(_, ep, _, reference) =>
      Canonical(ep.event) && (reference.Some? ==> ep.event != Phoenix(PhoenixEvent.Reply))
  }

  /** Encoding and decoding again is the identity on exactly these messages. */
  lemma RoundTrip(m: Message)
    requires PayloadOf(m).Value?
    ensures Decode(EncodeJson(m)) == Success(m) <==> Survives(m)
  {
    hide ParsePhoenix, PrintPhoenix, Decode, EncodeJson, ReferencedReadsBack;
    EncodedReadsBack(m);
    match m
    case ControlMessage(e, _, _) => EventsReadBack(e, []);
    case BroadcastMessage(_, ep) => EventsReadBack(ep.event, []);
    case PushMessage(_, ep, _, _) => EventsReadBack(ep.event, []); if m.pushReference.Some? { PushSurvives(m); }
    case ReplyMessage(_, _, _, _, _, _) => NoReplySurvives(m);
  }

  lemma PushSurvives(m: Message)
    requires m.PushMessage? && m.pushReference.Some? && PayloadOf(m).Value?
    ensures ReadBack(m) == Success(m)
            <==> ParseEvent(PrintEvent(m.eventPayload.event)) == m.eventPayload.event
                 && m.eventPayload.event != Phoenix(PhoenixEvent.Reply)
  {
  }

  /** A reply comes back with only the response that was inside its payload. */
  lemma NoReplySurvives(m: Message)
    requires m.ReplyMessage? && PayloadOf(m).Value?
    ensures ReadBack(m) != Success(m)
  {
    var p := m.payload.json;
    assert p.Object? && RESPONSE in p.members ==> p.members[RESPONSE] < p;
  }

  /** How a Phoenix server writes a reply. */
  function ServerReply(m: Message): Json
    requires m.ReplyMessage? && m.payload.Value?
  {
    Array([String(m.joinReference.text), String(m.reference.text), String(m.topic.name), String(PrintEvent(m.event)),
           Object(map[STATUS := String(PrintStatus(m.status)), RESPONSE := m.payload.json])])
  }

  lemma ServerRepliesReadBack(m: Message)
    requires m.ReplyMessage? && m.payload.Value? && m.event == Phoenix(PhoenixEvent.Reply)
    ensures Decode(ServerReply(m)) == Success(m)
  {
    hide ParsePhoenix, PrintPhoenix;
    PhoenixReadsBack(PhoenixEvent.Reply, []);
    StatusesReadBack(m.status);
    assert STATUS[0] != RESPONSE[0];
  }

  /** Writing a message that was read gives back the value it was read from, except that a reply keeps
      only its response and a control message forgets its topic. */
  lemma DecodedWritesBack(j: Json, m: Message)
    requires Decode(j) == Success(m)
    ensures PayloadOf(m).Value?
    ensures EncodeJson(m) == j
            <==> (m.ControlMessage? ==> j.elements[2] == String(PHOENIX)) && !m.ReplyMessage?
  {
    hide ParsePhoenix, PrintPhoenix, Decode;
    DecodeAcceptsWhatIsWritten(j, m);
    if m.ReplyMessage? {
      assert m.payload.json < j.elements[4];
      assert EncodeJson(m).elements[4] == m.payload.json;
    } else {
      assert String(j.elements[2].text) == j.elements[2];
    }
  }
}
