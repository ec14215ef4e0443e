/**
 The binary framing of messages (src/rust/message.rs): one layout for the frames a client sends, another
 for the frames a server sends. A frame is a kind byte, one size byte for each text field, the fields,
 and a payload that takes whatever is left. What a server prints and parses is written here as a
 specification.
 */
module BinaryCodec {
  import opened Wrappers
  import opened Messages
  import opened Utf8

  datatype DecodeError = UnexpectedEof | InvalidUtf8 | InvalidKind | InvalidBinary

  datatype EncodeError = FieldTooLong

  datatype Frame = Frame(kind: Byte, fields: seq<Text>, payload: seq<Byte>)

  // ---------------------------------------------------------------------------------- printing

  /** Every field is short enough for its size byte. */
  predicate Fits(f: Frame) {
    forall i | 0 <= i < |f.fields| :: |f.fields[i]| <= 255
  }

  function Concat(fields: seq<Text>): seq<Byte> {
    if |fields| == 0 then [] else fields[0] + Concat(fields[1..])
  }

  function Print(f: Frame): seq<Byte>
    requires Fits(f)
  {
    [f.kind] + seq(|f.fields|, i requires 0 <= i < |f.fields| => |f.fields[i]|) + Concat(f.fields) + f.payload
  }

  /** Push, Reply and Broadcast frames from a server have three, four and two text fields. */
  function ServerFields(kind: Byte): nat {
    if kind == 0 then 3 else if kind == 1 then 4 else 2
  }

  const CLIENT_FIELDS: nat := 4

  ghost predicate ServerFrame(f: Frame) {
    && Fits(f) && f.kind <= 2 && |f.fields| == ServerFields(f.kind)
    && forall i | 0 <= i < |f.fields| :: ValidUtf8(f.fields[i])
  }

  // ---------------------------------------------------------------------------------- parsing

  /** Cuts fields of the given sizes off the front; a field that is cut short is noticed before one that
      is not text, and an earlier field before a later one. */
  function Split(sizes: seq<Byte>, bytes: seq<Byte>, checked: bool): Result<(seq<Text>, seq<Byte>), DecodeError> {
    if |sizes| == 0 then Success(([], bytes))
    else if |bytes| < sizes[0] then Failure(UnexpectedEof)
    else if checked && !ValidUtf8(bytes[..sizes[0]]) then Failure(InvalidUtf8)
    else
      match Split(sizes[1..], bytes[sizes[0]..], checked)
      case Failure(e) => Failure(e)
      case Success(more) => Success(([bytes[..sizes[0]]] + more.0, more.1))
  }

  function ParseFields(kind: Byte, count: nat, checked: bool, bytes: seq<Byte>): Result<Frame, DecodeError> {
    if |bytes| < count then Failure(UnexpectedEof)
    else
      match Split(bytes[..count], bytes[count..], checked)
      case Failure(e) => Failure(e)
      case Success(split) => Success(Frame(kind, split.0, split.1))
  }

  function ParseServer(bytes: seq<Byte>): Result<Frame, DecodeError> {
    if |bytes| == 0 then Failure(InvalidBinary)
    else if bytes[0] > 2 then Failure(InvalidKind)
    else ParseFields(bytes[0], ServerFields(bytes[0]), true, bytes[1..])
  }

  /** How a Phoenix server reads a frame that a client sent. */
  function ParseClient(bytes: seq<Byte>): Result<Frame, DecodeError> {
    if |bytes| == 0 then Failure(InvalidBinary)
    else if bytes[0] != 0 then Failure(InvalidKind)
    else ParseFields(0, CLIENT_FIELDS, false, bytes[1..])
  }

  /** The bytes are the given texts, of the given sizes, followed by the rest. */
  ghost predicate CutInto(sizes: seq<Byte>, bytes: seq<Byte>, checked: bool, texts: seq<Text>, rest: seq<Byte>) {
    && |texts| == |sizes|
    && (forall i | 0 <= i < |texts| :: |texts[i]| == sizes[i] && (checked ==> ValidUtf8(texts[i])))
    && Concat(texts) + rest == bytes
  }

  lemma CutFirst(sizes: seq<Byte>, bytes: seq<Byte>, checked: bool, texts: seq<Text>, rest: seq<Byte>)
    requires |sizes| == |texts| && |sizes| > 0
    ensures CutInto(sizes, bytes, checked, texts, rest)
            <==> (&& sizes[0] <= |bytes| && texts[0] == bytes[..sizes[0]] && (checked ==> ValidUtf8(texts[0]))
                  && CutInto(sizes[1..], bytes[sizes[0]..], checked, texts[1..], rest))
  {
    hide ValidUtf8;
    assert Concat(texts) + rest == texts[0] + (Concat(texts[1..]) + rest);
    if sizes[0] <= |bytes| {
      assert bytes == bytes[..sizes[0]] + bytes[sizes[0]..];
    }
  }

  lemma {:induction false} SplitInvertsConcat(
      sizes: seq<Byte>, bytes: seq<Byte>, checked: bool, texts: seq<Text>, rest: seq<Byte>)
    ensures Split(sizes, bytes, checked) == Success((texts, rest)) <==> CutInto(sizes, bytes, checked, texts, rest)
  {
    hide ValidUtf8, Concat;
    SplitKeepsCount(sizes, bytes, checked);
    if |sizes| == 0 {
      EmptyConcat();
      assert texts == [] ==> Concat(texts) + rest == rest;
    } else if |texts| == |sizes| {
      hide CutInto;
      CutFirst(sizes, bytes, checked, texts, rest);
      if sizes[0] <= |bytes| {
        SplitInvertsConcat(sizes[1..], bytes[sizes[0]..], checked, texts[1..], rest);
        assert texts == [texts[0]] + texts[1..];
      }
    }
  }

  lemma EmptyConcat()
    ensures Concat([]) == []
  {
  }

  lemma {:induction false} SplitKeepsCount(sizes: seq<Byte>, bytes: seq<Byte>, checked: bool)
    ensures Split(sizes, bytes, checked).Success? ==> |Split(sizes, bytes, checked).value.0| == |sizes|
  {
    hide ValidUtf8;
    if |sizes| > 0 && sizes[0] <= |bytes| {
      SplitKeepsCount(sizes[1..], bytes[sizes[0]..], checked);
    }
  }

  /** Where a field starts, counted from the end of the size bytes. */
  function Offset(sizes: seq<Byte>, i: nat): nat
    requires i <= |sizes|
  {
    if i == 0 then 0 else sizes[0] + Offset(sizes[1..], i - 1)
  }

  ghost predicate Whole(sizes: seq<Byte>, bytes: seq<Byte>, i: nat)
    requires i < |sizes|
  {
    Offset(sizes, i) + sizes[i] <= |bytes|
  }

  ghost predicate IsText(sizes: seq<Byte>, bytes: seq<Byte>, i: nat)
    requires i < |sizes|
  {
    Whole(sizes, bytes, i) && ValidUtf8(bytes[Offset(sizes, i)..][..sizes[i]])
  }

  /** A failure names the first field that is cut short or is not text: the ones before it are fine. */
  lemma {:induction false} FailureNamesFirstBadField(sizes: seq<Byte>, bytes: seq<Byte>) returns (i: nat)
    requires Split(sizes, bytes, true).Failure?
    ensures i < |sizes| && !IsText(sizes, bytes, i)
    ensures forall k: nat | k < i :: IsText(sizes, bytes, k)
    ensures Split(sizes, bytes, true).error == if Whole(sizes, bytes, i) then InvalidUtf8 else UnexpectedEof
  {
    hide ValidUtf8;
    if |bytes| < sizes[0] || !ValidUtf8(bytes[..sizes[0]]) {
      i := 0;
      assert bytes[0..] == bytes;
    } else {
      var rest := bytes[sizes[0]..];
      var j := FailureNamesFirstBadField(sizes[1..], rest);
      i := j + 1;
      assert bytes[0..] == bytes;
      forall k: nat | 0 < k <= i
        ensures IsText(sizes, bytes, k) == IsText(sizes[1..], rest, k - 1)
        ensures Whole(sizes, bytes, k) == Whole(sizes[1..], rest, k - 1)
      {
        if Whole(sizes, bytes, k) {
          assert bytes[Offset(sizes, k)..] == rest[Offset(sizes[1..], k - 1)..];
        }
      }
    }
  }

  lemma ParseFieldsInvertsPrint(kind: Byte, count: nat, checked: bool, bytes: seq<Byte>, f: Frame)
    ensures ParseFields(kind, count, checked, bytes) == Success(f)
            <==> (&& Fits(f) && f.kind == kind && |f.fields| == count
                  && (checked ==> forall i | 0 <= i < count :: ValidUtf8(f.fields[i]))
                  && Print(f) == [kind] + bytes)
  {
    hide ValidUtf8, Split;
    if |bytes| >= count {
      var sizes, body := bytes[..count], bytes[count..];
      assert bytes == sizes + body;
      SplitInvertsConcat(sizes, body, checked, f.fields, f.payload);
      if Fits(f) && |f.fields| == count && f.kind == kind {
        var header := seq(count, i requires 0 <= i < count => |f.fields[i]|);
        assert Print(f) == [kind] + (header + (Concat(f.fields) + f.payload));
        if Print(f) == [kind] + bytes {
          assert header + (Concat(f.fields) + f.payload) == Print(f)[1..] == bytes;
          assert header == bytes[..count];
          assert forall i | 0 <= i < count :: |f.fields[i]| == header[i];
        }
      }
      if Split(sizes, body, checked) == Success((f.fields, f.payload)) {
        assert Fits(f);
      }
    }
  }

  /** A byte string is accepted exactly when a server could have printed it, and the frame read is the
      one that was printed. */
  lemma ParseServerInvertsPrint(bytes: seq<Byte>, f: Frame)
    ensures ParseServer(bytes) == Success(f) <==> ServerFrame(f) && Print(f) == bytes
  {
    hide ValidUtf8, ParseFields;
    if |bytes| > 0 {
      assert bytes == [bytes[0]] + bytes[1..];
      ParseFieldsInvertsPrint(bytes[0], ServerFields(bytes[0]), true, bytes[1..], f);
    }
    if ServerFrame(f) && Print(f) == bytes {
      assert bytes[0] == f.kind;
    }
  }

  lemma ParseClientInvertsPrint(bytes: seq<Byte>, f: Frame)
    ensures ParseClient(bytes) == Success(f)
            <==> Fits(f) && f.kind == 0 && |f.fields| == CLIENT_FIELDS && Print(f) == bytes
  {
    hide ParseFields;
    if |bytes| > 0 {
      assert bytes == [bytes[0]] + bytes[1..];
      ParseFieldsInvertsPrint(0, CLIENT_FIELDS, false, bytes[1..], f);
    }
    if Fits(f) && f.kind == 0 && Print(f) == bytes {
      assert bytes[0] == f.kind;
    }
  }

  // ---------------------------------------------------------------------------------- decoding

  /** The message a server's frame stands for. */
  function Interpret(f: Frame): Message
    requires f.kind <= 2 && |f.fields| == ServerFields(f.kind)
  {
    if f.kind == 0 then
      PushMessage(Topic(f.fields[1]), EventPayload(ParseEvent(f.fields[2]), Binary(f.payload)),
                  JoinReference(f.fields[0]), None)
    else if f.kind == 1 then
      ReplyMessage(Topic(f.fields[2]), Phoenix(PhoenixEvent.Reply), Binary(f.payload),
                   JoinReference(f.fields[0]), Reference(f.fields[1]), ParseStatus(f.fields[3]))
    else
      BroadcastMessage(Topic(f.fields[0]), EventPayload(ParseEvent(f.fields[1]), Binary(f.payload)))
  }

  ghost function Decoded(bytes: seq<Byte>): Result<Message, DecodeError> {
    match ParseServer(bytes)
    case Failure(e) => Failure(e)
    case Success(f) =>
      ParseServerInvertsPrint(bytes, f);
      Success(Interpret(f))
  }

  /** When decoding fails before any field is looked at, and as what. */
  lemma FailsBeforeFields(bytes: seq<Byte>)
    ensures Decoded(bytes) == Failure(InvalidBinary) <==> bytes == []
    ensures Decoded(bytes) == Failure(InvalidKind) <==> bytes != [] && bytes[0] > 2
    ensures bytes != [] && bytes[0] <= 2 && |bytes| <= ServerFields(bytes[0]) ==>
              Decoded(bytes) == Failure(UnexpectedEof)
  {
    hide ValidUtf8, Split;
    if |bytes| > 0 && bytes[0] <= 2 && |bytes| > ServerFields(bytes[0]) {
      var count := ServerFields(bytes[0]);
      SplitFailsByField(bytes[1..][..count], bytes[1..][count..]);
    }
  }

  lemma SplitFailsByField(sizes: seq<Byte>, body: seq<Byte>)
    ensures Split(sizes, body, true).Failure? ==>
              Split(sizes, body, true).error == UnexpectedEof || Split(sizes, body, true).error == InvalidUtf8
  {
    hide ValidUtf8, Split;
    if Split(sizes, body, true).Failure? {
      var i := FailureNamesFirstBadField(sizes, body);
    }
  }

  /** A slice that is consumed from its front. */
  class Slice {
    var bytes: seq<Byte>

    constructor (bytes: seq<Byte>)
      ensures this.bytes == bytes
    {
      this.bytes := bytes;
    }

    method TakeFirst() returns (first: Result<Byte, DecodeError>)
      modifies this
      ensures first.Success? <==> old(bytes) != []
      ensures first.Success? ==> old(bytes) == [first.value] + bytes
      ensures first.Failure? ==> first == Failure(UnexpectedEof) && bytes == old(bytes)
    {
      if |bytes| == 0 {
        return Failure(UnexpectedEof);
      }
      first := Success(bytes[0]);
      bytes := bytes[1..];
    }

    method Take(n: nat) returns (taken: Result<seq<Byte>, DecodeError>)
      modifies this
      ensures taken.Success? <==> n <= |old(bytes)|
      ensures taken.Success? ==> taken.value == old(bytes)[..n] && bytes == old(bytes)[n..]
      ensures taken.Failure? ==> taken == Failure(UnexpectedEof) && bytes == old(bytes)
    {
      if n > |bytes| {
        return Failure(UnexpectedEof);
      }
      taken := Success(bytes[..n]);
      bytes := bytes[n..];
    }

    /** Takes a field and checks that it is text. */
    method TakeText(n: Byte) returns (text: Result<Text, DecodeError>)
      modifies this
      ensures text == (if |old(bytes)| < n then Failure(UnexpectedEof)
                       else if !ValidUtf8(old(bytes)[..n]) then Failure(InvalidUtf8)
                       else Success(old(bytes)[..n]))
      ensures text.Success? ==> bytes == old(bytes)[n..]
    {
      var taken :- Take(n);
      text := if ValidUtf8(taken) then Success(taken) else Failure(InvalidUtf8);
    }
  }

  /** What decoding gives once the sizes have been read. */
  ghost function DecodedSplit(kind: Byte, sizes: seq<Byte>, body: seq<Byte>): Result<Message, DecodeError>
    requires kind <= 2 && |sizes| == ServerFields(kind)
  {
    SplitKeepsCount(sizes, body, true);
    match Split(sizes, body, true)
    case Failure(e) => Failure(e)
    case Success(split) => Success(Interpret(Frame(kind, split.0, split.1)))
  }

  lemma SplitDecodes(kind: Byte, sizes: seq<Byte>, body: seq<Byte>)
    requires kind <= 2 && |sizes| == ServerFields(kind)
    ensures Decoded([kind] + (sizes + body)) == DecodedSplit(kind, sizes, body)
  {
    hide ValidUtf8, Split, Interpret;
    assert ([kind] + (sizes + body))[1..] == sizes + body;
    assert (sizes + body)[..|sizes|] == sizes && (sizes + body)[|sizes|..] == body;
  }

  /** Fewer size bytes than the kind calls for. */
  lemma CutShortInSizes(kind: Byte, bytes: seq<Byte>)
    requires kind <= 2 && |bytes| < ServerFields(kind)
    ensures Decoded([kind] + bytes) == Failure(UnexpectedEof)
  {
    hide ValidUtf8, Split;
    assert ([kind] + bytes)[1..] == bytes;
  }

  lemma SplitFirst(size: Byte, sizes: seq<Byte>, bytes: seq<Byte>)
    ensures Split([size] + sizes, bytes, true)
            == if |bytes| < size then Failure(UnexpectedEof)
               else if !ValidUtf8(bytes[..size]) then Failure(InvalidUtf8)
               else match Split(sizes, bytes[size..], true)
                    case Failure(e) => Failure(e)
                    case Success(more) => Success(([bytes[..size]] + more.0, more.1))
  {
    hide ValidUtf8;
    assert ([size] + sizes)[1..] == sizes;
  }

  method DecodeBroadcast(slice: Slice) returns (r: Result<Message, DecodeError>)
    modifies slice
    ensures r == Decoded([2] + old(slice.bytes))
  {
    hide ValidUtf8, Decoded;
    ghost var bytes := slice.bytes;
    if |bytes| < 2 { CutShortInSizes(2, bytes); }
    var topicSize :- slice.TakeFirst();
    var eventSize :- slice.TakeFirst();
    ghost var s1 := [eventSize] + [];
    ghost var s0 := [topicSize] + s1;
    assert bytes == s0 + slice.bytes;
    SplitDecodes(2, s0, slice.bytes);
    SplitFirst(topicSize, s1, slice.bytes);
    var topic :- slice.TakeText(topicSize);
    SplitFirst(eventSize, [], slice.bytes);
    var event :- slice.TakeText(eventSize);
    r := Success(BroadcastMessage(Topic(topic), EventPayload(ParseEvent(event), Binary(slice.bytes))));
  }

  method DecodeReply(slice: Slice) returns (r: Result<Message, DecodeError>)
    modifies slice
    ensures r == Decoded([1] + old(slice.bytes))
  {
    hide ValidUtf8, Decoded;
    ghost var bytes := slice.bytes;
    if |bytes| < 4 { CutShortInSizes(1, bytes); }
    var joinReferenceSize :- slice.TakeFirst();
    var referenceSize :- slice.TakeFirst();
    var topicSize :- slice.TakeFirst();
    var statusSize :- slice.TakeFirst();
    ghost var s3 := [statusSize] + [];
    ghost var s2 := [topicSize] + s3;
    ghost var s1 := [referenceSize] + s2;
    ghost var s0 := [joinReferenceSize] + s1;
    assert bytes == s0 + slice.bytes;
    SplitDecodes(1, s0, slice.bytes);
    SplitFirst(joinReferenceSize, s1, slice.bytes);
    var joinReference :- slice.TakeText(joinReferenceSize);
    SplitFirst(referenceSize, s2, slice.bytes);
    var reference :- slice.TakeText(referenceSize);
    SplitFirst(topicSize, s3, slice.bytes);
    var topic :- slice.TakeText(topicSize);
    SplitFirst(statusSize, [], slice.bytes);
    var status :- slice.TakeText(statusSize);
    r := Success(ReplyMessage(Topic(topic), Phoenix(PhoenixEvent.Reply), Binary(slice.bytes),
                              JoinReference(joinReference), Reference(reference), ParseStatus(status)));
  }

  method DecodePush(slice: Slice) returns (r: Result<Message, DecodeError>)
    modifies slice
    ensures r == Decoded([0] + old(slice.bytes))
  {
    hide ValidUtf8, Decoded;
    ghost var bytes := slice.bytes;
    if |bytes| < 3 { CutShortInSizes(0, bytes); }
    var joinReferenceSize :- slice.TakeFirst();
    var topicSize :- slice.TakeFirst();
    var eventSize :- slice.TakeFirst();
    ghost var s2 := [eventSize] + [];
    ghost var s1 := [topicSize] + s2;
    ghost var s0 := [joinReferenceSize] + s1;
    assert bytes == s0 + slice.bytes;
    SplitDecodes(0, s0, slice.bytes);
    SplitFirst(joinReferenceSize, s1, slice.bytes);
    var joinReference :- slice.TakeText(joinReferenceSize);
    SplitFirst(topicSize, s2, slice.bytes);
    var topic :- slice.TakeText(topicSize);
    SplitFirst(eventSize, [], slice.bytes);
    var event :- slice.TakeText(eventSize);
    r := Success(PushMessage(Topic(topic), EventPayload(ParseEvent(event), Binary(slice.bytes)),
                             JoinReference(joinReference), None));
  }

  /** Reads a server's binary frame. The accepted inputs are exactly the printed server frames. */
  method DecodeBinary(input: seq<Byte>) returns (r: Result<Message, DecodeError>)
    ensures r == Decoded(input)
    ensures r.Success? <==> exists f :: ServerFrame(f) && Print(f) == input
    ensures forall f | ServerFrame(f) && Print(f) == input :: r == Success(Interpret(f))
  {
    hide ValidUtf8, Interpret, ParseServer, Print;
    forall f ensures ParseServer(input) == Success(f) <==> ServerFrame(f) && Print(f) == input {
      ParseServerInvertsPrint(input, f);
    }
    r := DecodeInput(input);
  }

  method DecodeInput(input: seq<Byte>) returns (r: Result<Message, DecodeError>)
    ensures r == Decoded(input)
  {
    hide ValidUtf8, ParseFields;
    if |input| == 0 {
      return Failure(InvalidBinary);
    }
    var slice := new Slice(input);
    var first := slice.TakeFirst(); // cannot fail: the input is not empty
    var kind := first.Extract();
    if kind == 2 {
      r := DecodeBroadcast(slice);
    } else if kind == 1 {
      r := DecodeReply(slice);
    } else if kind == 0 {
      r := DecodePush(slice);
    } else {
      r := Failure(InvalidKind);
    }
  }

  /** What a server's bytes are read as: a push names its join reference, topic and event. */
  lemma ServerPushReadsAs(a: Text, b: Text, c: Text, payload: seq<Byte>)
    requires |a| <= 255 && |b| <= 255 && |c| <= 255 && ValidUtf8(a) && ValidUtf8(b) && ValidUtf8(c)
    ensures Decoded([0, |a|, |b|, |c|] + a + b + c + payload)
            == Success(PushMessage(Topic(b), EventPayload(ParseEvent(c), Binary(payload)), JoinReference(a), None))
  {
    hide ValidUtf8, ParseEvent, ParseStatus, Decoded, Split;
    var sizes: seq<Byte> := [|a|, |b|, |c|];
    var body := a + b + c + payload;
    assert [0, |a|, |b|, |c|] + a + b + c + payload == [0] + (sizes + body);
    SplitDecodes(0, sizes, body);
    ConcatThree(a, b, c);
    SplitInvertsConcat(sizes, body, true, [a, b, c], payload);
    assert CutInto(sizes, body, true, [a, b, c], payload);
  }

  /** A reply names its join reference, reference, topic and status. */
  lemma ServerReplyReadsAs(a: Text, b: Text, c: Text, d: Text, payload: seq<Byte>)
    requires |a| <= 255 && |b| <= 255 && |c| <= 255 && |d| <= 255
    requires ValidUtf8(a) && ValidUtf8(b) && ValidUtf8(c) && ValidUtf8(d)
    ensures Decoded([1, |a|, |b|, |c|, |d|] + a + b + c + d + payload)
            == Success(ReplyMessage(Topic(c), Phoenix(PhoenixEvent.Reply), Binary(payload), JoinReference(a),
                                    Reference(b), ParseStatus(d)))
  {
    hide ValidUtf8, ParseEvent, ParseStatus, Decoded, Split;
    var sizes: seq<Byte> := [|a|, |b|, |c|, |d|];
    var body := a + b + c + d + payload;
    assert [1, |a|, |b|, |c|, |d|] + a + b + c + d + payload == [1] + (sizes + body);
    SplitDecodes(1, sizes, body);
    SplitInvertsConcat(sizes, body, true, [a, b, c, d], payload);
    ConcatFour(a, b, c, d);
    assert CutInto(sizes, body, true, [a, b, c, d], payload);
  }

  /** A broadcast names its topic and event. */
  lemma ServerBroadcastReadsAs(a: Text, b: Text, payload: seq<Byte>)
    requires |a| <= 255 && |b| <= 255 && ValidUtf8(a) && ValidUtf8(b)
    ensures Decoded([2, |a|, |b|] + a + b + payload)
            == Success(BroadcastMessage(Topic(a), EventPayload(ParseEvent(b), Binary(payload))))
  {
    hide ValidUtf8, ParseEvent, ParseStatus, Decoded, Split;
    var sizes: seq<Byte> := [|a|, |b|];
    var body := a + b + payload;
    assert [2, |a|, |b|] + a + b + payload == [2] + (sizes + body);
    SplitDecodes(2, sizes, body);
    SplitInvertsConcat(sizes, body, true, [a, b], payload);
    assert [a, b][1..] == [b] && Concat([b]) == b + Concat([b][1..]) == b;
    assert CutInto(sizes, body, true, [a, b], payload);
  }

  lemma ConcatThree(a: Text, b: Text, c: Text)
    ensures Concat([a, b, c]) == a + b + c
  {
    assert Concat([c]) == c + Concat([c][1..]) == c;
    assert [b, c][1..] == [c] && Concat([b, c]) == b + c;
    assert [a, b, c][1..] == [b, c] && Concat([a, b, c]) == a + (b + c);
  }

  // ---------------------------------------------------------------------------------- encoding

  function OptionalText(reference: Option<Reference>): Text {
    if reference.Some? then reference.value.text else []
  }

  /** The four text fields and the payload that a client frame carries for a message. */
  function ClientFrame(m: Message): Frame
    requires PayloadOf(m).Binary?
  {
    var fields :=
      match m
      case ControlMessage(event, _, reference) =>
        [[], OptionalText(reference), PHOENIX, PrintEvent(event)]
      case BroadcastMessage(topic, ep) => [[], [], topic.name, PrintEvent(ep.event)]
      case ReplyMessage(topic, event, _, joinReference, reference, _) =>
        [joinReference.text, reference.text, topic.name, PrintEvent(event)]
      case PushMessage(topic, ep, joinReference, reference) =>
        [joinReference.text, OptionalText(reference), topic.name, PrintEvent(ep.event)];
    Frame(0, fields, PayloadOf(m).bytes)
  }

  /** The four texts that a client frame names for a message: a control message and a broadcast come from no join, and
      only a reply, a referenced push or a referenced control message has a reference. */
  ghost predicate Names(m: Message, joinReference: Text, reference: Text, topic: Text, event: Text) {
    match m
    case ControlMessage(e, _, ref) =>
      && joinReference == [] && reference == (if ref.Some? then ref.value.text else [])
      && topic == [112, 104, 111, 101, 110, 105, 120] && event == PrintEvent(e)
    case BroadcastMessage(t, ep) =>
      joinReference == [] && reference == [] && topic == t.name && event == PrintEvent(ep.event)
    case ReplyMessage(t, e, _, joinRef, ref, _) =>
      joinReference == joinRef.text && reference == ref.text && topic == t.name && event == PrintEvent(e)
    case PushMessage(t, ep, joinRef, ref) =>
      && joinReference == joinRef.text && reference == (if ref.Some? then ref.value.text else [])
      && topic == t.name && event == PrintEvent(ep.event)
  }

  /** The bytes of a client frame, field by field. */
  predicate LaidOut(bytes: seq<Byte>, joinReference: Text, reference: Text, topic: Text, event: Text,
                    payload: seq<Byte>)
  {
    && |joinReference| <= 255 && |reference| <= 255 && |topic| <= 255 && |event| <= 255
    && bytes == [0, |joinReference|, |reference|, |topic|, |event|]
                + joinReference + reference + topic + event + payload
  }

  lemma ClientFrameNames(m: Message, joinReference: Text, reference: Text, topic: Text, event: Text)
    requires PayloadOf(m).Binary?
    ensures Names(m, joinReference, reference, topic, event)
            <==> ClientFrame(m).fields == [joinReference, reference, topic, event]
  {
    hide PrintEvent;
    NamesInBytes();
    var fields := ClientFrame(m).fields;
    assert fields == [fields[0], fields[1], fields[2], fields[3]];
  }

  method EncodeBinary(m: Message) returns (r: Result<seq<Byte>, EncodeError>)
    requires PayloadOf(m).Binary?
    ensures r.Success? <==> Fits(ClientFrame(m))
    ensures r.Success? ==> r.value == Print(ClientFrame(m)) && ParseClient(r.value) == Success(ClientFrame(m))
    ensures r.Success? ==> |r.value| == 5 + |Concat(ClientFrame(m).fields)| + |PayloadOf(m).bytes|
    ensures forall j, ref, t, e | Names(m, j, ref, t, e) :: r.Success? ==>
              && LaidOut(r.value, j, ref, t, e, PayloadOf(m).bytes)
              && ParseClient(r.value) == Success(Frame(0, [j, ref, t, e], PayloadOf(m).bytes))
  {
    hide ParseClient, Print, Fits, PrintEvent, Names, LaidOut;
    match m {
      case ControlMessage(event, payload, reference) =>
        r := PutFrame([], OptionalText(reference), PHOENIX, PrintEvent(event), payload.bytes);
      case BroadcastMessage(topic, ep) =>
        r := PutFrame([], [], topic.name, PrintEvent(ep.event), ep.payload.bytes);
      case ReplyMessage(topic, event, payload, joinReference, reference, _) =>
        r := PutFrame(joinReference.text, reference.text, topic.name, PrintEvent(event), payload.bytes);
      case PushMessage(topic, ep, joinReference, reference) =>
        r := PutFrame(joinReference.text, OptionalText(reference), topic.name, PrintEvent(ep.event), ep.payload.bytes);
    }
    if r.Success? {
      ParseClientInvertsPrint(r.value, ClientFrame(m));
      forall j, ref, t, e | Names(m, j, ref, t, e)
        ensures LaidOut(r.value, j, ref, t, e, PayloadOf(m).bytes)
        ensures ClientFrame(m) == Frame(0, [j, ref, t, e], PayloadOf(m).bytes)
      {
        ClientFrameNames(m, j, ref, t, e);
        PrintedFour(j, ref, t, e, PayloadOf(m).bytes);
      }
    }
  }

  /** Fills a buffer with a push frame, refusing a field that does not fit its size byte. */
  method PutFrame(joinReference: Text, reference: Text, topic: Text, event: Text, payload: seq<Byte>)
    returns (r: Result<seq<Byte>, EncodeError>)
    ensures var f := Frame(0, [joinReference, reference, topic, event], payload);
            && (r.Success? <==> Fits(f))
            && (r.Success? ==> r.value == Print(f) && |r.value| == 5 + |Concat(f.fields)| + |payload|)
  {
    ghost var f := Frame(0, [joinReference, reference, topic, event], payload);
    assert f.fields[0] == joinReference && f.fields[1] == reference && f.fields[2] == topic && f.fields[3] == event;
    var joinReferenceSize :- SizeByte(joinReference);
    var referenceSize :- SizeByte(reference);
    var topicSize :- SizeByte(topic);
    var eventSize :- SizeByte(event);
    var buffer: seq<Byte> := [0];
    buffer := buffer + [joinReferenceSize];
    buffer := buffer + [referenceSize];
    buffer := buffer + [topicSize];
    buffer := buffer + [eventSize];
    ghost var header := buffer;
    buffer := buffer + joinReference;
    buffer := buffer + reference;
    buffer := buffer + topic;
    buffer := buffer + event;
    buffer := buffer + payload;
    ConcatFour(joinReference, reference, topic, event);
    assert header == [f.kind] + seq(|f.fields|, i requires 0 <= i < |f.fields| => |f.fields[i]|);
    assert buffer == header + Concat(f.fields) + f.payload;
    r := Success(buffer);
  }

  function SizeByte(text: Text): Result<Byte, EncodeError> {
    if |text| <= 255 then Success(|text|) else Failure(FieldTooLong)
  }

  lemma PrintedFour(a: Text, b: Text, c: Text, d: Text, payload: seq<Byte>)
    requires Fits(Frame(0, [a, b, c, d], payload))
    ensures LaidOut(Print(Frame(0, [a, b, c, d], payload)), a, b, c, d, payload)
  {
    var fields := [a, b, c, d];
    assert fields[0] == a && fields[1] == b && fields[2] == c && fields[3] == d;
    ConcatFour(a, b, c, d);
    assert seq(4, i requires 0 <= i < 4 => |fields[i]|) == [|a|, |b|, |c|, |d|];
  }

  lemma ConcatFour(a: Text, b: Text, c: Text, d: Text)
    ensures Concat([a, b, c, d]) == a + b + c + d
  {
    assert Concat([d]) == d + Concat([d][1..]) == d;
    assert [c, d][1..] == [d] && Concat([c, d]) == c + d;
    assert [b, c, d][1..] == [c, d] && Concat([b, c, d]) == b + (c + d);
    assert [a, b, c, d][1..] == [b, c, d] && Concat([a, b, c, d]) == a + (b + (c + d));
  }

  // ---------------------------------------------------------------------------------- round trips

  /** Two messages have the same binary form exactly when they have the same four texts and payload: so
      the form tells neither a reply from a push, nor an ok from an error. */
  lemma SameBytesSameFields(m: Message, n: Message)
    requires PayloadOf(m).Binary? && PayloadOf(n).Binary?
    requires Fits(ClientFrame(m)) && Fits(ClientFrame(n))
    ensures Print(ClientFrame(m)) == Print(ClientFrame(n)) <==> ClientFrame(m) == ClientFrame(n)
  {
    hide ParseClient, Print;
    ParseClientInvertsPrint(Print(ClientFrame(m)), ClientFrame(m));
    ParseClientInvertsPrint(Print(ClientFrame(m)), ClientFrame(n));
  }

  /** The shapes that a server can send in binary, with their events as a reader normalises them. */
  predicate FromServer(m: Message) {
    match m
    case ControlMessage(_, _, _) => false
    case BroadcastMessage(_, ep) => ep.payload.Binary?
    case ReplyMessage(_, event, payload, _, _, _) => event == Phoenix(PhoenixEvent.Reply) && payload.Binary?
    case PushMessage(_, ep, _, reference) => ep.payload.Binary? && reference == None
  }

  function ServerFrameOf(m: Message): Frame
    requires FromServer(m)
  {
    match m
    case BroadcastMessage(topic, ep) => Frame(2, [topic.name, PrintEvent(ep.event)], ep.payload.bytes)
    case ReplyMessage(topic, _, payload, joinReference, reference, status) =>
      Frame(1, [joinReference.text, reference.text, topic.name, PrintStatus(status)], payload.bytes)
    case PushMessage(topic, ep, joinReference, _) =>
      Frame(0, [joinReference.text, topic.name, PrintEvent(ep.event)], ep.payload.bytes)
  }

  /** A decoded message prints back to the bytes it came from, unless it is a reply whose status text was
      neither of the two that are told apart. */
  lemma DecodedPrintsBack(f: Frame)
    requires ServerFrame(f)
    ensures var m := Interpret(f);
            && FromServer(m)
            && (Fits(ServerFrameOf(m)) && Print(ServerFrameOf(m)) == Print(f)
                <==> (f.kind == 1 ==> f.fields[3] in [Ascii("ok"), Ascii("error")]))
  {
    hide ValidUtf8, Print, ParsePhoenix, ParseServer;
    var m := Interpret(f);
    if f.kind == 1 {
      StatusesReadBack(StatusOk);
      StatusesReadBack(StatusError);
      assert f.fields == [f.fields[0], f.fields[1], f.fields[2], f.fields[3]];
      ParseServerInvertsPrint(Print(f), f);
      if Fits(ServerFrameOf(m)) && Print(ServerFrameOf(m)) == Print(f) {
        PrintIsInjective(ServerFrameOf(m), f);
      }
    } else {
      EventsReadBack(if f.kind == 0 then ParseEvent(f.fields[2]) else ParseEvent(f.fields[1]),
                     if f.kind == 0 then f.fields[2] else f.fields[1]);
      assert f.kind == 0 ==> f.fields == [f.fields[0], f.fields[1], f.fields[2]];
      assert f.kind == 2 ==> f.fields == [f.fields[0], f.fields[1]];
    }
  }

  lemma PrintIsInjective(f: Frame, g: Frame)
    requires Fits(f) && Fits(g) && |f.fields| == |g.fields| && Print(f) == Print(g)
    ensures f == g
  {
    hide ParseFields;
    var bytes := Print(f)[1..];
    assert Print(f) == [f.kind] + bytes && Print(g) == [g.kind] + bytes by {
      assert Print(f)[0] == f.kind && Print(g)[0] == g.kind;
    }
    assert f.kind == g.kind by {
      assert Print(f)[0] == f.kind && Print(g)[0] == g.kind;
    }
    ParseFieldsInvertsPrint(f.kind, |f.fields|, false, bytes, f);
    ParseFieldsInvertsPrint(f.kind, |f.fields|, false, bytes, g);
  }

  /** Sent by a server and decoded, a message comes back unchanged exactly when its event was already the
      one its text reads as. */
  lemma ServerRoundTrip(m: Message)
    requires FromServer(m) && ServerFrame(ServerFrameOf(m))
    ensures Decoded(Print(ServerFrameOf(m))) == Success(Interpret(ServerFrameOf(m)))
    ensures Interpret(ServerFrameOf(m)) == m
            <==> (!m.ReplyMessage? && m.eventPayload.event.User?
                  ==> forall p :: PrintPhoenix(p) != m.eventPayload.event.name)
  {
    hide ValidUtf8, Print, ParsePhoenix, ParseServer;
    ParseServerInvertsPrint(Print(ServerFrameOf(m)), ServerFrameOf(m));
    if m.ReplyMessage? {
      StatusesReadBack(m.status);
    } else {
      EventsReadBack(m.eventPayload.event, []);
    }
  }

  /** Fields that are not cut short either split off or are not text. */
  lemma SplitThree(x: Byte, y: Byte, z: Byte, bytes: seq<Byte>)
    requires x + y + z <= |bytes|
    ensures var (second, third, rest) := (bytes[x..][..y], bytes[x + y..][..z], bytes[x + y + z..]);
            Split([x, y, z], bytes, true)
            == if ValidUtf8(bytes[..x]) && ValidUtf8(second) && ValidUtf8(third) then
                 Success(([bytes[..x], second, third], rest))
               else Failure(InvalidUtf8)
  {
    hide ValidUtf8;
    var tail := bytes[x..];
    var last := bytes[x + y..];
    assert tail[y..] == last && last[z..] == bytes[x + y + z..];
    SplitFirst(z, [], last);
    assert [z] + [] == [z] && [last[..z]] + [] == [last[..z]];
    SplitFirst(y, [z], tail);
    assert [y] + [z] == [y, z];
    SplitFirst(x, [y, z], bytes);
    assert [x] + [y, z] == [x, y, z];
    assert [bytes[..x]] + ([tail[..y]] + [last[..z]]) == [bytes[..x], tail[..y], last[..z]];
  }

  /** What is left of a client frame when its kind and first three sizes have been read as a server's. */
  function Slipped(f: Frame): seq<Byte>
    requires Fits(f) && |f.fields| == CLIENT_FIELDS
  {
    [|f.fields[3]|] + Concat(f.fields) + f.payload
  }

  lemma ClientFrameAsServer(f: Frame)
    requires Fits(f) && f.kind == 0 && |f.fields| == CLIENT_FIELDS
    ensures Print(f) == [0] + ([|f.fields[0]|, |f.fields[1]|, |f.fields[2]|] + Slipped(f))
    ensures |Slipped(f)| == |f.fields[0]| + |f.fields[1]| + |f.fields[2]| + |f.fields[3]| + 1 + |f.payload|
  {
    assert f.fields == [f.fields[0], f.fields[1], f.fields[2], f.fields[3]];
    ConcatFour(f.fields[0], f.fields[1], f.fields[2], f.fields[3]);
  }

  /** What a client sent in binary never decodes to what it sent: the event's size byte falls into the
      first field, every boundary slips by one, and the payload grows by the event and that byte. It
      decodes at all exactly when the three slipped texts happen to be text. */
  lemma ClientFramesMisread(m: Message)
    requires PayloadOf(m).Binary? && Fits(ClientFrame(m))
    ensures var f, r := ClientFrame(m), Decoded(Print(ClientFrame(m)));
            var x, y, z, body := |f.fields[0]|, |f.fields[1]|, |f.fields[2]|, Slipped(f);
            && x + y + z < |body|
            && (r.Success? <==> ValidUtf8(body[..x]) && ValidUtf8(body[x..][..y]) && ValidUtf8(body[x + y..][..z]))
            && (r.Failure? ==> r.error == InvalidUtf8)
            && (r.Success? ==>
                  && r.value.PushMessage? && r.value != m
                  && PayloadOf(r.value) == Binary(body[x + y + z..])
                  && |body[x + y + z..]| == |PayloadOf(m).bytes| + |f.fields[3]| + 1)
  {
    hide ValidUtf8, PrintEvent, ParseEvent, Split, Decoded, Slipped, Print, Concat;
    var f := ClientFrame(m);
    var sizes: seq<Byte> := [|f.fields[0]|, |f.fields[1]|, |f.fields[2]|];
    ClientFrameAsServer(f);
    SplitDecodes(0, sizes, Slipped(f));
    SplitThree(sizes[0], sizes[1], sizes[2], Slipped(f));
  }
}
