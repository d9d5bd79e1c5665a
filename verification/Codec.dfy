/** Messages on the wire: a four-byte length and a JSON text. The JSON text itself is
    a printer and a parser given as parameters. */
module Codec {
  import opened Wrappers

  newtype Byte = x: int | 0 <= x < 256

  const MAX_FRAME_BYTES := 1024 * 1024

  // --------------------------------------------------------------------- envelopes

  datatype MessageKind = Request | Response | Event

  /** A JSON payload: an object with its fields, or anything else. */
  datatype Payload = Object(fields: map<string, string>) | OtherJson(text: string)

  datatype Envelope = Envelope(
    version: string, id: nat, kind: MessageKind, name: string, correlation: Option<nat>, instance: Option<nat>,
    sequence: Option<nat>, payload: Payload, error: Option<string>)

  datatype EnvelopeError =
    | ProtocolVersion(version: string)
    | InvalidName
    | PayloadNotObject
    | IncompleteResponse
    | IncompleteEvent
    | InvalidRequestMetadata
    | NonEmptyErrorPayload

  predicate IsLower(c: char) { 'a' <= c <= 'z' }

  predicate IsWordChar(c: char) { IsLower(c) || '0' <= c <= '9' || c == '_' }

  predicate ValidIdentifier(part: string) {
    part != "" && IsLower(part[0]) && forall i :: 0 < i < |part| ==> IsWordChar(part[i])
  }

  /** The parts between the dots of a name, the last one still open. */
  function SplitDots(name: string): (parts: seq<string>)
    ensures parts != []
    decreases |name|
  {
    if name == "" then [""]
    else
      var front, c := SplitDots(name[..|name| - 1]), name[|name| - 1];
      if c == '.' then front + [""] else front[..|front| - 1] + [front[|front| - 1] + [c]]
  }

  predicate ValidMessageName(name: string) {
    var parts := SplitDots(name);
    |parts| >= 2 && forall i :: 0 <= i < |parts| ==> ValidIdentifier(parts[i])
  }

  function Validate(e: Envelope): Option<EnvelopeError> {
    if e.version != "1.0" then Some(ProtocolVersion(e.version))
    else if !ValidMessageName(e.name) then Some(InvalidName)
    else if e.payload.OtherJson? then Some(PayloadNotObject)
    else if e.kind == Request && (e.correlation.Some? || e.sequence.Some?) then Some(InvalidRequestMetadata)
    else if e.kind == Response && (e.correlation.None? || e.instance.None?) then Some(IncompleteResponse)
    else if e.kind == Event && (e.instance.None? || e.sequence.None? || e.sequence.value == 0) then
      Some(IncompleteEvent)
    else if e.error.Some? && e.payload.fields != map[] then Some(NonEmptyErrorPayload)
    else None
  }

  /** Which envelopes are valid, and what the others are told: the first complaint that
      applies. */
  lemma ValidateIs(e: Envelope)
    ensures var named := ValidMessageName(e.name);
            var bare := e.correlation.None? && e.sequence.None?;
            var answered := e.correlation.Some? && e.instance.Some?;
            var numbered := e.instance.Some? && e.sequence.Some? && e.sequence.value > 0;
            match Validate(e)
            case None =>
              && e.version == "1.0" && named && e.payload.Object?
              && (e.kind == Request ==> bare) && (e.kind == Response ==> answered) && (e.kind == Event ==> numbered)
              && (e.error.Some? ==> e.payload.fields == map[])
            case Some(ProtocolVersion(v)) => e.version == v && v != "1.0"
            case Some(InvalidName) => e.version == "1.0" && !named
            case Some(PayloadNotObject) => e.version == "1.0" && named && !e.payload.Object?
            case Some(complaint) =>
              && e.version == "1.0" && named && e.payload.Object?
              && (complaint.InvalidRequestMetadata? <==> e.kind == Request && !bare)
              && (complaint.IncompleteResponse? <==> e.kind == Response && !answered)
              && (complaint.IncompleteEvent? <==> e.kind == Event && !numbered)
              && (complaint.NonEmptyErrorPayload? ==> e.error.Some? && e.payload.fields != map[])
  {
    hide ValidMessageName;
  }

  // ------------------------------------------------------------------------ frames

  datatype FrameError =
    | TooLarge(actual: nat)
    | TruncatedHeader
    | TruncatedPayload(expected: nat, got: nat)
    | Io
    | Json
    | BadEnvelope(reason: EnvelopeError)

  datatype JsonText = JsonText(textOf: Envelope -> seq<Byte>, parse: seq<Byte> -> Option<Envelope>)

  /** Every valid envelope is read back from its own text. */
  ghost predicate RoundTrips(json: JsonText) {
    forall e: Envelope :: Validate(e).None? ==> json.parse(json.textOf(e)) == Some(e)
  }

  lemma DigitsAddUp(n: nat)
    ensures n == n / 0x100_0000 * 0x100_0000 + n / 0x1_0000 % 0x100 * 0x1_0000 + n / 0x100 % 0x100 * 0x100 + n % 0x100
  {
    var a, b, c := n / 0x100, n / 0x1_0000, n / 0x100_0000;
    assert n == 0x100 * a + n % 0x100;
    assert a == 0x100 * b + a % 0x100;
    assert b == 0x100 * c + b % 0x100;
  }

  /** Four bytes, the most significant first. */
  function BigEndian(n: nat): (bytes: seq<Byte>)
    requires n < 0x1_0000_0000
    ensures |bytes| == 4
    ensures n == bytes[0] as int * 0x100_0000 + bytes[1] as int * 0x1_0000 + bytes[2] as int * 0x100 + bytes[3] as int
  {
    DigitsAddUp(n);
    [(n / 0x100_0000) as Byte, (n / 0x1_0000 % 0x100) as Byte, (n / 0x100 % 0x100) as Byte, (n % 0x100) as Byte]
  }

  function FromBigEndian(bytes: seq<Byte>): nat
    requires |bytes| == 4
  {
    bytes[0] as int * 0x100_0000 + bytes[1] as int * 0x1_0000 + bytes[2] as int * 0x100 + bytes[3] as int
  }

  lemma BigEndianRoundTrip(n: nat)
    requires n < 0x1_0000_0000
    ensures FromBigEndian(BigEndian(n)) == n
  {}

  function Encoded(json: JsonText, e: Envelope): Result<seq<Byte>, FrameError> {
    if Validate(e).Some? then Err(BadEnvelope(Validate(e).value))
    else if |json.textOf(e)| > MAX_FRAME_BYTES then Err(TooLarge(|json.textOf(e)|))
    else Ok(BigEndian(|json.textOf(e)|) + json.textOf(e))
  }

  /** A payload read as an envelope. */
  function Understood(json: JsonText, payload: seq<Byte>): Result<Envelope, FrameError> {
    match json.parse(payload)
    case None => Err(Json)
    case Some(e) => if Validate(e).Some? then Err(BadEnvelope(Validate(e).value)) else Ok(e)
  }

  function Decoded(json: JsonText, frame: seq<Byte>): Result<Envelope, FrameError> {
    if |frame| < 4 then Err(TruncatedHeader)
    else
      var length := FromBigEndian(frame[..4]);
      if length > MAX_FRAME_BYTES then Err(TooLarge(length))
      else if |frame| - 4 != length then Err(TruncatedPayload(length, |frame| - 4))
      else Understood(json, frame[4..])
  }

  /** The first frame of a stream, and what is left of the stream. */
  function FirstFrame(json: JsonText, stream: seq<Byte>): (Result<Envelope, FrameError>, seq<Byte>) {
    if |stream| < 4 then (Err(TruncatedHeader), [])
    else
      var length := FromBigEndian(stream[..4]);
      if length > MAX_FRAME_BYTES then (Err(TooLarge(length)), stream[4..])
      else if |stream| - 4 < length then (Err(TruncatedPayload(length, 0)), [])
      else (Understood(json, stream[4..4 + length]), stream[4 + length..])
  }

  method EncodeFrame(json: JsonText, e: Envelope) returns (r: Result<seq<Byte>, FrameError>)
    ensures r == Encoded(json, e)
  {
    var invalid := Validate(e);
    if invalid.Some? { return Err(BadEnvelope(invalid.value)); }
    var payload := json.textOf(e);
    if |payload| > MAX_FRAME_BYTES { return Err(TooLarge(|payload|)); }
    var frame := [];
    frame := frame + BigEndian(|payload|);
    assert frame == BigEndian(|payload|);
    frame := frame + payload;
    r := Ok(frame);
  }

  /** A byte stream with one writer at its end and one reader at its front. */
  class ByteStream {
    var bytes: seq<Byte>

    constructor ()
      ensures bytes == []
    {
      bytes := [];
    }

    /** The stream takes at most `room` more bytes: a frame that does not fit is an error,
        and what fitted of it has been written. */
    method WriteFrame(json: JsonText, e: Envelope, room: nat) returns (error: Option<FrameError>)
      modifies this
      ensures match Encoded(json, e)
              case Err(reason) => error == Some(reason) && bytes == old(bytes)
              case Ok(frame) => if |frame| <= room then error == None && bytes == old(bytes) + frame
                                else error == Some(Io) && bytes == old(bytes) + frame[..room]
    {
      var frame := EncodeFrame(json, e);
      if frame.Err? { return Some(frame.error); }
      if room < |frame.value| {
        bytes := bytes + frame.value[..room];
        return Some(Io);
      }
      bytes := bytes + frame.value;
      error := None;
    }

    /** Takes `n` bytes off the front, or whatever there is if that is less. */
    method ReadExact(n: nat) returns (taken: Option<seq<Byte>>)
      modifies this
      ensures if |old(bytes)| < n then taken == None && bytes == []
              else taken == Some(old(bytes)[..n]) && bytes == old(bytes)[n..]
    {
      if |bytes| < n {
        bytes := [];
        return None;
      }
      taken := Some(bytes[..n]);
      bytes := bytes[n..];
    }

    method ReadFrame(json: JsonText) returns (r: Result<Envelope, FrameError>)
      modifies this
      ensures (r, bytes) == FirstFrame(json, old(bytes))
    {
      ghost var stream := bytes;
      var header := ReadExact(4);
      if header.None? { return Err(TruncatedHeader); }
      var length := FromBigEndian(header.value);
      if length > MAX_FRAME_BYTES { return Err(TooLarge(length)); }
      var payload := ReadExact(length);
      if payload.None? { return Err(TruncatedPayload(length, 0)); }
      assert payload.value == stream[4..4 + length] && bytes == stream[4 + length..];
      var parsed := json.parse(payload.value);
      if parsed.None? { return Err(Json); }
      var invalid := Validate(parsed.value);
      if invalid.Some? { return Err(BadEnvelope(invalid.value)); }
      r := Ok(parsed.value);
    }
  }

  // -------------------------------------------------------------------------- laws

  /** The number that the first four bytes of a stream give, the first byte first. */
  function Length(stream: seq<Byte>): nat
    requires |stream| >= 4
  {
    stream[0] as int * 0x100_0000 + stream[1] as int * 0x1_0000 + stream[2] as int * 0x100 + stream[3] as int
  }

  /** A frame is the length of its text and the text, if the envelope is valid and the
      text not longer than a mebibyte. */
  lemma EncodedIs(json: JsonText, e: Envelope)
    ensures var text, invalid := json.textOf(e), Validate(e);
            match Encoded(json, e)
            case Ok(frame) =>
              && invalid.None? && |text| <= 1_048_576
              && |frame| == 4 + |text| && Length(frame) == |text| && frame[4..] == text
            case Err(TooLarge(n)) => invalid.None? && n == |text| > 1_048_576
            case Err(BadEnvelope(reason)) => invalid == Some(reason)
            case Err(_) => false
  {
    hide Validate, BigEndian;
  }

  /** What reading a stream gives and leaves. */
  lemma FirstFrameIs(json: JsonText, stream: seq<Byte>)
    ensures var (r, rest) := FirstFrame(json, stream);
            if |stream| < 4 then r == Err(TruncatedHeader) && rest == []
            else if Length(stream) > 1_048_576 then r == Err(TooLarge(Length(stream))) && rest == stream[4..]
            else if |stream| < 4 + Length(stream) then r == Err(TruncatedPayload(Length(stream), 0)) && rest == []
            else
              var n := 4 + Length(stream);
              var e := json.parse(stream[4..n]);
              && rest == stream[n..]
              && r == (if e.None? then Err(Json)
                       else if Validate(e.value).Some? then Err(BadEnvelope(Validate(e.value).value)) else Ok(e.value))
  {
    hide Validate;
  }

  /** Whatever is written is read back, and nothing of what follows is touched. */
  lemma FrameRoundTrip(json: JsonText, e: Envelope, rest: seq<Byte>)
    requires RoundTrips(json) && Encoded(json, e).Ok?
    ensures Decoded(json, Encoded(json, e).value) == Ok(e)
    ensures FirstFrame(json, Encoded(json, e).value + rest) == (Ok(e), rest)
  {
    var payload := json.textOf(e);
    BigEndianRoundTrip(|payload|);
    var frame := Encoded(json, e).value;
    hide BigEndian, FromBigEndian, Validate;
    assert frame[..4] == BigEndian(|payload|) && frame[4..] == payload;
    var all := frame + rest;
    assert all[..4] == BigEndian(|payload|) && all[4..4 + |payload|] == payload && all[4 + |payload|..] == rest;
  }

  /** The bytes of a list of messages, one frame after the other. */
  function Written(json: JsonText, es: seq<Envelope>): seq<Byte> {
    if es == [] then []
    else (if Encoded(json, es[0]).Ok? then Encoded(json, es[0]).value else []) + Written(json, es[1..])
  }

  /** Reading frame by frame until one cannot be read: the messages, and why it ended. */
  function ReadAll(json: JsonText, stream: seq<Byte>): (seq<Envelope>, FrameError)
    decreases |stream|
  {
    match FirstFrame(json, stream)
    case (Err(error), _) => ([], error)
    case (Ok(e), rest) =>
      var (es, error) := ReadAll(json, rest);
      ([e] + es, error)
  }

  lemma NothingToRead(json: JsonText)
    ensures FirstFrame(json, []) == (Err(TruncatedHeader), [])
  {}

  /** A list of messages is read back as it was written, up to the end of the stream. */
  lemma {:induction false} StreamRoundTrip(json: JsonText, es: seq<Envelope>)
    requires RoundTrips(json) && forall i :: 0 <= i < |es| ==> Encoded(json, es[i]).Ok?
    ensures ReadAll(json, Written(json, es)) == (es, TruncatedHeader)
  {
    hide Encoded, FirstFrame, RoundTrips;
    if es == [] {
      NothingToRead(json);
    } else {
      var front := es[1..];
      assert forall i :: 0 <= i < |front| ==> front[i] == es[i + 1];
      FrameRoundTrip(json, es[0], Written(json, front));
      StreamRoundTrip(json, front);
      assert es == [es[0]] + front;
    }
  }

  /** A byte string is one frame exactly if reading a stream takes all of it. */
  lemma DecodeIsReadingAll(json: JsonText, frame: seq<Byte>, e: Envelope)
    ensures Decoded(json, frame) == Ok(e) <==> FirstFrame(json, frame) == (Ok(e), [])
  {
    hide FromBigEndian, Validate;
    if |frame| >= 4 {
      var n := 4 + FromBigEndian(frame[..4]);
      if n == |frame| {
        assert frame[4..n] == frame[4..] && frame[n..] == [];
      } else if n < |frame| {
        assert |frame[n..]| > 0;
      }
    }
  }

  /** The two readers differ only in what they say of a short payload, and in that one
      of them does not mind bytes after the frame. */
  lemma ReadersDifferOnlySo(json: JsonText, frame: seq<Byte>)
    ensures var decoded, read := Decoded(json, frame), FirstFrame(json, frame).0;
            || decoded == read
            || (decoded.Err? && decoded.error.TruncatedPayload?
                && if decoded.error.got < decoded.error.expected
                   then read == Err(TruncatedPayload(decoded.error.expected, 0))
                   else FirstFrame(json, frame).1 != [])
  {
    hide FromBigEndian, Validate, Understood;
    if |frame| >= 4 {
      var n := 4 + FromBigEndian(frame[..4]);
      if n == |frame| {
        assert frame[4..n] == frame[4..] && frame[n..] == [];
      } else if n < |frame| {
        assert |frame[n..]| > 0;
      }
    }
  }

  // ------------------------------------------------------------ the client's reader

  datatype ClientError = TransportClosed | InvalidResponse

  /** What the client's reader makes of a stream: header and payload are taken off it,
      and the two together decoded as one frame. */
  function ClientFrame(json: JsonText, stream: seq<Byte>): (Result<Envelope, ClientError>, seq<Byte>) {
    if |stream| < 4 then (Err(TransportClosed), [])
    else
      var length := FromBigEndian(stream[..4]);
      if length > MAX_FRAME_BYTES then (Err(InvalidResponse), stream[4..])
      else if |stream| - 4 < length then (Err(TransportClosed), [])
      else
        match Decoded(json, stream[..4] + stream[4..4 + length])
        case Ok(e) => (Ok(e), stream[4 + length..])
        case Err(_) => (Err(InvalidResponse), stream[4 + length..])
  }

  method ReadAsyncFrame(json: JsonText, reader: ByteStream) returns (r: Result<Envelope, ClientError>)
    modifies reader
    ensures (r, reader.bytes) == ClientFrame(json, old(reader.bytes))
  {
    ghost var stream := reader.bytes;
    var header := reader.ReadExact(4);
    if header.None? { return Err(TransportClosed); }
    var length := FromBigEndian(header.value);
    if length > MAX_FRAME_BYTES { return Err(InvalidResponse); }
    var payload := reader.ReadExact(length);
    if payload.None? { return Err(TransportClosed); }
    assert payload.value == stream[4..4 + length] && reader.bytes == stream[4 + length..];
    var decoded := Decoded(json, header.value + payload.value);
    r := if decoded.Ok? then Ok(decoded.value) else Err(InvalidResponse);
  }

  /** On every stream the client's reader takes the same bytes as reading a frame, gives
      the same envelope, and fails exactly when that fails. */
  lemma ClientReadsTheSame(json: JsonText, stream: seq<Byte>)
    ensures var (client, frame) := (ClientFrame(json, stream), FirstFrame(json, stream));
            && client.1 == frame.1
            && client.0 == match frame.0
                           case Ok(e) => Ok(e)
                           case Err(TruncatedHeader) => Err(TransportClosed)
                           case Err(TruncatedPayload(_, _)) => Err(TransportClosed)
                           case Err(_) => Err(InvalidResponse)
  {
    hide FromBigEndian, Validate;
    if |stream| >= 4 && FromBigEndian(stream[..4]) <= |stream| - 4 {
      var n := 4 + FromBigEndian(stream[..4]);
      var frame := stream[..4] + stream[4..n];
      assert frame[..4] == stream[..4] && frame[4..] == stream[4..n];
    }
  }

  // ----------------------------------------------------------------- message names

  predicate LegalAt(name: string, i: nat)
    requires i < |name|
  {
    || 'a' <= name[i] <= 'z'
    || (i > 0 && name[i - 1] != '.' && ('0' <= name[i] <= '9' || name[i] == '_' || name[i] == '.'))
  }

  predicate Legal(name: string) { forall i :: 0 <= i < |name| ==> LegalAt(name, i) }

  /** All parts are identifiers, the open one possibly not begun. */
  predicate Sound(parts: seq<string>)
    requires parts != []
  {
    var n := |parts| - 1;
    (forall i :: 0 <= i < n ==> ValidIdentifier(parts[i])) && (parts[n] == "" || ValidIdentifier(parts[n]))
  }

  predicate MayFollow(front: string, c: char) {
    if front == "" || front[|front| - 1] == '.' then IsLower(c) else IsWordChar(c) || c == '.'
  }

  lemma LegalMore(front: string, c: char)
    ensures Legal(front + [c]) <==> Legal(front) && MayFollow(front, c)
  {
    var name := front + [c];
    assert forall i :: 0 <= i < |front| ==> (LegalAt(name, i) <==> LegalAt(front, i));
    assert LegalAt(name, |front|) <==> MayFollow(front, c);
  }

  lemma ValidMore(part: string, c: char)
    ensures ValidIdentifier(part + [c]) <==> if part == "" then IsLower(c) else ValidIdentifier(part) && IsWordChar(c)
  {
    var more := part + [c];
    assert forall i :: 0 <= i < |part| ==> more[i] == part[i];
    assert more[|part|] == c;
  }

  lemma SoundMore(parts: seq<string>, c: char)
    requires parts != []
    ensures var n := |parts| - 1;
            Sound(Extended(parts, c)) <==>
              Sound(parts) && if parts[n] == "" then IsLower(c) else IsWordChar(c) || c == '.'
  {
    var n := |parts| - 1;
    ValidMore(parts[n], c);
    if c == '.' {
      var next := parts + [""];
      assert forall i :: 0 <= i <= n ==> next[i] == parts[i];
    } else {
      var next := parts[..n] + [parts[n] + [c]];
      assert forall i :: 0 <= i < n ==> next[i] == parts[i];
    }
  }

  function Extended(parts: seq<string>, c: char): (more: seq<string>)
    requires parts != []
    ensures more != []
  {
    var n := |parts| - 1;
    if c == '.' then parts + [""] else parts[..n] + [parts[n] + [c]]
  }

  lemma SplitMore(front: string, c: char)
    ensures SplitDots(front + [c]) == Extended(SplitDots(front), c)
  {
    assert (front + [c])[..|front|] == front;
  }

  lemma LastDot(parts: seq<string>, c: char)
    requires parts != []
    ensures var more := Extended(parts, c);
            && (|more| >= 2 <==> |parts| >= 2 || c == '.')
            && (more[|more| - 1] == "" <==> c == '.')
  {}

  /** The parts tell of the characters of the name. */
  predicate Describes(parts: seq<string>, name: string)
    requires parts != []
  {
    && (|parts| >= 2 <==> '.' in name)
    && (parts[|parts| - 1] == "" <==> name == "" || name[|name| - 1] == '.')
    && (Sound(parts) <==> Legal(name))
  }

  lemma DescribesMore(parts: seq<string>, front: string, c: char)
    requires parts != [] && Describes(parts, front)
    ensures Describes(Extended(parts, c), front + [c])
  {
    hide Legal, Sound, ValidIdentifier, IsLower, IsWordChar, Extended;
    LegalMore(front, c);
    SoundMore(parts, c);
    LastDot(parts, c);
  }

  lemma {:induction false} PartsOfName(name: string)
    ensures Describes(SplitDots(name), name)
    decreases |name|
  {
    if name != "" {
      hide Describes;
      var front, c := name[..|name| - 1], name[|name| - 1];
      assert front + [c] == name;
      PartsOfName(front);
      SplitMore(front, c);
      DescribesMore(SplitDots(front), front, c);
    }
  }

  /** A message name is valid exactly if it has a dot, does not end in one, and each of
      its characters is a lower-case letter, digit, underscore or dot, with a letter
      first and after every dot. */
  lemma ValidNameIff(name: string)
    ensures ValidMessageName(name) <==> '.' in name && name[|name| - 1] != '.' && Legal(name)
  {
    var parts := SplitDots(name);
    PartsOfName(name);
    hide Legal;
    if |parts| >= 2 && parts[|parts| - 1] != "" {
      assert (forall i :: 0 <= i < |parts| ==> ValidIdentifier(parts[i])) <==> Sound(parts);
    }
  }
}
