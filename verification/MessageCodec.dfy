/** The wire format of publish/subscribe messages and of request messages. */
module MessageCodec {
  import opened Results
  import opened Utf8

  const MAX_PAYLOAD_LENGTH: nat := 16 * 1024 * 1024
  const MAX_SUBJECT_LENGTH: nat := 65535
  const ID_SIZE: nat := 16

  datatype ReachabilityResult = NotFound | Found | Unknown

  datatype Message =
    | Subscription(subject: string, subscribe: bool)
    | Publish(subject: string, payload: Bytes)
    | Hello(nodeId: Bytes)
    | Query(queryId: Bytes, targetNodeId: Bytes)
    | Reply(queryId: Bytes, result: ReachabilityResult)

  datatype Decoded<T> = Ok(value: T) | Malformed | UnknownType

  // --- subjects -------------------------------------------------------------------------------

  function EncodeLength(n: nat): Bytes
    requires n <= MAX_SUBJECT_LENGTH
  {
    [n / 256, n % 256]
  }

  function DecodeLength(high: Byte, low: Byte): nat {
    var h: int, l: int := high, low;
    h * 256 + l
  }

  /** None if the subject is too long. */
  function EncodeSubject(subject: string): Option<Bytes> {
    var bytes := Utf8.Encode(subject);
    if |bytes| > MAX_SUBJECT_LENGTH then None else Some(EncodeLength(|bytes|) + bytes)
  }

  /** The subject at the start of `data`, and what follows it. None if it is cut or not UTF-8. */
  function DecodeSubject(data: Bytes): Option<(string, Bytes)> {
    if |data| < 2 then None
    else
      var end := 2 + DecodeLength(data[0], data[1]);
      if |data| < end then None
      else match Utf8.Decode(data[2..end])
        case None => None
        case Some(subject) => Some((subject, data[end..]))
  }

  lemma LengthRoundTrip(n: nat)
    requires n <= MAX_SUBJECT_LENGTH
    ensures DecodeLength(EncodeLength(n)[0], EncodeLength(n)[1]) == n
  {
  }

  lemma LengthReencodes(high: Byte, low: Byte)
    ensures EncodeLength(DecodeLength(high, low)) == [high, low]
  {
  }

  lemma SubjectRead(data: Bytes, subject: string, rest: Bytes)
    requires DecodeSubject(data) == Some((subject, rest))
    ensures EncodeSubject(subject).Some? && data == EncodeSubject(subject).value + rest
  {
    var end := 2 + DecodeLength(data[0], data[1]);
    DecodesIff(data[2..end], subject);
    LengthReencodes(data[0], data[1]);
    assert data[..2] == [data[0], data[1]];
    assert data[..end] == data[..2] + data[2..end];
    assert data == data[..end] + data[end..];
  }

  lemma SubjectWritten(subject: string, rest: Bytes)
    requires EncodeSubject(subject).Some?
    ensures DecodeSubject(EncodeSubject(subject).value + rest) == Some((subject, rest))
  {
    var bytes := Utf8.Encode(subject);
    var data := EncodeSubject(subject).value + rest;
    var end := 2 + |bytes|;
    LengthRoundTrip(|bytes|);
    assert data[0] == EncodeLength(|bytes|)[0] && data[1] == EncodeLength(|bytes|)[1];
    assert data[2..end] == bytes && data[end..] == rest;
    DecodesIff(bytes, subject);
  }

  /** A subject and what follows it are read from exactly the bytes they are written as. */
  lemma SubjectIff(data: Bytes, subject: string, rest: Bytes)
    ensures DecodeSubject(data) == Some((subject, rest)) <==>
            EncodeSubject(subject).Some? && data == EncodeSubject(subject).value + rest
  {
    if DecodeSubject(data) == Some((subject, rest)) {
      SubjectRead(data, subject, rest);
    }
    if EncodeSubject(subject).Some? {
      SubjectWritten(subject, rest);
    }
  }

  // --- messages -------------------------------------------------------------------------------

  function EncodeResult(r: ReachabilityResult): Byte {
    match r
    case NotFound => 0
    case Found => 1
    case Unknown => 2
  }

  function DecodeResult(b: Byte): Option<ReachabilityResult> {
    if b == 0 then Some(NotFound) else if b == 1 then Some(Found) else if b == 2 then Some(Unknown) else None
  }

  /** None if the subject is too long or an ID is not 16 bytes. */
  function EncodeMessage(m: Message): Option<Bytes> {
    match m
    case Hello(id) => if |id| != ID_SIZE then None else Some([0x03] + id)
    case Query(query, target) =>
      if |query| != ID_SIZE || |target| != ID_SIZE then None else Some([0x04] + query + target)
    case Reply(query, result) =>
      if |query| != ID_SIZE then None else Some([0x05] + query + [EncodeResult(result)])
    case Subscription(subject, subscribe) =>
      (match EncodeSubject(subject)
       case None => None
       case Some(header) => Some([0x01, if subscribe then 1 else 0] + header))
    case Publish(subject, payload) =>
      match EncodeSubject(subject)
      case None => None
      case Some(header) => Some([0x02] + header + payload)
  }

  function DecodeMessage(data: Bytes): Decoded<Message> {
    if data == [] then Malformed
    else match data[0]
      case 1 =>
        if |data| < 2 || data[1] > 1 then Malformed
        else (match DecodeSubject(data[2..])
              case None => Malformed
              case Some((subject, _)) => Ok(Subscription(subject, data[1] == 1)))
      case 2 =>
        (match DecodeSubject(data[1..])
         case None => Malformed
         case Some((subject, payload)) => Ok(Publish(subject, payload)))
      case 3 => if |data| < 1 + ID_SIZE then Malformed else Ok(Hello(data[1..17]))
      case 4 => if |data| < 1 + 2 * ID_SIZE then Malformed else Ok(Query(data[1..17], data[17..33]))
      case 5 =>
        if |data| < 1 + ID_SIZE + 1 then Malformed
        else (match DecodeResult(data[17])
              case None => Malformed
              case Some(result) => Ok(Reply(data[1..17], result)))
      case _ => UnknownType
  }

  /** `data` is the encoding of `m`, with more bytes after it unless `m` is a publish. */
  ghost predicate Carries(data: Bytes, m: Message) {
    EncodeMessage(m).Some? &&
    if m.Publish? then data == EncodeMessage(m).value else EncodeMessage(m).value <= data
  }

  lemma SubscriptionIff(data: Bytes, subject: string, subscribe: bool)
    ensures DecodeMessage(data) == Ok(Subscription(subject, subscribe)) <==>
            Carries(data, Subscription(subject, subscribe))
  {
    var m := Subscription(subject, subscribe);
    if DecodeMessage(data) == Ok(m) {
      var rest := DecodeSubject(data[2..]).value.1;
      SubjectIff(data[2..], subject, rest);
      assert data == data[..2] + data[2..];
    }
    if Carries(data, m) {
      var e := EncodeMessage(m).value;
      var rest := data[|e|..];
      assert data[2..] == EncodeSubject(subject).value + rest;
      SubjectIff(data[2..], subject, rest);
    }
  }

  lemma PublishIff(data: Bytes, subject: string, payload: Bytes)
    ensures DecodeMessage(data) == Ok(Publish(subject, payload)) <==> Carries(data, Publish(subject, payload))
  {
    var m := Publish(subject, payload);
    if data != [] {
      SubjectIff(data[1..], subject, payload);
    }
    if DecodeMessage(data) == Ok(m) {
      assert data == data[..1] + data[1..];
    }
    if Carries(data, m) {
      assert data[1..] == EncodeSubject(subject).value + payload;
    }
  }

  lemma HelloIff(data: Bytes, id: Bytes)
    ensures DecodeMessage(data) == Ok(Hello(id)) <==> Carries(data, Hello(id))
  {
    if DecodeMessage(data) == Ok(Hello(id)) {
      assert data[..17] == [0x03] + id;
    }
    if Carries(data, Hello(id)) {
      assert data[1..17] == ([0x03] + id)[1..17] == id;
    }
  }

  lemma QueryIff(data: Bytes, query: Bytes, target: Bytes)
    ensures DecodeMessage(data) == Ok(Query(query, target)) <==> Carries(data, Query(query, target))
  {
    if DecodeMessage(data) == Ok(Query(query, target)) {
      assert data[..33] == [0x04] + query + target;
    }
    if Carries(data, Query(query, target)) {
      var e := [0x04] + query + target;
      assert data[1..17] == e[1..17] == query;
      assert data[17..33] == e[17..33] == target;
    }
  }

  lemma ReplyIff(data: Bytes, query: Bytes, result: ReachabilityResult)
    ensures DecodeMessage(data) == Ok(Reply(query, result)) <==> Carries(data, Reply(query, result))
  {
    if DecodeMessage(data) == Ok(Reply(query, result)) {
      assert data[..18] == [0x05] + query + [EncodeResult(result)];
    }
    if Carries(data, Reply(query, result)) {
      var e := [0x05] + query + [EncodeResult(result)];
      assert data[1..17] == e[1..17] == query && data[17] == e[17];
    }
  }

  /** Which bytes decode to which message: exactly those that carry it. */
  lemma DecodesIffCarries(data: Bytes, m: Message)
    ensures DecodeMessage(data) == Ok(m) <==> Carries(data, m)
  {
    match m
    case Subscription(subject, subscribe) => SubscriptionIff(data, subject, subscribe);
    case Publish(subject, payload) => PublishIff(data, subject, payload);
    case Hello(id) => HelloIff(data, id);
    case Query(query, target) => QueryIff(data, query, target);
    case Reply(query, result) => ReplyIff(data, query, result);
  }

  lemma RoundTrip(m: Message)
    requires EncodeMessage(m).Some?
    ensures DecodeMessage(EncodeMessage(m).value) == Ok(m)
  {
    DecodesIffCarries(EncodeMessage(m).value, m);
  }

  /** Bytes that a later version appends are ignored, but a publish takes them as payload. */
  lemma TrailingBytes(m: Message, more: Bytes)
    requires EncodeMessage(m).Some?
    ensures DecodeMessage(EncodeMessage(m).value + more)
            == Ok(if m.Publish? then m.(payload := m.payload + more) else m)
  {
    var data := EncodeMessage(m).value + more;
    var m' := if m.Publish? then m.(payload := m.payload + more) else m;
    if m.Publish? {
      assert data == EncodeMessage(m').value;
    }
    DecodesIffCarries(data, m');
  }

  /** Whatever decodes encodes again, to a prefix of what was decoded. */
  lemma ReencodesToPrefix(data: Bytes)
    requires DecodeMessage(data).Ok?
    ensures EncodeMessage(DecodeMessage(data).value).Some?
    ensures EncodeMessage(DecodeMessage(data).value).value <= data
  {
    DecodesIffCarries(data, DecodeMessage(data).value);
  }

  /** `data[at..]` starts with a subject, its length first in two bytes, the high one first. */
  ghost predicate SubjectAt(data: Bytes, at: nat, subject: string) {
    var bytes := Utf8.Encode(subject);
    && at + 2 + |bytes| <= |data|
    && (var high: int, low: int := data[at], data[at + 1]; |bytes| == high * 0x100 + low)
    && data[at + 2..at + 2 + |bytes|] == bytes
  }

  lemma SubjectWrittenAt(before: Bytes, subject: string, after: Bytes)
    requires EncodeSubject(subject).Some?
    ensures SubjectAt(before + EncodeSubject(subject).value + after, |before|, subject)
    ensures |EncodeSubject(subject).value| == 2 + |Utf8.Encode(subject)|
  {
    var bytes := Utf8.Encode(subject);
    var data := before + EncodeSubject(subject).value + after;
    LengthRoundTrip(|bytes|);
    assert data[|before|] == EncodeLength(|bytes|)[0] && data[|before| + 1] == EncodeLength(|bytes|)[1];
    assert data[|before| + 2..|before| + 2 + |bytes|] == bytes;
  }

  /** The format of the encoded messages, byte by byte. */
  lemma WireFormat(m: Message)
    requires EncodeMessage(m).Some?
    ensures var data := EncodeMessage(m).value;
            match m
            case Subscription(subject, subscribe) =>
              && |data| == 4 + |Utf8.Encode(subject)| && data[0] == 0x01
              && data[1] == (if subscribe then 0x01 else 0x00) && SubjectAt(data, 2, subject)
            case Publish(subject, payload) =>
              && |data| == 3 + |Utf8.Encode(subject)| + |payload| && data[0] == 0x02 && SubjectAt(data, 1, subject)
              && data[3 + |Utf8.Encode(subject)|..] == payload
            case Hello(id) => |data| == 17 && data[0] == 0x03 && data[1..] == id
            case Query(query, target) => |data| == 33 && data[0] == 0x04 && data[1..17] == query && data[17..] == target
            case Reply(query, result) =>
              && |data| == 18 && data[0] == 0x05 && data[1..17] == query
              && data[17] == match result case NotFound => 0x00 case Found => 0x01 case Unknown => 0x02
  {
    match m
    case Subscription(subject, subscribe) =>
      var before: Bytes := [0x01, if subscribe then 1 else 0];
      SubjectWrittenAt(before, subject, []);
      assert EncodeMessage(m).value == before + EncodeSubject(subject).value + [];
    case Publish(subject, payload) =>
      SubjectWrittenAt([0x02], subject, payload);
    case _ =>
  }

  /** What does not encode: subjects over 65535 bytes and IDs that are not 16 bytes. */
  lemma EncodesIff(m: Message)
    ensures EncodeMessage(m).Some? <==>
            match m
            case Subscription(subject, _) => |Utf8.Encode(subject)| <= 65535
            case Publish(subject, _) => |Utf8.Encode(subject)| <= 65535
            case Hello(id) => |id| == 16
            case Query(query, target) => |query| == 16 && |target| == 16
            case Reply(query, _) => |query| == 16
  {
  }

  /** A message is of unknown type exactly if its first byte is not one of the five. */
  lemma UnknownTypeIff(data: Bytes)
    ensures DecodeMessage(data) == UnknownType <==> data != [] && data[0] !in {0x01, 0x02, 0x03, 0x04, 0x05}
  {
  }

  /** `check_publish_length`, and what `check_payload_length` tests. */
  predicate PublishTooLong(subject: string, payloadLength: nat) {
    1 + 2 + |Utf8.Encode(subject)| + payloadLength > MAX_PAYLOAD_LENGTH
  }

  /** The test is exact: it fails when, and only when, the encoded publish is too long to send. */
  lemma PublishLengthIsExact(subject: string, payload: Bytes)
    requires EncodeMessage(Publish(subject, payload)).Some?
    ensures PublishTooLong(subject, |payload|) <==>
            |EncodeMessage(Publish(subject, payload)).value| > MAX_PAYLOAD_LENGTH
  {
  }

  // --- requests ----------------------------------------------------------------------------------

  function EncodeRequest(replySubject: string, payload: Bytes): Option<Bytes> {
    match EncodeSubject(replySubject)
    case None => None
    case Some(header) => Some(header + payload)
  }

  function DecodeRequest(data: Bytes): Option<(string, Bytes)> {
    DecodeSubject(data)
  }

  /** Encoding and decoding a request are exact inverses. */
  lemma RequestIff(data: Bytes, replySubject: string, payload: Bytes)
    ensures DecodeRequest(data) == Some((replySubject, payload)) <==> EncodeRequest(replySubject, payload) == Some(data)
  {
    SubjectIff(data, replySubject, payload);
  }

  /** The format of the encoded requests, byte by byte. */
  lemma RequestFormat(replySubject: string, payload: Bytes)
    ensures EncodeRequest(replySubject, payload).Some? <==> |Utf8.Encode(replySubject)| <= 65535
    ensures EncodeRequest(replySubject, payload).Some? ==>
              var data := EncodeRequest(replySubject, payload).value;
              && |data| == 2 + |Utf8.Encode(replySubject)| + |payload| && SubjectAt(data, 0, replySubject)
              && data[2 + |Utf8.Encode(replySubject)|..] == payload
  {
    if EncodeRequest(replySubject, payload).Some? {
      var header := EncodeSubject(replySubject).value;
      SubjectWrittenAt([], replySubject, payload);
      assert [] + header + payload == header + payload;
      assert (header + payload)[|header|..] == payload;
    }
  }
}
