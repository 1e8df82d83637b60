/** Frames on a byte stream: a 4-byte big-endian length, then the payload. */
module Framing {
  import opened Results
  import opened Utf8
  import opened MessageCodec
  import opened Sequences

  const LENGTH_PREFIX_SIZE: nat := 4

  function Prefix(n: nat): Bytes
    requires n < 0x1_0000_0000
  {
    [n / 0x100 / 0x100 / 0x100, n / 0x100 / 0x100 % 0x100, n / 0x100 % 0x100, n % 0x100]
  }

  function PrefixValue(b: Bytes): nat
    requires |b| == LENGTH_PREFIX_SIZE
  {
    var b0: int, b1: int, b2: int, b3: int := b[0], b[1], b[2], b[3];
    ((b0 * 0x100 + b1) * 0x100 + b2) * 0x100 + b3
  }

  predicate Fits(data: Bytes) {
    |data| <= MAX_PAYLOAD_LENGTH
  }

  function Frame(data: Bytes): Bytes
    requires Fits(data)
  {
    Prefix(|data|) + data
  }

  /** The length comes first, in four bytes, the highest first. */
  lemma FrameFormat(data: Bytes)
    requires Fits(data)
    ensures var f := Frame(data);
            && |f| == 4 + |data| && f[4..] == data
            && var b0: int, b1: int, b2: int, b3: int := f[0], f[1], f[2], f[3];
               |data| == b0 * 0x100_0000 + b1 * 0x1_0000 + b2 * 0x100 + b3
  {
  }

  function Frames(payloads: seq<Bytes>): Bytes
    requires forall i :: 0 <= i < |payloads| ==> Fits(payloads[i])
  {
    if payloads == [] then [] else Frame(payloads[0]) + Frames(payloads[1..])
  }

  /** How receiving ends: the stream is cut, or a length over the limit is announced. */
  datatype Stop = Cut | TooLong

  /** What is received from a stream that carries `bytes` and then ends. */
  function Received(bytes: Bytes): (seq<Bytes>, Stop)
    decreases |bytes|
  {
    if |bytes| < LENGTH_PREFIX_SIZE then ([], Cut)
    else
      var length := PrefixValue(bytes[..4]);
      if length > MAX_PAYLOAD_LENGTH then ([], TooLong)
      else if |bytes| < 4 + length then ([], Cut)
      else
        var (rest, stop) := Received(bytes[4 + length..]);
        ([bytes[4..4 + length]] + rest, stop)
  }

  // --- the reader ---------------------------------------------------------------------------------

  function Concat(chunks: seq<Bytes>): Bytes {
    if chunks == [] then [] else chunks[0] + Concat(chunks[1..])
  }

  /** A stream reader: what has arrived and not been read, and what will arrive, in chunks. */
  class Reader {
    var buffer: Bytes
    var chunks: seq<Bytes>

    constructor (chunks: seq<Bytes>)
      ensures Coming() == Concat(chunks)
    {
      this.buffer, this.chunks := [], chunks;
    }

    /** Everything still to be read. */
    ghost function Coming(): Bytes
      reads this
    {
      buffer + Concat(chunks)
    }

    /** None if the stream ends first. */
    method ReadExactly(n: nat) returns (data: Option<Bytes>)
      modifies this
      ensures data.None? <==> |old(Coming())| < n
      ensures data.Some? ==> |data.value| == n && old(Coming()) == data.value + Coming()
    {
      while |buffer| < n && chunks != []
        invariant Coming() == old(Coming())
        decreases |chunks|
      {
        assert buffer + Concat(chunks) == buffer + chunks[0] + Concat(chunks[1..]);
        buffer, chunks := buffer + chunks[0], chunks[1..];
      }
      if |buffer| < n {
        assert Coming() == buffer;
        return None;
      }
      data := Some(buffer[..n]);
      assert buffer == buffer[..n] + buffer[n..];
      buffer := buffer[n..];
    }
  }

  datatype Reception = Message(data: Bytes) | Stopped(stop: Stop)

  /** One message, or how receiving stopped. */
  method Receive(reader: Reader) returns (r: Reception)
    modifies reader
    ensures var (messages, stop) := Received(old(reader.Coming()));
            match r
            case Stopped(s) => messages == [] && s == stop
            case Message(data) =>
              messages != [] && data == messages[0] && Received(reader.Coming()) == (messages[1..], stop)
              && |reader.Coming()| < |old(reader.Coming())|
  {
    ghost var bytes := reader.Coming();
    var header := reader.ReadExactly(LENGTH_PREFIX_SIZE);
    if header.None? {
      return Stopped(Cut);
    }
    ghost var after := reader.Coming();
    assert bytes[..4] == header.value && bytes[4..] == after;
    var length := PrefixValue(header.value);
    if length > MAX_PAYLOAD_LENGTH {
      return Stopped(TooLong);
    }
    var data := reader.ReadExactly(length);
    if data.None? {
      return Stopped(Cut);
    }
    assert bytes[4..4 + length] == data.value && bytes[4 + length..] == reader.Coming();
    r := Message(data.value);
  }

  /** The relay loop: receive until that stops. The result does not depend on the chunks. */
  method ReceiveAll(reader: Reader) returns (messages: seq<Bytes>, stop: Stop)
    modifies reader
    ensures (messages, stop) == Received(old(reader.Coming()))
  {
    messages, stop := [], Cut;
    while true
      invariant Received(old(reader.Coming())).0 == messages + Received(reader.Coming()).0
      invariant Received(old(reader.Coming())).1 == Received(reader.Coming()).1
      decreases |reader.Coming()|
    {
      var r := Receive(reader);
      if r.Stopped? {
        assert messages + [] == messages;
        return messages, r.stop;
      }
      Regroup(messages, [r.data], Received(reader.Coming()).0);
      messages := messages + [r.data];
    }
  }

  // --- frames are received as they were sent ---------------------------------------------------------

  lemma PrefixRoundTrip(n: nat)
    requires n < 0x1_0000_0000
    ensures PrefixValue(Prefix(n)) == n
  {
  }

  lemma FirstFrame(data: Bytes, rest: Bytes)
    requires Fits(data)
    ensures Received(Frame(data) + rest) == ([data] + Received(rest).0, Received(rest).1)
  {
    var bytes := Frame(data) + rest;
    PrefixRoundTrip(|data|);
    assert bytes[..4] == Prefix(|data|);
    assert bytes[4..4 + |data|] == data && bytes[4 + |data|..] == rest;
  }

  ghost predicate AllFit(payloads: seq<Bytes>) {
    forall i :: 0 <= i < |payloads| ==> Fits(payloads[i])
  }

  /** Whole frames are received, then whatever follows them. */
  lemma {:induction false} FramesThen(payloads: seq<Bytes>, rest: Bytes)
    requires AllFit(payloads)
    ensures Received(Frames(payloads) + rest) == (payloads + Received(rest).0, Received(rest).1)
    decreases |payloads|
  {
    if payloads == [] {
      assert Frames(payloads) + rest == rest;
      assert payloads + Received(rest).0 == Received(rest).0;
    } else {
      FramesThen(payloads[1..], rest);
      FirstFrame(payloads[0], Frames(payloads[1..]) + rest);
      Regroup(Frame(payloads[0]), Frames(payloads[1..]), rest);
      Regroup([payloads[0]], payloads[1..], Received(rest).0);
      assert [payloads[0]] + payloads[1..] == payloads;
    }
  }

  /** A length over the limit stops the reading, after the frames before it, and nothing after it is
      read. */
  lemma TooLongStops(payloads: seq<Bytes>, length: nat, more: Bytes)
    requires AllFit(payloads) && MAX_PAYLOAD_LENGTH < length < 0x1_0000_0000
    ensures Received(Frames(payloads) + (Prefix(length) + more)) == (payloads, TooLong)
  {
    var rest := Prefix(length) + more;
    PrefixRoundTrip(length);
    assert rest[..4] == Prefix(length);
    assert Received(rest) == ([], TooLong);
    FramesThen(payloads, rest);
    assert payloads + [] == payloads;
  }

  lemma PartOfFrame(data: Bytes, part: Bytes)
    requires Fits(data) && part < Frame(data)
    ensures Received(part) == ([], Cut)
  {
    PrefixRoundTrip(|data|);
    if |part| >= 4 {
      assert part[..4] == Frame(data)[..4] == Prefix(|data|);
    }
  }

  /** A stream cut after `k` whole frames and part of the next gives exactly those `k`. */
  lemma CutStream(payloads: seq<Bytes>, k: nat, part: Bytes)
    requires AllFit(payloads) && k < |payloads| && part < Frame(payloads[k])
    ensures Received(Frames(payloads[..k]) + part) == (payloads[..k], Cut)
  {
    FramesThen(payloads[..k], part);
    PartOfFrame(payloads[k], part);
    assert payloads[..k] + [] == payloads[..k];
  }

  lemma {:induction false} FramesConcat(a: seq<Bytes>, b: seq<Bytes>)
    requires AllFit(a) && AllFit(b)
    ensures AllFit(a + b) && Frames(a + b) == Frames(a) + Frames(b)
    decreases |a|
  {
    if a == [] {
      assert a + b == b;
    } else {
      FramesConcat(a[1..], b);
      assert (a + b)[0] == a[0] && (a + b)[1..] == a[1..] + b;
      Regroup(Frame(a[0]), Frames(a[1..]), Frames(b));
    }
  }

  /** `n` bytes hold exactly `k` whole frames. */
  ghost predicate HoldsWhole(payloads: seq<Bytes>, n: nat, k: nat)
    requires AllFit(payloads)
  {
    && k <= |payloads|
    && |Frames(payloads[..k])| <= n
    && (k < |payloads| ==> n < |Frames(payloads[..k + 1])|)
  }

  lemma FramesCons(payload: Bytes, payloads: seq<Bytes>)
    requires Fits(payload) && AllFit(payloads)
    ensures AllFit([payload] + payloads) && Frames([payload] + payloads) == Frame(payload) + Frames(payloads)
  {
    assert ([payload] + payloads)[1..] == payloads;
  }

  lemma CutBefore(payload: Bytes, payloads: seq<Bytes>, n: nat)
    requires Fits(payload) && AllFit(payloads) && n < |Frame(payload)|
    ensures AllFit([payload] + payloads) && n <= |Frames([payload] + payloads)|
    ensures Received(Frames([payload] + payloads)[..n]) == ([], Cut) && HoldsWhole([payload] + payloads, n, 0)
  {
    var first := Frame(payload);
    FramesCons(payload, payloads);
    assert (first + Frames(payloads))[..n] == first[..n];
    assert first[..n] < first;
    PartOfFrame(payload, first[..n]);
    FramesCons(payload, []);
    assert ([payload] + payloads)[..1] == [payload] + [];
  }

  lemma HoldsOneMore(payload: Bytes, payloads: seq<Bytes>, n: nat, k: nat)
    requires Fits(payload) && AllFit(payloads) && HoldsWhole(payloads, n, k)
    ensures AllFit([payload] + payloads) && HoldsWhole([payload] + payloads, |Frame(payload)| + n, k + 1)
  {
    var all := [payload] + payloads;
    assert all[..k + 1] == [payload] + payloads[..k];
    FramesCons(payload, payloads[..k]);
    if k < |payloads| {
      assert all[..k + 2] == [payload] + payloads[..k + 1];
      FramesCons(payload, payloads[..k + 1]);
    }
  }

  lemma OneMoreReceived(payload: Bytes, rest: Bytes, got: seq<Bytes>)
    requires Fits(payload) && Received(rest) == (got, Cut)
    ensures Received(Frame(payload) + rest) == ([payload] + got, Cut)
  {
    FirstFrame(payload, rest);
  }

  lemma CutAfter(payload: Bytes, payloads: seq<Bytes>, n: nat, k: nat)
    requires Fits(payload) && AllFit(payloads) && n <= |Frames(payloads)| && k <= |payloads|
    requires Received(Frames(payloads)[..n]) == (payloads[..k], Cut)
    ensures AllFit([payload] + payloads) && |Frame(payload)| + n <= |Frames([payload] + payloads)|
    ensures Received(Frames([payload] + payloads)[..|Frame(payload)| + n]) == (([payload] + payloads)[..k + 1], Cut)
  {
    var more := Frames(payloads)[..n];
    FramesCons(payload, payloads);
    OneMoreReceived(payload, more, payloads[..k]);
    assert Frames([payload] + payloads)[..|Frame(payload)| + n] == Frame(payload) + more by {
      CutSecond(Frame(payload), Frames(payloads), n);
    }
    assert ([payload] + payloads)[..k + 1] == [payload] + payloads[..k] by {
      CutSecond([payload], payloads, k);
    }
  }

  lemma CutSecond<T>(first: seq<T>, second: seq<T>, n: nat)
    requires n <= |second|
    ensures (first + second)[..|first| + n] == first + second[..n]
  {
  }

  /** Wherever the stream is cut, what is received is the frames that arrived whole. */
  lemma {:induction false} AnyCut(payloads: seq<Bytes>, n: nat) returns (k: nat)
    requires AllFit(payloads) && n <= |Frames(payloads)|
    ensures HoldsWhole(payloads, n, k) && Received(Frames(payloads)[..n]) == (payloads[..k], Cut)
    decreases |payloads|, 1
  {
    if payloads == [] {
      k := 0;
    } else {
      assert payloads == [payloads[0]] + payloads[1..];
      k := AnyCutCons(payloads[0], payloads[1..], n);
    }
  }

  lemma {:induction false} AnyCutCons(payload: Bytes, rest: seq<Bytes>, n: nat) returns (k: nat)
    requires Fits(payload) && AllFit(rest) && AllFit([payload] + rest) && n <= |Frames([payload] + rest)|
    ensures HoldsWhole([payload] + rest, n, k)
    ensures Received(Frames([payload] + rest)[..n]) == (([payload] + rest)[..k], Cut)
    decreases |rest| + 1, 0
  {
    if n < |Frame(payload)| {
      k := 0;
      CutBefore(payload, rest, n);
    } else {
      FramesCons(payload, rest);
      var m: nat := n - |Frame(payload)|;
      var j := AnyCut(rest, m);
      HoldsOneMore(payload, rest, m, j);
      CutAfter(payload, rest, m, j);
      k := j + 1;
    }
  }

  // --- the whole stack ---------------------------------------------------------------------------------

  ghost predicate Sendable(messages: seq<MessageCodec.Message>) {
    forall i :: 0 <= i < |messages| ==> EncodeMessage(messages[i]).Some? && Fits(EncodeMessage(messages[i]).value)
  }

  ghost function Encoded(messages: seq<MessageCodec.Message>): seq<Bytes>
    requires Sendable(messages)
    ensures AllFit(Encoded(messages))
  {
    seq(|messages|, i requires 0 <= i < |messages| => EncodeMessage(messages[i]).value)
  }

  lemma PartOfFrames(payloads: seq<Bytes>, k: nat)
    requires AllFit(payloads) && k <= |payloads|
    ensures |Frames(payloads[..k])| <= |Frames(payloads)|
  {
    FramesConcat(payloads[..k], payloads[k..]);
    assert payloads[..k] + payloads[k..] == payloads;
  }

  /** Messages that can be sent, encoded, framed, joined and split into any chunks, are received
      and decode to what was sent: all of them, or, from a stream cut after `n` bytes, exactly
      those that arrived whole. */
  lemma FullStack(messages: seq<MessageCodec.Message>, chunks: seq<Bytes>, n: nat) returns (k: nat)
    requires Sendable(messages) && n <= |Frames(Encoded(messages))|
    requires Concat(chunks) == Frames(Encoded(messages))[..n]
    ensures k <= |messages| && Received(Concat(chunks)) == (Encoded(messages)[..k], Cut)
    ensures forall i :: 0 <= i < k ==> DecodeMessage(Received(Concat(chunks)).0[i]) == Ok(messages[i])
    ensures |Frames(Encoded(messages)[..k])| <= n
    ensures k < |messages| ==> n < |Frames(Encoded(messages)[..k + 1])|
    ensures n == |Frames(Encoded(messages))| ==> k == |messages|
  {
    var payloads := Encoded(messages);
    k := AnyCut(payloads, n);
    forall i | 0 <= i < k ensures DecodeMessage(payloads[..k][i]) == Ok(messages[i]) {
      RoundTrip(messages[i]);
    }
    if k < |messages| {
      PartOfFrames(payloads, k + 1);
    }
  }
}
