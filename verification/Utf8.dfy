/** UTF-8, as section 3 of RFC 3629 defines it. A Dafny char is a Unicode scalar value. */
module Utf8 {
  import opened Results
  import opened Sequences

  type Byte = b: int | 0 <= b < 256

  type Bytes = seq<Byte>

  predicate IsScalar(x: int) {
    0 <= x < 0xD800 || 0xE000 <= x < 0x11_0000
  }

  /** The lead byte and its tails, six bits each. */
  function EncodeScalar(x: int): Bytes
    requires IsScalar(x)
  {
    var y := x / 0x40;
    var z := y / 0x40;
    if x < 0x80 then [x]
    else if x < 0x800 then [0xC0 + y, Tail(x)]
    else if x < 0x1_0000 then [0xE0 + z, Tail(y), Tail(x)]
    else [0xF0 + z / 0x40, Tail(z), Tail(y), Tail(x)]
  }

  function Tail(x: int): Byte {
    0x80 + x % 0x40
  }

  /** The table of section 3 of RFC 3629. */
  lemma ScalarBytes(x: int)
    requires IsScalar(x)
    ensures EncodeScalar(x) ==
            if x <= 0x7F then [x]
            else if x <= 0x7FF then [0xC0 + x / 0x40, 0x80 + x % 0x40]
            else if x <= 0xFFFF then [0xE0 + x / 0x1000, 0x80 + x / 0x40 % 0x40, 0x80 + x % 0x40]
            else [0xF0 + x / 0x4_0000, 0x80 + x / 0x1000 % 0x40, 0x80 + x / 0x40 % 0x40, 0x80 + x % 0x40]
  {
  }

  function Encode(s: string): Bytes {
    if s == [] then [] else EncodeScalar(s[0] as int) + Encode(s[1..])
  }

  predicate IsTail(b: Byte) {
    0x80 <= b < 0xC0
  }

  /** How many bytes the sequence that starts with `b` takes, 0 if none starts so. */
  function Width(b: Byte): nat {
    if b < 0x80 then 1
    else if b < 0xC2 then 0
    else if b < 0xE0 then 2
    else if b < 0xF0 then 3
    else if b < 0xF5 then 4
    else 0
  }

  predicate AllTails(bytes: Bytes) {
    forall i :: 0 <= i < |bytes| ==> IsTail(bytes[i])
  }

  /** The number in a lead byte and its tails, whatever it is. */
  function Number(bytes: Bytes): int
    requires 1 <= |bytes| <= 4
  {
    match |bytes|
    case 1 => bytes[0]
    case 2 => Six(Lead(bytes, 0xC0), bytes[1])
    case 3 => Six(Six(Lead(bytes, 0xE0), bytes[1]), bytes[2])
    case _ => Six(Six(Six(Lead(bytes, 0xF0), bytes[1]), bytes[2]), bytes[3])
  }

  function Lead(bytes: Bytes, mark: int): int
    requires bytes != []
  {
    var b: int := bytes[0];
    b - mark
  }

  function Six(high: int, tail: Byte): int {
    var b: int := tail;
    high * 0x40 + (b - 0x80)
  }

  /** The least number that needs as many bytes. */
  function Least(width: nat): int {
    match width
    case 2 => 0x80
    case 3 => 0x800
    case 4 => 0x1_0000
    case _ => 0
  }

  /** The first character: well formed, not overlong, not a surrogate, not beyond the last. */
  predicate StartsWell(bytes: Bytes) {
    bytes != [] &&
    var w := Width(bytes[0]);
    1 <= w <= |bytes| && AllTails(bytes[1..w]) && Number(bytes[..w]) >= Least(w) && IsScalar(Number(bytes[..w]))
  }

  function Decode(bytes: Bytes): Option<string> {
    if bytes == [] then Some([])
    else if !StartsWell(bytes) then None
    else
      var w := Width(bytes[0]);
      match Decode(bytes[w..])
      case None => None
      case Some(rest) => Some([Number(bytes[..w]) as char] + rest)
  }

  // --- one character ------------------------------------------------------------------------

  lemma ScalarStartsWell(x: int, rest: Bytes)
    requires IsScalar(x)
    ensures var e := EncodeScalar(x);
            && StartsWell(e + rest) && Width(e[0]) == |e| && Number(e) == x
            && (e + rest)[..|e|] == e && (e + rest)[|e|..] == rest
  {
    var e := EncodeScalar(x);
    var bytes := e + rest;
    assert bytes[..|e|] == e;
    assert bytes[1..|e|] == e[1..];
    ScalarNumber(x);
  }

  lemma SixUndone(x: int)
    requires x >= 0
    ensures Six(x / 0x40, Tail(x)) == x
  {
  }

  lemma ScalarNumber(x: int)
    requires IsScalar(x)
    ensures var e := EncodeScalar(x);
            Width(e[0]) == |e| && Number(e) == x && AllTails(e[1..]) && x >= Least(|e|)
  {
    var y := x / 0x40;
    var z := y / 0x40;
    SixUndone(x);
    SixUndone(y);
    SixUndone(z);
  }

  lemma SixSplits(high: int, tail: Byte)
    requires high >= 0 && IsTail(tail)
    ensures Six(high, tail) / 0x40 == high && Tail(Six(high, tail)) == tail
  {
  }

  lemma NumberEncodes(bytes: Bytes)
    requires bytes != [] && Width(bytes[0]) == |bytes| && AllTails(bytes[1..])
    requires Number(bytes) >= Least(|bytes|) && IsScalar(Number(bytes))
    ensures EncodeScalar(Number(bytes)) == bytes
  {
    assert forall i :: 1 <= i < |bytes| ==> bytes[i] == bytes[1..][i - 1];
    if |bytes| == 2 {
      SixSplits(Lead(bytes, 0xC0), bytes[1]);
      assert EncodeScalar(Number(bytes)) == [bytes[0], bytes[1]];
    } else if |bytes| == 3 {
      SixSplits(Lead(bytes, 0xE0), bytes[1]);
      SixSplits(Six(Lead(bytes, 0xE0), bytes[1]), bytes[2]);
      assert EncodeScalar(Number(bytes)) == [bytes[0], bytes[1], bytes[2]];
    } else if |bytes| == 4 {
      SixSplits(Lead(bytes, 0xF0), bytes[1]);
      SixSplits(Six(Lead(bytes, 0xF0), bytes[1]), bytes[2]);
      SixSplits(Six(Six(Lead(bytes, 0xF0), bytes[1]), bytes[2]), bytes[3]);
      assert EncodeScalar(Number(bytes)) == [bytes[0], bytes[1], bytes[2], bytes[3]];
    }
  }

  // --- strings --------------------------------------------------------------------------------

  lemma {:induction false} DecodeEncode(s: string)
    ensures Decode(Encode(s)) == Some(s)
  {
    if s != [] {
      var e := EncodeScalar(s[0] as int);
      ScalarStartsWell(s[0] as int, Encode(s[1..]));
      DecodeEncode(s[1..]);
      assert Encode(s)[..Width(e[0])] == e && Encode(s)[Width(e[0])..] == Encode(s[1..]);
      assert [s[0]] + s[1..] == s;
    }
  }

  lemma {:induction false} EncodeDecode(bytes: Bytes)
    requires Decode(bytes).Some?
    ensures Encode(Decode(bytes).value) == bytes
    decreases |bytes|
  {
    if bytes != [] {
      var w := Width(bytes[0]);
      EncodeDecode(bytes[w..]);
      DecodeFirst(bytes, w, Decode(bytes[w..]).value);
    }
  }

  lemma DecodeFirst(bytes: Bytes, w: nat, rest: string)
    requires bytes != [] && StartsWell(bytes) && w == Width(bytes[0]) && Decode(bytes[w..]) == Some(rest)
    ensures Decode(bytes).Some? && Encode(Decode(bytes).value) == bytes[..w] + Encode(rest)
  {
    var first, c := bytes[..w], Number(bytes[..w]) as char;
    assert first[1..] == bytes[1..w];
    NumberEncodes(first);
    assert ([c] + rest)[1..] == rest;
  }

  /** The bytes of a string decode to it, and no other bytes do. */
  lemma DecodesIff(bytes: Bytes, s: string)
    ensures Decode(bytes) == Some(s) <==> bytes == Encode(s)
  {
    DecodeEncode(s);
    if Decode(bytes) == Some(s) {
      EncodeDecode(bytes);
    }
  }

  lemma {:induction false} EncodeConcat(s: string, t: string)
    ensures Encode(s + t) == Encode(s) + Encode(t)
  {
    if s == [] {
      assert s + t == t;
    } else {
      EncodeConcat(s[1..], t);
      assert (s + t)[0] == s[0] && (s + t)[1..] == s[1..] + t;
      Regroup(EncodeScalar(s[0] as int), Encode(s[1..]), Encode(t));
    }
  }
}
