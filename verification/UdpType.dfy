/** Datagrams of the UDP clients and their parsing out of the server's reused receive buffer. */
module UdpType {
  import opened Bytes
  import opened Utils

  const MAX_TOPIC_LEN := 51
  const MAX_STRING_LEN := 1501
  const MAX_SERVER_BUFLEN := 8096

  const INT: Byte := 0
  const SHORT_REAL: Byte := 1
  const FLOAT: Byte := 2
  const STRING: Byte := 3

  type Uint16 = x: int | 0 <= x < 0x1_0000

  /** An IPv4 sender: four address bytes and a port in host order. */
  datatype Addr = Addr(a: Byte, b: Byte, c: Byte, d: Byte, port: Uint16)

  /** The payload union. A real is kept as the exact quotient the parser computes. */
  datatype Payload =
    | IntData(i: int)
    | ShortRealData(hundredths: Uint16)
    | FloatData(negative: bool, mantissa: Uint32, divisor: Uint32)
    | StringData(bytes: seq<Byte>)
    | NoData

  /** A stored message. The topic field also receives the type byte of the datagram. */
  datatype Udp = Udp(addr: Addr, topic: seq<Byte>, kind: Byte, data: Payload)

  const CLEARED := Udp(Addr(0, 0, 0, 0, 0), Zeros(MAX_TOPIC_LEN), INT, NoData)

  /** The topic as strcmp and %s see it; a zero padding byte follows the 51 bytes in the struct. */
  function TopicOf(m: Udp): (t: seq<Byte>)
    ensures NUL !in t
  {
    CStr(m.topic)
  }

  function Be16(s: seq<Byte>, at: nat): Uint16
    requires at + 2 <= |s|
  {
    s[at] as int * 256 + s[at + 1]
  }

  function Be32(s: seq<Byte>, at: nat): Uint32
    requires at + 4 <= |s|
  {
    Be16(s, at) as int * 0x1_0000 + Be16(s, at + 2)
  }

  /** Network byte order: the most significant byte comes first. */
  lemma NetworkOrder()
    ensures Be16([1, 2], 0) == 0x0102 && Be32([1, 2, 3, 4], 0) == 0x0102_0304
  {
  }

  predicate Known(kind: Byte) {
    kind <= STRING
  }

  lemma Negated(magnitude: Uint32)
    ensures Cong(ToInt32(ToInt32(magnitude) * -1), -(magnitude as int))
  {
  }

  /** A residue modulo 2^32 has one representative in the range of an int. */
  lemma OneInt(v: int, w: int, x: int)
    requires -TWO_31 <= v < TWO_31 && -TWO_31 <= w < TWO_31 && Cong(v, x) && Cong(w, x)
    ensures v == w
  {
  }

  function SignedInt(sign: Byte, magnitude: Uint32): (v: int)
    ensures -TWO_31 <= v < TWO_31 && Cong(v, if sign != 0 then -(magnitude as int) else magnitude)
  {
    Negated(magnitude);
    if sign != 0 then ToInt32(ToInt32(magnitude) * -1) else ToInt32(magnitude)
  }

  function PayloadOf(kind: Byte, buf: seq<Byte>): Payload
    requires |buf| == MAX_SERVER_BUFLEN && Known(kind)
  {
    var at := MAX_TOPIC_LEN;
    if kind == INT then IntData(SignedInt(buf[at], Be32(buf, at + 1)))
    else if kind == SHORT_REAL then ShortRealData(Be16(buf, at))
    else if kind == FLOAT then FloatData(buf[at] != 0, Be32(buf, at + 1), Pow(10, buf[at + 5]) % TWO_32)
    else StringData(buf[at..at + MAX_STRING_LEN])
  }

  /** What the receive buffer holds as a message, if its type byte is a known one. */
  function Parse(buf: seq<Byte>, addr: Addr): Option<Udp>
    requires |buf| == MAX_SERVER_BUFLEN
  {
    var kind := buf[MAX_TOPIC_LEN - 1];
    if Known(kind) then Some(Udp(addr, buf[..MAX_TOPIC_LEN], kind, PayloadOf(kind, buf))) else None
  }

  method ParseUdpIntType(buf: array<Byte>, at: nat) returns (v: int)
    requires at + 5 <= buf.Length
    ensures -TWO_31 <= v < TWO_31
    ensures Cong(v, if buf[at] != 0 then -(Be32(buf[..], at + 1) as int) else Be32(buf[..], at + 1))
  {
    Negated(Be32(buf[..], at + 1));
    var sign := buf[at];
    v := ToInt32(Be32(buf[..], at + 1));
    if sign != 0 {
      v := ToInt32(v * -1);
    }
  }

  method ParseUdpFloatType(buf: array<Byte>, at: nat) returns (negative: bool, mantissa: Uint32, divisor: Uint32)
    requires at + 6 <= buf.Length
    ensures negative == (buf[at] != 0) && mantissa == Be32(buf[..], at + 1)
    ensures divisor == Pow(10, buf[at + 5]) % TWO_32
  {
    mantissa := Be32(buf[..], at + 1);
    divisor := Ipow(10, buf[at + 5]);
    negative := buf[at] != 0;
  }

  /** Fills slot `at` of the message store from the receive buffer, field by field. */
  method ParseUdpTypeFrom(slots: array<Udp>, at: nat, addr: Addr, buf: array<Byte>) returns (err: Err)
    requires at < slots.Length && buf.Length == MAX_SERVER_BUFLEN
    modifies slots
    ensures forall j :: 0 <= j < slots.Length && j != at ==> slots[j] == old(slots[j])
    ensures Parse(buf[..], addr) == if err == OK then Some(slots[at]) else None
    ensures err == OK || err == UDP_UNKNOWN_DATA_TYPE
  {
    slots[at] := slots[at].(addr := addr);
    slots[at] := slots[at].(topic := buf[..MAX_TOPIC_LEN]);
    slots[at] := slots[at].(kind := buf[MAX_TOPIC_LEN - 1]);
    ghost var bytes := buf[..];
    assert bytes[..MAX_TOPIC_LEN] == buf[..MAX_TOPIC_LEN];
    var offset := MAX_TOPIC_LEN;
    var kind := slots[at].kind;
    if kind == INT {
      var v := ParseUdpIntType(buf, offset);
      OneInt(v, SignedInt(bytes[offset], Be32(bytes, offset + 1)),
             if bytes[offset] != 0 then -(Be32(bytes, offset + 1) as int) else Be32(bytes, offset + 1));
      slots[at] := slots[at].(data := IntData(v));
    } else if kind == SHORT_REAL {
      slots[at] := slots[at].(data := ShortRealData(Be16(buf[..], offset)));
    } else if kind == FLOAT {
      var negative, mantissa, divisor := ParseUdpFloatType(buf, offset);
      slots[at] := slots[at].(data := FloatData(negative, mantissa, divisor));
    } else if kind == STRING {
      slots[at] := slots[at].(data := StringData(buf[offset..offset + MAX_STRING_LEN]));
      assert bytes[offset..offset + MAX_STRING_LEN] == buf[offset..offset + MAX_STRING_LEN];
    } else {
      return UDP_UNKNOWN_DATA_TYPE;
    }
    return OK;
  }

  /** A parsed message is well formed: a known type whose payload is of that type. */
  predicate WellTyped(m: Udp) {
    && |m.topic| == MAX_TOPIC_LEN
    && match m.data
       case IntData(i) => m.kind == INT && -TWO_31 <= i < TWO_31
       case ShortRealData(_) => m.kind == SHORT_REAL
       case FloatData(_, _, _) => m.kind == FLOAT
       case StringData(s) => m.kind == STRING && |s| == MAX_STRING_LEN
       case NoData => false
  }

  lemma ParsedIsWellTyped(buf: seq<Byte>, addr: Addr)
    requires |buf| == MAX_SERVER_BUFLEN
    ensures Parse(buf, addr).Some? <==> Known(buf[MAX_TOPIC_LEN - 1])
    ensures Parse(buf, addr).Some? ==> WellTyped(Parse(buf, addr).value)
  {
  }

  // ---------- The sender's side, as the assignment's datagram format defines it ----------

  /** A value a UDP client may publish. A text may be sent with or without a closing NUL. */
  datatype Value =
    | IntValue(negative: bool, magnitude: Uint32)
    | ShortRealValue(hundredths: Uint16)
    | FloatValue(negative: bool, mantissa: Uint32, scale: Byte)
    | StringValue(text: seq<Byte>, terminated: bool)

  function KindOf(v: Value): Byte {
    match v
    case IntValue(_, _) => INT
    case ShortRealValue(_) => SHORT_REAL
    case FloatValue(_, _, _) => FLOAT
    case StringValue(_, _) => STRING
  }

  function ToBe16(n: Uint16): (s: seq<Byte>)
    ensures |s| == 2 && Be16(s, 0) == n
  {
    [n / 256, n % 256]
  }

  function ToBe32(n: Uint32): (s: seq<Byte>)
    ensures |s| == 4 && Be32(s, 0) == n
  {
    ToBe16(n / 0x1_0000) + ToBe16(n % 0x1_0000)
  }

  function EncodeValue(v: Value): seq<Byte> {
    match v
    case IntValue(negative, magnitude) => [if negative then 1 else 0] + ToBe32(magnitude)
    case ShortRealValue(hundredths) => ToBe16(hundredths)
    case FloatValue(negative, mantissa, scale) => [if negative then 1 else 0] + ToBe32(mantissa) + [scale]
    case StringValue(text, terminated) => if terminated then text + [NUL] else text
  }

  predicate ValidTopic(name: seq<Byte>) {
    NUL !in name && |name| <= 50
  }

  predicate ValidValue(v: Value) {
    v.StringValue? ==> NUL !in v.text && |v.text| <= 1500 && (v.terminated ==> |v.text| < 1500)
  }

  /** The datagram: a name padded to 50 bytes, the type byte, the payload. */
  function Encode(name: seq<Byte>, v: Value): (d: seq<Byte>)
    requires ValidTopic(name) && ValidValue(v)
    ensures MAX_TOPIC_LEN <= |d| <= 1551
  {
    name + Zeros(50 - |name|) + [KindOf(v)] + EncodeValue(v)
  }

  /** recvfrom fills the head of the buffer and leaves the bytes behind the datagram as they were. */
  function Receive(buf: seq<Byte>, datagram: seq<Byte>): (r: seq<Byte>)
    requires |datagram| <= |buf|
    ensures |r| == |buf|
  {
    Patch(buf, 0, datagram)
  }

  lemma ReceiveAt(buf: seq<Byte>, d: seq<Byte>, p: nat)
    requires |d| <= |buf| && p < |buf|
    ensures Receive(buf, d)[p] == if p < |d| then d[p] else buf[p]
  {
  }

  lemma EncodedHead(name: seq<Byte>, v: Value, buf: seq<Byte>)
    requires ValidTopic(name) && ValidValue(v) && |buf| == MAX_SERVER_BUFLEN
    ensures var r := Receive(buf, Encode(name, v));
      && r[MAX_TOPIC_LEN - 1] == KindOf(v)
      && r[..MAX_TOPIC_LEN] == name + Zeros(50 - |name|) + [KindOf(v)]
      && forall k :: 0 <= k < |EncodeValue(v)| ==> r[MAX_TOPIC_LEN + k] == EncodeValue(v)[k]
  {
    var head := name + Zeros(50 - |name|) + [KindOf(v)];
    var d := Encode(name, v);
    var r := Receive(buf, d);
    assert d == head + EncodeValue(v);
    assert r[..|d|] == d;
    assert r[..MAX_TOPIC_LEN] == d[..MAX_TOPIC_LEN] == head;
    assert r[MAX_TOPIC_LEN - 1] == r[..MAX_TOPIC_LEN][MAX_TOPIC_LEN - 1];
    forall k | 0 <= k < |EncodeValue(v)|
      ensures r[MAX_TOPIC_LEN + k] == EncodeValue(v)[k]
    {
      assert r[MAX_TOPIC_LEN + k] == d[MAX_TOPIC_LEN + k];
    }
  }

  /** The topic is recovered exactly when its name leaves room for a NUL or the type byte is one. */
  lemma TopicRoundTrip(name: seq<Byte>, v: Value, buf: seq<Byte>, addr: Addr)
    requires ValidTopic(name) && ValidValue(v) && |buf| == MAX_SERVER_BUFLEN
    ensures Parse(Receive(buf, Encode(name, v)), addr).Some?
    ensures TopicOf(Parse(Receive(buf, Encode(name, v)), addr).value) == name <==> |name| <= 49 || v.IntValue?
  {
    EncodedHead(name, v, buf);
    var topic := name + Zeros(50 - |name|) + [KindOf(v)];
    assert topic[..|name|] == name;
    if |name| <= 49 || v.IntValue? {
      CStrOfPrefix(topic, name);
    } else {
      CStrOfFull(topic);
    }
  }

  /** The numbers a payload denotes, and the value the sender meant. */
  ghost predicate Means(p: Payload, v: Value) {
    match v
    case IntValue(negative, magnitude) => p == IntData(if negative then -(magnitude as int) else magnitude)
    case ShortRealValue(hundredths) => p == ShortRealData(hundredths)
    case FloatValue(negative, mantissa, scale) =>
      p.FloatData? && p.negative == negative && p.mantissa == mantissa && p.divisor as int == Pow(10, scale)
    case StringValue(text, _) => p.StringData? && CStr(p.bytes) == text
  }

  /** When the parser recovers a value: integers in range, scales up to nine, texts followed by a NUL. */
  predicate Exact(v: Value, stale: seq<Byte>)
    requires |stale| == MAX_SERVER_BUFLEN && ValidValue(v)
  {
    match v
    case IntValue(negative, magnitude) => magnitude < TWO_31 || (negative && magnitude == TWO_31)
    case ShortRealValue(_) => true
    case FloatValue(_, _, scale) => scale <= 9
    case StringValue(text, terminated) => terminated || stale[MAX_TOPIC_LEN + |text|] == NUL
  }

  lemma SignedIntExact(negative: bool, magnitude: Uint32)
    ensures SignedInt(if negative then 1 else 0, magnitude) == (if negative then -(magnitude as int) else magnitude)
      <==> magnitude < TWO_31 || (negative && magnitude == TWO_31)
  {
  }

  /** What a buffer must hold for a value. */
  predicate HoldsValue(r: seq<Byte>, v: Value)
    requires |r| == MAX_SERVER_BUFLEN
  {
    forall k :: 0 <= k < |EncodeValue(v)| && MAX_TOPIC_LEN + k < |r| ==> r[MAX_TOPIC_LEN + k] == EncodeValue(v)[k]
  }

  lemma IntReads(r: seq<Byte>, negative: bool, magnitude: Uint32)
    requires |r| == MAX_SERVER_BUFLEN && HoldsValue(r, IntValue(negative, magnitude))
    ensures Means(PayloadOf(INT, r), IntValue(negative, magnitude)) <==>
      magnitude < TWO_31 || (negative && magnitude == TWO_31)
  {
    var v := IntValue(negative, magnitude);
    BigEndianBehind(r, v, ToBe32(magnitude));
    SignedIntExact(negative, magnitude);
  }

  lemma ShortRealReads(r: seq<Byte>, hundredths: Uint16)
    requires |r| == MAX_SERVER_BUFLEN && HoldsValue(r, ShortRealValue(hundredths))
    ensures Means(PayloadOf(SHORT_REAL, r), ShortRealValue(hundredths))
  {
    var v := ShortRealValue(hundredths);
    assert r[MAX_TOPIC_LEN + 0] == EncodeValue(v)[0] && r[MAX_TOPIC_LEN + 1] == EncodeValue(v)[1];
  }

  lemma FloatReads(r: seq<Byte>, negative: bool, mantissa: Uint32, scale: Byte)
    requires |r| == MAX_SERVER_BUFLEN && HoldsValue(r, FloatValue(negative, mantissa, scale))
    ensures Means(PayloadOf(FLOAT, r), FloatValue(negative, mantissa, scale)) <==> scale <= 9
  {
    var v := FloatValue(negative, mantissa, scale);
    BigEndianBehind(r, v, ToBe32(mantissa));
    assert r[MAX_TOPIC_LEN + 5] == EncodeValue(v)[5] == scale;
    PowTenIn32Bits(scale);
  }

  lemma StringReads(name: seq<Byte>, v: Value, buf: seq<Byte>)
    requires ValidTopic(name) && ValidValue(v) && |buf| == MAX_SERVER_BUFLEN && v.StringValue?
    ensures Means(PayloadOf(STRING, Receive(buf, Encode(name, v))), v) <==> Exact(v, buf)
  {
    TextRoundTrip(name, v, buf);
  }

  /** A datagram is parsed back to the published value exactly when `Exact` holds, whatever the buffer held. */
  lemma ValueRoundTrip(name: seq<Byte>, v: Value, buf: seq<Byte>, addr: Addr)
    requires ValidTopic(name) && ValidValue(v) && |buf| == MAX_SERVER_BUFLEN
    ensures Parse(Receive(buf, Encode(name, v)), addr).Some?
    ensures var m := Parse(Receive(buf, Encode(name, v)), addr).value;
      m.addr == addr && m.kind == KindOf(v) && (Means(m.data, v) <==> Exact(v, buf))
  {
    EncodedHead(name, v, buf);
    hide Receive, Encode, EncodeValue, PayloadOf, Means;
    var r := Receive(buf, Encode(name, v));
    assert HoldsValue(r, v);
    match v
    case IntValue(negative, magnitude) => IntReads(r, negative, magnitude);
    case ShortRealValue(hundredths) => ShortRealReads(r, hundredths);
    case FloatValue(negative, mantissa, scale) => FloatReads(r, negative, mantissa, scale);
    case StringValue(_, _) => StringReads(name, v, buf);
  }

  lemma BigEndianBehind(r: seq<Byte>, v: Value, word: seq<Byte>)
    requires |r| == MAX_SERVER_BUFLEN && |word| == 4 && 5 <= |EncodeValue(v)| <= 1500
    requires forall k :: 0 <= k < |EncodeValue(v)| ==> r[MAX_TOPIC_LEN + k] == EncodeValue(v)[k]
    requires forall k :: 0 <= k < 4 ==> EncodeValue(v)[k + 1] == word[k]
    ensures Be32(r, MAX_TOPIC_LEN + 1) == Be32(word, 0)
    ensures r[MAX_TOPIC_LEN] == EncodeValue(v)[0]
  {
    assert r[MAX_TOPIC_LEN + 0] == EncodeValue(v)[0];
    assert r[MAX_TOPIC_LEN + 1] == EncodeValue(v)[1] == EncodeValue(v)[0 + 1] == word[0];
    assert r[MAX_TOPIC_LEN + 2] == EncodeValue(v)[2] == EncodeValue(v)[1 + 1] == word[1];
    assert r[MAX_TOPIC_LEN + 3] == EncodeValue(v)[3] == EncodeValue(v)[2 + 1] == word[2];
    assert r[MAX_TOPIC_LEN + 4] == EncodeValue(v)[4] == EncodeValue(v)[3 + 1] == word[3];
  }

  lemma TextRoundTrip(name: seq<Byte>, v: Value, buf: seq<Byte>)
    requires ValidTopic(name) && ValidValue(v) && |buf| == MAX_SERVER_BUFLEN && v.StringValue?
    ensures var r := Receive(buf, Encode(name, v));
      var stored := r[MAX_TOPIC_LEN..MAX_TOPIC_LEN + MAX_STRING_LEN];
      && v.text <= CStr(stored)
      && (CStr(stored) == v.text <==> Exact(v, buf))
  {
    EncodedHead(name, v, buf);
    var d := Encode(name, v);
    var r := Receive(buf, d);
    var n := |v.text|;
    var stored := r[MAX_TOPIC_LEN..MAX_TOPIC_LEN + MAX_STRING_LEN];
    forall k | 0 <= k < n
      ensures stored[k] == v.text[k]
    {
      assert r[MAX_TOPIC_LEN + k] == EncodeValue(v)[k];
    }
    ReceiveAt(buf, d, MAX_TOPIC_LEN + n);
    assert v.terminated ==> EncodeValue(v)[n] == NUL;
    assert stored[..n] == v.text;
    CStrOfPrefix(stored, v.text);
  }

  // ---------- The receive buffer over a whole run of datagrams ----------

  /** The buffer after the datagrams of a run; it starts zeroed and is never cleared. */
  function BufferAfter(run: seq<seq<Byte>>): (buf: seq<Byte>)
    requires forall d :: d in run ==> |d| <= MAX_SERVER_BUFLEN
    ensures |buf| == MAX_SERVER_BUFLEN
  {
    if run == [] then Zeros(MAX_SERVER_BUFLEN) else Receive(BufferAfter(run[..|run| - 1]), run[|run| - 1])
  }

  /** A byte that no datagram of the run reached is still zero. */
  lemma {:induction false} UntouchedByteIsZero(run: seq<seq<Byte>>, p: nat)
    requires p < MAX_SERVER_BUFLEN
    requires forall d :: d in run ==> |d| <= p
    ensures BufferAfter(run)[p] == NUL
  {
    if run != [] {
      var before := run[..|run| - 1];
      assert run[|run| - 1] in run;
      UntouchedByteIsZero(before, p);
      ReceiveAt(BufferAfter(before), run[|run| - 1], p);
    }
  }

  /** The bytes behind a datagram's type byte. */
  function PayloadBytes(d: seq<Byte>): seq<Byte>
    requires |d| >= MAX_TOPIC_LEN
  {
    d[MAX_TOPIC_LEN..]
  }

  /** What a STRING datagram leaves in the field of the stored message. */
  function StoredField(buf: seq<Byte>): (f: seq<Byte>)
    requires |buf| == MAX_SERVER_BUFLEN
    ensures |f| == MAX_STRING_LEN
  {
    buf[MAX_TOPIC_LEN..MAX_TOPIC_LEN + MAX_STRING_LEN]
  }

  /** A stored text begins with the payload's text, whatever the buffer held, and equals it if the payload holds a
      NUL or a NUL follows it in the buffer. */
  lemma StoredText(buf: seq<Byte>, d: seq<Byte>)
    requires |buf| == MAX_SERVER_BUFLEN && MAX_TOPIC_LEN <= |d| <= 1551 && buf[1551] == NUL
    ensures var stored := StoredField(Receive(buf, d));
      && StrLen(stored) < MAX_STRING_LEN
      && CStr(PayloadBytes(d)) <= CStr(stored)
      && (CStr(stored) == CStr(PayloadBytes(d)) <==> NUL in PayloadBytes(d) || buf[|d|] == NUL)
  {
    var r, p := Receive(buf, d), PayloadBytes(d);
    var stored, n := StoredField(r), StrLen(PayloadBytes(d));
    assert r[..|d|] == d;
    forall k | 0 <= k < |p|
      ensures stored[k] == p[k]
    {
      assert r[MAX_TOPIC_LEN + k] == d[MAX_TOPIC_LEN + k];
    }
    assert stored[..n] == CStr(p);
    ReceiveAt(buf, d, MAX_TOPIC_LEN + n);
    ReceiveAt(buf, d, 1551);
    CStrOfPrefix(stored, CStr(p));
    assert n == |p| ==> NUL !in p[..n] && p[..n] == p;
    NulEnds(stored, 1500);
  }

  lemma NulEnds(s: seq<Byte>, k: nat)
    requires k < |s| && s[k] == NUL
    ensures StrLen(s) <= k
  {
    assert forall i :: 0 <= i < StrLen(s) ==> s[i] == s[..StrLen(s)][i] != NUL;
  }

  /** Over any run of datagrams no longer than the format allows, with any payloads: every stored string ends
      within its field and begins with its payload's text; it is that text if the payload holds a NUL or no earlier
      datagram was longer. */
  lemma StoredTextOverRun(run: seq<seq<Byte>>, d: seq<Byte>)
    requires MAX_TOPIC_LEN <= |d| <= 1551 && forall e :: e in run ==> |e| <= 1551
    ensures var stored := StoredField(BufferAfter(run + [d]));
      && StrLen(stored) < MAX_STRING_LEN
      && CStr(PayloadBytes(d)) <= CStr(stored)
      && (NUL in PayloadBytes(d) || (forall e :: e in run ==> |e| <= |d|) ==> CStr(stored) == CStr(PayloadBytes(d)))
  {
    assert (run + [d])[..|run|] == run;
    UntouchedByteIsZero(run, 1551);
    StoredText(BufferAfter(run), d);
    if forall e :: e in run ==> |e| <= |d| {
      UntouchedByteIsZero(run, |d|);
    }
  }
}
