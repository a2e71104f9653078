/** The protocol message, a 16-bit length and 2048 bytes of data, and the rendering of a stored message into it. */
module TopicMsg {
  import opened Bytes
  import opened Utils
  import opened UdpType
  import opened TcpType

  /** The packed struct: two length bytes, least significant first, then the data. */
  const DATA := 2

  function LenOf(frame: seq<Byte>): Uint16
    requires |frame| == TCP_MSG_SIZE
  {
    frame[0] as int + frame[1] as int * 256
  }

  function DataOf(frame: seq<Byte>): (d: seq<Byte>)
    requires |frame| == TCP_MSG_SIZE
    ensures |d| == MAX_TCP_MSG_BUF_LEN
  {
    frame[DATA..]
  }

  /** What the subscriber prints for a message: its data up to the first NUL. */
  function Screen(frame: seq<Byte>): seq<Byte>
    requires |frame| == TCP_MSG_SIZE
  {
    CStr(DataOf(frame))
  }

  // ---------- The text of a stored message ----------

  function Dotted(addr: Addr): seq<Byte> {
    Decimal(addr.a) + [46] + Decimal(addr.b) + [46] + Decimal(addr.c) + [46] + Decimal(addr.d)
  }

  /** "%s:%hu - %s -" */
  function Head(m: Udp): seq<Byte> {
    Dotted(m.addr) + [58] + Decimal(m.addr.port) + [32, 45, 32] + TopicOf(m) + [32, 45]
  }

  /** "%d" */
  function Signed(i: int): seq<Byte> {
    if i < 0 then [45] + Decimal(-i) else Decimal(i)
  }

  /** "%.2f" of a number of hundredths */
  function TwoPlaces(hundredths: nat): seq<Byte> {
    Decimal(hundredths / 100) + [46, 48 + hundredths / 10 % 10, 48 + hundredths % 10]
  }

  /** "%f" of a signed quotient: how the C library rounds it is left open. */
  type FloatFormat = (bool, nat, nat) -> seq<Byte>

  /** Sign, ten digits, point and six places at most; infinities and NaN are shorter. */
  ghost predicate FormatOk(fmt: FloatFormat) {
    forall negative, mantissa, divisor ::
      |fmt(negative, mantissa, divisor)| <= 18 && NUL !in fmt(negative, mantissa, divisor)
  }

  function Tail(m: Udp, fmt: FloatFormat): seq<Byte>
    requires WellTyped(m)
  {
    match m.data
    case IntData(i) => [32, 73, 78, 84, 32, 45, 32] + Signed(i)
    case ShortRealData(h) => [32, 83, 72, 79, 82, 84, 95, 82, 69, 65, 76, 32, 45, 32] + TwoPlaces(h)
    case FloatData(negative, mantissa, divisor) =>
      [32, 70, 76, 79, 65, 84, 32, 45, 32] + fmt(negative, mantissa, divisor)
    case StringData(s) => [32, 83, 84, 82, 73, 78, 71, 32, 45, 32] + CStr(s)
  }

  /** "ADDR:PORT - TOPIC - TYPE - VALUE" */
  function Render(m: Udp, fmt: FloatFormat): seq<Byte>
    requires WellTyped(m)
  {
    Head(m) + Tail(m, fmt)
  }

  lemma HeadBounded(m: Udp)
    requires |m.topic| == MAX_TOPIC_LEN
    ensures |Head(m)| <= 77 && NUL !in Head(m)
  {
    DecimalLength(m.addr.a, 3, 1000);
    DecimalLength(m.addr.b, 3, 1000);
    DecimalLength(m.addr.c, 3, 1000);
    DecimalLength(m.addr.d, 3, 1000);
    DecimalLength(m.addr.port, 5, 100000);
    assert NUL !in Dotted(m.addr);
  }

  lemma TailBounded(m: Udp, fmt: FloatFormat)
    requires WellTyped(m) && FormatOk(fmt)
    ensures |Tail(m, fmt)| <= 1511 && NUL !in Tail(m, fmt)
  {
    match m.data
    case IntData(i) => DecimalLength(if i < 0 then -i else i, 10, 10_000_000_000);
    case ShortRealData(h) => DecimalLength(h / 100, 3, 1000);
    case FloatData(_, _, _) =>
    case StringData(s) =>
  }

  /** A rendered message always fits the data field, with its closing NUL. */
  lemma RenderBounded(m: Udp, fmt: FloatFormat)
    requires WellTyped(m) && FormatOk(fmt)
    ensures |Render(m, fmt)| <= 1588 < MAX_TCP_MSG_BUF_LEN
    ensures NUL !in Render(m, fmt)
  {
    HeadBounded(m);
    TailBounded(m, fmt);
  }

  /** snprintf: at most size - 1 bytes of the text and a NUL are stored; the full length is returned. */
  method Snprintf(buf: array<Byte>, at: nat, size: nat, text: seq<Byte>) returns (n: nat)
    requires size > 0 && at + size <= buf.Length
    modifies buf
    ensures n == |text|
    ensures buf[..] == Patch(old(buf[..]), at, (if |text| < size then text else text[..size - 1]) + [NUL])
  {
    n := |text|;
    var stored := if n < size then n else size - 1;
    var k := 0;
    while k < stored
      invariant 0 <= k <= stored
      invariant buf[..at] == old(buf[..])[..at]
      invariant forall i :: 0 <= i < k ==> buf[at + i] == text[i]
      invariant forall i :: at + k <= i < buf.Length ==> buf[i] == old(buf[i])
    {
      buf[at + k] := text[k];
      k := k + 1;
    }
    buf[at + stored] := NUL;
    ghost var patch := text[..stored] + [NUL];
    assert buf[at..at + |patch|] == patch;
    assert buf[at + |patch|..] == old(buf[..])[at + |patch|..];
  }

  method SetLen(msg: array<Byte>, len: Uint16)
    requires msg.Length == TCP_MSG_SIZE
    modifies msg
    ensures LenOf(msg[..]) == len && msg[DATA..] == old(msg[..])[DATA..]
  {
    msg[0], msg[1] := len % 256, len / 256;
  }

  /** A text written in two adjacent parts is read back whole, whatever the buffer held. */
  lemma TwoPartText(buf: seq<Byte>, at: nat, head: seq<Byte>, tail: seq<Byte>)
    requires at + |head| + |tail| < |buf| && NUL !in head && NUL !in tail
    requires buf[at..at + |head|] == head
    requires buf[at + |head|..at + |head| + |tail| + 1] == tail + [NUL]
    ensures CStr(buf[at..]) == head + tail
  {
    var d, text := buf[at..], head + tail;
    var stored := buf[at..at + |head|] + buf[at + |head|..at + |head| + |tail| + 1];
    assert d[..|text| + 1] == stored == text + [NUL];
    CStrOfStored(d, text);
  }

  lemma PartOfPatch(before: seq<Byte>, after: seq<Byte>, text: seq<Byte>)
    requires |before| == |after| && DATA + |text| + 1 <= |before|
    requires before[DATA..DATA + |text| + 1] == text + [NUL]
    requires after[DATA..] == before[DATA..]
    ensures after[DATA..DATA + |text|] == text
  {
    assert after[DATA..DATA + |text|] == after[DATA..][..|text|] == before[DATA..DATA + |text| + 1][..|text|];
  }

  /** pack_topic_to_tcp_msg: the length field and the printed text are those of the rendered message. */
  method PackTopicToTcpMsg(msg: array<Byte>, m: Udp, fmt: FloatFormat) returns (err: Err)
    requires msg.Length == TCP_MSG_SIZE && FormatOk(fmt)
    requires |m.topic| == MAX_TOPIC_LEN && (Known(m.kind) ==> WellTyped(m))
    modifies msg
    ensures err == if Known(m.kind) then OK else UDP_UNKNOWN_DATA_TYPE
    ensures err == OK ==> LenOf(msg[..]) == |Render(m, fmt)| && Screen(msg[..]) == Render(m, fmt)
  {
    HeadBounded(m);
    var len := Snprintf(msg, DATA, MAX_TCP_MSG_BUF_LEN, Head(m));
    ghost var zeroth := msg[..];
    SetLen(msg, len);
    if !Known(m.kind) {
      return UDP_UNKNOWN_DATA_TYPE;
    }
    TailBounded(m, fmt);
    ghost var first := msg[..];
    PartOfPatch(zeroth, first, Head(m));
    var n := Snprintf(msg, DATA + len, MAX_TCP_MSG_BUF_LEN - len, Tail(m, fmt));
    ghost var second := msg[..];
    assert second[DATA..DATA + len] == second[..DATA + len][DATA..] == first[..DATA + len][DATA..] == Head(m);
    SetLen(msg, len + n);
    TwoPartText(second, DATA, Head(m), Tail(m, fmt));
    assert DataOf(msg[..]) == second[DATA..];
    return OK;
  }
}
