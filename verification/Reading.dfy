/** What a reader of a printed message gets back from its text: the sender, the topic, the type and the value. */
module Reading {
  import opened Bytes
  import opened Utils
  import opened UdpType
  import opened TopicMsg
  import opened Commands

  // ---------- Fields ----------

  /** The parts of a text between separators. */
  function Fields(s: seq<Byte>, sep: Byte): (r: seq<seq<Byte>>)
    ensures |r| >= 1
  {
    if s == [] then [[]]
    else
      var f := Fields(s[1..], sep);
      if s[0] == sep then [[]] + f else [[s[0]] + f[0]] + f[1..]
  }

  lemma {:induction false} FieldsApart(a: seq<Byte>, sep: Byte, b: seq<Byte>)
    requires sep !in a
    ensures Fields(a + [sep] + b, sep) == [a] + Fields(b, sep)
  {
    var s := a + [sep] + b;
    if a == [] {
      assert s[1..] == b;
    } else {
      assert a[0] in a;
      assert s[1..] == a[1..] + [sep] + b;
      FieldsApart(a[1..], sep, b);
      assert [a[0]] + a[1..] == a;
    }
  }

  lemma {:induction false} OneField(a: seq<Byte>, sep: Byte)
    requires sep !in a
    ensures Fields(a, sep) == [a]
  {
    if a != [] {
      assert a[0] in a;
      OneField(a[1..], sep);
      assert [a[0]] + a[1..] == a;
    }
  }

  // ---------- Numbers ----------

  /** A text of decimal digits and the number it denotes. */
  predicate Denotes(s: seq<Byte>, n: nat) {
    s != [] && AllDigits(s) && DigitsValue(s) == n
  }

  lemma DecimalDenotes(n: nat)
    ensures Denotes(Decimal(n), n)
    ensures 46 !in Decimal(n) && 58 !in Decimal(n)
  {
    hide Decimal, DigitsValue;
    DecimalValue(n);
    var s := Decimal(n);
    assert forall k :: 0 <= k < |s| ==> s[k] in s;
  }

  /** Four numbers between points, in the order of the address. */
  predicate DenotesAddress(s: seq<Byte>, addr: Addr) {
    var f := Fields(s, 46);
    |f| == 4 && Denotes(f[0], addr.a) && Denotes(f[1], addr.b) && Denotes(f[2], addr.c) && Denotes(f[3], addr.d)
  }

  lemma FourFields(a: seq<Byte>, b: seq<Byte>, c: seq<Byte>, d: seq<Byte>, sep: Byte)
    requires sep !in a && sep !in b && sep !in c && sep !in d
    ensures Fields(a + [sep] + b + [sep] + c + [sep] + d, sep) == [a, b, c, d]
  {
    hide Fields;
    var cd := c + [sep] + d;
    var bcd := b + [sep] + cd;
    FieldsApart(a, sep, bcd);
    FieldsApart(b, sep, cd);
    FieldsApart(c, sep, d);
    OneField(d, sep);
    assert a + [sep] + b + [sep] + c + [sep] + d == a + [sep] + bcd;
  }

  lemma DottedReads(addr: Addr)
    ensures DenotesAddress(Dotted(addr), addr) && 58 !in Dotted(addr)
  {
    DecimalDenotes(addr.a);
    DecimalDenotes(addr.b);
    DecimalDenotes(addr.c);
    DecimalDenotes(addr.d);
    hide Decimal, Denotes, Fields;
    FourFields(Decimal(addr.a), Decimal(addr.b), Decimal(addr.c), Decimal(addr.d), 46);
  }

  /** A number of hundredths: digits, a point and two digits, which together are the number. */
  predicate DenotesHundredths(s: seq<Byte>, h: nat) {
    var n := |s| - 3;
    n >= 1 && s[n] == 46 && Denotes(s[..n] + s[n + 1..], h)
  }

  lemma PlacesOf(h: nat)
    ensures 10 * (10 * (h / 100) + h / 10 % 10) + h % 10 == h
  {
  }

  lemma TwoMoreDigits(d: seq<Byte>, n: nat, x: Byte, y: Byte)
    requires Denotes(d, n) && 48 <= x <= 57 && 48 <= y <= 57
    ensures Denotes(d + [x, y], 10 * (10 * n + (x as int - 48)) + (y as int - 48))
  {
    hide DigitsValue;
    AppendDigit(d, x);
    AppendDigit(d + [x], y);
    assert d + [x, y] == d + [x] + [y];
  }

  lemma TwoPlacesReads(h: nat)
    ensures DenotesHundredths(TwoPlaces(h), h)
  {
    var d, x, y := Decimal(h / 100), 48 + h / 10 % 10, 48 + h % 10;
    DecimalDenotes(h / 100);
    TwoMoreDigits(d, h / 100, x, y);
    PlacesOf(h);
    PointRemoved(d, x, y);
    hide Decimal, Denotes;
  }

  lemma PointRemoved(d: seq<Byte>, x: Byte, y: Byte)
    ensures var s, n := d + [46, x, y], |d|; s[n] == 46 && s[..n] + s[n + 1..] == d + [x, y]
  {
    var s, n := d + [46, x, y], |d|;
    assert s[..n] == d && s[n + 1..] == [x, y];
  }

  /** A minus sign exactly before a negative number, and digits. */
  predicate DenotesInt(s: seq<Byte>, i: int) {
    if i < 0 then s != [] && s[0] == 45 && Denotes(s[1..], -i) else Denotes(s, i)
  }

  lemma SignedDenotes(i: int)
    ensures DenotesInt(Signed(i), i)
  {
    DecimalDenotes(if i < 0 then -i else i);
    hide Denotes, Decimal;
    assert i < 0 ==> Signed(i)[1..] == Decimal(-i);
  }

  // ---------- Messages ----------

  function TypeWord(kind: Byte): seq<Byte> {
    Ascii(match kind
          case 0 => "INT"
          case 1 => "SHORT_REAL"
          case 2 => "FLOAT"
          case 3 => "STRING"
          case _ => "")
  }

  /** The type word tells the types apart. */
  lemma TypeWordsDiffer(j: Byte, k: Byte)
    requires j <= 3 && k <= 3 && TypeWord(j) == TypeWord(k)
    ensures j == k
  {
    assert forall i: Byte :: i <= 3 ==>
      |TypeWord(i)| == if i == 0 then 3 else if i == 1 then 10 else if i == 2 then 5 else 6;
  }

  /** A printed value and the value stored. */
  ghost predicate DenotesValue(s: seq<Byte>, p: Payload, fmt: FloatFormat) {
    match p
    case IntData(i) => DenotesInt(s, i)
    case ShortRealData(h) => DenotesHundredths(s, h)
    case FloatData(negative, mantissa, divisor) => s == fmt(negative, mantissa, divisor)
    case StringData(bytes) => s == CStr(bytes)
    case NoData => false
  }

  /** "ADDRESS:PORT - TOPIC - TYPE - VALUE" */
  function Layout(address: seq<Byte>, port: seq<Byte>, topic: seq<Byte>, word: seq<Byte>, value: seq<Byte>): seq<Byte> {
    address + Ascii(":") + port + Ascii(" - ") + topic + Ascii(" - ") + word + Ascii(" - ") + value
  }

  /** The text of a message reads as its sender's address and port, its topic, its type and its value. */
  lemma RenderReads(m: Udp, fmt: FloatFormat) returns (address: seq<Byte>, port: seq<Byte>, value: seq<Byte>)
    requires WellTyped(m)
    ensures Render(m, fmt) == Layout(address, port, TopicOf(m), TypeWord(m.kind), value)
    ensures DenotesAddress(address, m.addr) && 58 !in address && Denotes(port, m.addr.port)
    ensures DenotesValue(value, m.data, fmt)
  {
    address, port := Dotted(m.addr), Decimal(m.addr.port);
    DottedReads(m.addr);
    DecimalDenotes(m.addr.port);
    value := ValueOf(m.data, fmt);
    ValueReads(m.data, fmt);
    TailReads(m, fmt);
    HeadReads(m);
    hide Head, Tail, DenotesAddress, Denotes, DenotesValue;
    Glued(Head(m), address + Ascii(":") + port + Ascii(" - ") + TopicOf(m), TypeWord(m.kind) + Ascii(" - ") + value);
    Regrouped(address + Ascii(":") + port + Ascii(" - ") + TopicOf(m), TypeWord(m.kind), value);
  }

  lemma HeadReads(m: Udp)
    ensures Head(m) == Dotted(m.addr) + Ascii(":") + Decimal(m.addr.port) + Ascii(" - ") + TopicOf(m) + Ascii(" -")
  {
    hide Dotted, Decimal, TopicOf;
    assert Ascii(":") == [58] && Ascii(" - ") == [32, 45, 32] && Ascii(" -") == [32, 45];
  }

  lemma Glued(head: seq<Byte>, x: seq<Byte>, y: seq<Byte>)
    requires head == x + Ascii(" -")
    ensures head + (Ascii(" ") + y) == x + Ascii(" - ") + y
  {
    assert Ascii(" -") + Ascii(" ") == Ascii(" - ");
    assert head + (Ascii(" ") + y) == x + (Ascii(" -") + Ascii(" ")) + y;
  }

  lemma Regrouped(x: seq<Byte>, word: seq<Byte>, value: seq<Byte>)
    ensures x + Ascii(" - ") + (word + Ascii(" - ") + value) == x + Ascii(" - ") + word + Ascii(" - ") + value
    ensures Ascii(" ") + word + Ascii(" - ") + value == Ascii(" ") + (word + Ascii(" - ") + value)
  {
  }

  function ValueOf(p: Payload, fmt: FloatFormat): seq<Byte> {
    match p
    case IntData(i) => Signed(i)
    case ShortRealData(h) => TwoPlaces(h)
    case FloatData(negative, mantissa, divisor) => fmt(negative, mantissa, divisor)
    case StringData(bytes) => CStr(bytes)
    case NoData => []
  }

  lemma ValueReads(p: Payload, fmt: FloatFormat)
    requires !p.NoData?
    ensures DenotesValue(ValueOf(p, fmt), p, fmt)
  {
    hide Signed, TwoPlaces, DenotesInt, DenotesHundredths;
    match p
    case IntData(i) => SignedDenotes(i);
    case ShortRealData(h) => TwoPlacesReads(h);
    case FloatData(_, _, _) =>
    case StringData(_) =>
  }

  lemma TypesSpelled()
    ensures Ascii(" ") == [32] && Ascii(" - ") == [32, 45, 32]
    ensures TypeWord(INT) == [73, 78, 84] && TypeWord(FLOAT) == [70, 76, 79, 65, 84]
    ensures TypeWord(SHORT_REAL) == [83, 72, 79, 82, 84, 95, 82, 69, 65, 76]
    ensures TypeWord(STRING) == [83, 84, 82, 73, 78, 71]
  {
  }

  lemma TailReads(m: Udp, fmt: FloatFormat)
    requires WellTyped(m)
    ensures Tail(m, fmt) == Ascii(" ") + TypeWord(m.kind) + Ascii(" - ") + ValueOf(m.data, fmt)
  {
    TypesSpelled();
    hide Signed, TwoPlaces, CStr, TypeWord, Ascii;
  }
}
