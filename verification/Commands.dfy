/** Command lines, their words, and the encoding of a request in a protocol message. */
module Commands {
  import opened Bytes
  import opened Utils
  import opened UdpType
  import opened TcpType
  import opened TopicMsg
  import opened Broker

  /** "subscribe" and "unsubscribe" */
  const SUBSCRIBE: seq<Byte> := [115, 117, 98, 115, 99, 114, 105, 98, 101]
  const UNSUBSCRIBE: seq<Byte> := [117, 110, 115, 117, 98, 115, 99, 114, 105, 98, 101]
  const EXIT: seq<Byte> := [101, 120, 105, 116]

  const MAX_CMD_LEN := 10
  const MAX_CLIENT_CMD_LEN := 128

  /** A word separator: space or newline. */
  predicate Sep(b: Byte) {
    b == 32 || b == 10
  }

  function WordLen(s: seq<Byte>): (n: nat)
    ensures n <= |s|
    ensures forall i :: 0 <= i < n ==> !Sep(s[i])
    ensures n < |s| ==> Sep(s[n])
  {
    if s == [] || Sep(s[0]) then 0 else 1 + WordLen(s[1..])
  }

  function SepLen(s: seq<Byte>): (n: nat)
    ensures n <= |s|
    ensures forall i :: 0 <= i < n ==> Sep(s[i])
    ensures n < |s| ==> !Sep(s[n])
  {
    if s == [] || !Sep(s[0]) then 0 else 1 + SepLen(s[1..])
  }

  /** The words of a line, in order. */
  function Words(s: seq<Byte>): (w: seq<seq<Byte>>)
    decreases |s|
  {
    if s == [] then []
    else if Sep(s[0]) then Words(s[1..])
    else
      var n := WordLen(s);
      [s[..n]] + Words(s[n..])
  }

  lemma {:induction false} WordsSkip(s: seq<Byte>, n: nat)
    requires n <= |s| && forall i :: 0 <= i < n ==> Sep(s[i])
    ensures Words(s) == Words(s[n..])
  {
    if n > 0 {
      WordsSkip(s[1..], n - 1);
      assert s[1..][n - 1..] == s[n..];
    } else {
      assert s[0..] == s;
    }
  }

  lemma WordsHead(t: seq<Byte>)
    requires t != [] && !Sep(t[0])
    ensures WordLen(t) > 0 && Words(t) == [t[..WordLen(t)]] + Words(t[WordLen(t)..])
  {
  }

  lemma WordsOfNone(t: seq<Byte>)
    requires t == []
    ensures Words(t) == []
  {
  }

  /** The word a line begins with, and the line behind it and the separator that ends it. */
  function LeadingWord(t: seq<Byte>): seq<Byte> {
    t[..WordLen(t)]
  }

  function Behind(t: seq<Byte>): seq<Byte> {
    var u := t[WordLen(t)..];
    if u == [] then [] else u[1..]
  }

  function FirstWord(s: seq<Byte>): seq<Byte> {
    LeadingWord(s[SepLen(s)..])
  }

  function RestOf(s: seq<Byte>): seq<Byte> {
    Behind(s[SepLen(s)..])
  }

  /** A line's words are its first word and the words of the rest. */
  lemma WordsSplit(s: seq<Byte>)
    ensures SepLen(s) == |s| ==> Words(s) == []
    ensures SepLen(s) < |s| ==> Words(s) == [FirstWord(s)] + Words(RestOf(s))
  {
    hide Words, WordLen, SepLen;
    var t := s[SepLen(s)..];
    WordsSkip(s, SepLen(s));
    if t == [] {
      WordsOfNone(t);
    } else {
      WordsHead(t);
      var u := t[WordLen(t)..];
      if u != [] {
        WordsSkip(u, 1);
      }
    }
  }

  lemma {:induction false} WordsAreParts(s: seq<Byte>)
    requires NUL !in s
    ensures forall k :: 0 <= k < |Words(s)| ==> NUL !in Words(s)[k] && |Words(s)[k]| <= |s|
    ensures |Words(s)| >= 2 ==> |Words(s)[0]| + |Words(s)[1]| <= |s|
    decreases |s|
  {
    if s != [] {
      var n := if Sep(s[0]) then 1 else WordLen(s);
      assert forall x :: x in s[n..] ==> x in s;
      WordsAreParts(s[n..]);
    }
  }

  // ---------- What words are, byte by byte ----------

  predicate NoBlank(s: seq<Byte>) {
    forall i :: 0 <= i < |s| ==> s[i] != 32 && s[i] != 10
  }

  /** A blank or a newline, wherever it stands, separates the words before it from those behind it. */
  lemma {:induction false} WordsApart(a: seq<Byte>, blank: Byte, b: seq<Byte>)
    requires blank == 32 || blank == 10
    ensures Words(a + [blank] + b) == Words(a) + Words(b)
    decreases |a|
  {
    var s := a + [blank] + b;
    if a == [] {
      assert s[1..] == b;
    } else if Sep(a[0]) {
      assert s[1..] == a[1..] + [blank] + b;
      WordsApart(a[1..], blank, b);
    } else {
      var n := WordLen(a);
      assert s[..|a|] == a && s[|a|] == blank;
      assert WordLen(s) == n;
      assert s[..n] == a[..n] && s[n..] == a[n..] + [blank] + b;
      WordsApart(a[n..], blank, b);
      assert Words(s) == [a[..n]] + (Words(a[n..]) + Words(b));
    }
  }

  /** Bytes without a blank and without a newline are one word. */
  lemma OneWord(w: seq<Byte>)
    requires w != [] && NoBlank(w)
    ensures Words(w) == [w]
  {
    WordsHead(w);
    assert w[..|w|] == w && w[|w|..] == [];
    WordsOfNone(w[|w|..]);
  }

  /** The bytes of a line that are neither blank nor newline. */
  function Letters(s: seq<Byte>): seq<Byte> {
    if s == [] then [] else (if s[0] == 32 || s[0] == 10 then [] else [s[0]]) + Letters(s[1..])
  }

  function Joined(ws: seq<seq<Byte>>): seq<Byte> {
    if ws == [] then [] else ws[0] + Joined(ws[1..])
  }

  lemma {:induction false} LettersOfWord(w: seq<Byte>, rest: seq<Byte>)
    requires NoBlank(w)
    ensures Letters(w + rest) == w + Letters(rest)
  {
    if w == [] {
      assert w + rest == rest;
    } else {
      LettersOfWord(w[1..], rest);
      assert (w + rest)[1..] == w[1..] + rest;
    }
  }

  /** No word is empty or holds a blank or a newline, and the words in order are all the other bytes of the line. */
  lemma {:induction false} WordsExact(s: seq<Byte>)
    ensures forall k :: 0 <= k < |Words(s)| ==> Words(s)[k] != [] && NoBlank(Words(s)[k])
    ensures Joined(Words(s)) == Letters(s)
    decreases |s|
  {
    if s == [] {
    } else if Sep(s[0]) {
      WordsExact(s[1..]);
    } else {
      var n := WordLen(s);
      WordsHead(s);
      WordsExact(s[n..]);
      assert s == s[..n] + s[n..];
      LettersOfWord(s[..n], s[n..]);
      assert Words(s)[1..] == Words(s[n..]);
    }
  }

  /** The commands' names, as they are typed. */
  lemma NamesSpelled()
    ensures SUBSCRIBE == Ascii("subscribe") && UNSUBSCRIBE == Ascii("unsubscribe") && EXIT == Ascii("exit")
  {
  }

  // ---------- Lines from the standard input ----------

  /** How much of the bytes typed fgets takes for a buffer: through the first newline, or until it is full. */
  function LineLen(typed: seq<Byte>, size: nat): (n: nat)
    requires size > 0
    ensures n <= |typed| && n < size
  {
    if typed == [] || size == 1 then 0
    else if typed[0] == 10 then 1
    else 1 + LineLen(typed[1..], size - 1)
  }

  function Line(typed: seq<Byte>, size: nat): seq<Byte>
    requires size > 0
  {
    typed[..LineLen(typed, size)]
  }

  /** fgets stops right after the first newline, or when the bytes typed or the buffer end. */
  lemma {:induction false} LineExact(typed: seq<Byte>, size: nat)
    requires size > 0
    ensures var line := Line(typed, size);
      && line <= typed && |line| < size
      && (forall i :: 0 <= i < |line| - 1 ==> line[i] != 10)
      && ((line != [] && line[|line| - 1] == 10) || line == typed || |line| == size - 1)
    decreases |typed|
  {
    if typed != [] && size > 1 && typed[0] != 10 {
      LineExact(typed[1..], size - 1);
      var line, rest := Line(typed, size), Line(typed[1..], size - 1);
      assert line == [typed[0]] + rest;
      assert typed == [typed[0]] + typed[1..];
    }
  }

  /** A line that fits is read as it was typed, whatever has been typed after it. */
  lemma {:induction false} LineRead(line: seq<Byte>, more: seq<Byte>, size: nat)
    requires 0 < |line| < size && line[|line| - 1] == 10 && forall i :: 0 <= i < |line| - 1 ==> line[i] != 10
    ensures Line(line + more, size) == line
  {
    var typed := line + more;
    if |line| > 1 {
      LineRead(line[1..], more, size - 1);
      assert typed[1..] == line[1..] + more;
      assert Line(typed, size) == [typed[0]] + Line(typed[1..], size - 1);
    }
  }

  /** A short name begins the line as a C string exactly if it begins what was typed. */
  lemma {:induction false} LineBegins(typed: seq<Byte>, size: nat, name: seq<Byte>)
    requires |name| < size && NUL !in name && (10 as Byte) !in name
    ensures name <= CStr(Line(typed, size)) <==> name <= typed
    decreases |name|
  {
    if name != [] && typed != [] && typed[0] == name[0] {
      assert typed[0] in name;
      LineBegins(typed[1..], size - 1, name[1..]);
      var line := Line(typed, size);
      assert line[1..] == Line(typed[1..], size - 1);
      assert CStr(line) == [line[0]] + CStr(line[1..]);
      assert name == [name[0]] + name[1..] && typed == [typed[0]] + typed[1..];
      assert name <= CStr(line) <==> name[1..] <= CStr(line[1..]);
    }
  }

  /** fgets: stores the line and its closing NUL, and leaves the rest of the buffer. */
  method Fgets(buf: array<Byte>, typed: seq<Byte>)
    requires buf.Length > 0
    modifies buf
    ensures StringAt(buf[..], 0) && TextAt(buf[..], 0) == CStr(Line(typed, buf.Length))
    ensures forall i :: |Line(typed, buf.Length)| < i < buf.Length ==> buf[i] == old(buf[i])
  {
    var n := LineLen(typed, buf.Length);
    ghost var line := Line(typed, buf.Length);
    var k := 0;
    while k < n
      invariant 0 <= k <= n && forall i :: 0 <= i < k ==> buf[i] == line[i]
      invariant forall i :: k <= i < buf.Length ==> buf[i] == old(buf[i])
    {
      buf[k] := typed[k];
      k := k + 1;
    }
    buf[n] := NUL;
    ghost var m := StrLen(line);
    assert forall i :: 0 <= i < m ==> buf[..][i] == line[..m][i];
    TextIs(buf[..], 0, CStr(line));
  }

  /** strncmp against a name, over the name's length. */
  method HasPrefix(buf: array<Byte>, name: seq<Byte>) returns (same: bool)
    requires StringAt(buf[..], 0) && NUL !in name && |name| < buf.Length
    ensures same <==> name <= TextAt(buf[..], 0)
  {
    ghost var t := TextAt(buf[..], 0);
    TextBytes(buf[..], 0);
    var k := 0;
    while k < |name| && buf[k] == name[k]
      invariant 0 <= k <= |name| && k <= |t|
      invariant forall i :: 0 <= i < k ==> t[i] == name[i]
    {
      assert name[k] in name;
      assert buf[..][k] != NUL;
      k := k + 1;
    }
    assert k < |name| && k < |t| ==> t[k] == buf[..][k] != name[k];
    return k == |name|;
  }

  // ---------- atoi ----------

  predicate IsSpace(b: Byte) {
    b == 32 || 9 <= b <= 13
  }

  function SkipSpace(s: seq<Byte>): seq<Byte> {
    if s != [] && IsSpace(s[0]) then SkipSpace(s[1..]) else s
  }

  function DigitsLen(s: seq<Byte>): (n: nat)
    ensures n <= |s|
    ensures forall i :: 0 <= i < n ==> 48 <= s[i] <= 57
    ensures n < |s| ==> !(48 <= s[n] <= 57)
  {
    if s == [] || !(48 <= s[0] <= 57) then 0 else 1 + DigitsLen(s[1..])
  }

  const LONG_MAX := 0x7FFF_FFFF_FFFF_FFFF

  function ClampLong(v: int): int {
    if v > LONG_MAX then LONG_MAX else if v < -LONG_MAX - 1 then -LONG_MAX - 1 else v
  }

  /** The C library's atoi: strtol in base ten, narrowed to int. */
  function Atoi(s: seq<Byte>): int {
    var t := SkipSpace(s);
    var negative := t != [] && t[0] == 45;
    var d := if t != [] && (t[0] == 45 || t[0] == 43) then t[1..] else t;
    var v := DigitsValue(d[..DigitsLen(d)]);
    ToInt32(ClampLong(if negative then -v else v))
  }

  predicate AllDigits(d: seq<Byte>) {
    forall i :: 0 <= i < |d| ==> 48 <= d[i] <= 57
  }

  lemma {:induction false} SkipsSpace(pad: seq<Byte>, t: seq<Byte>)
    requires forall i :: 0 <= i < |pad| ==> pad[i] == 32 || 9 <= pad[i] <= 13
    requires t != [] && t[0] != 32 && !(9 <= t[0] <= 13)
    ensures SkipSpace(pad + t) == t
  {
    if pad == [] {
      assert pad + t == t;
    } else {
      SkipsSpace(pad[1..], t);
      assert (pad + t)[1..] == pad[1..] + t;
    }
  }

  lemma DigitsThen(d: seq<Byte>, rest: seq<Byte>)
    requires AllDigits(d) && (rest != [] ==> !(48 <= rest[0] <= 57))
    ensures (d + rest)[..DigitsLen(d + rest)] == d
  {
    var s := d + rest;
    assert s[..|d|] == d;
    assert DigitsLen(s) == |d|;
  }

  /** atoi skips white space, takes a sign, and reads the digits up to the first other byte; what does not fit a long
      is cut to the nearest one, and what does not fit an int keeps its lower 32 bits. */
  lemma AtoiReads(pad: seq<Byte>, sign: seq<Byte>, d: seq<Byte>, rest: seq<Byte>)
    requires forall i :: 0 <= i < |pad| ==> pad[i] == 32 || 9 <= pad[i] <= 13
    requires sign == [] || sign == [43] || sign == [45]
    requires d != [] && AllDigits(d) && (rest != [] ==> !(48 <= rest[0] <= 57))
    ensures var n := DigitsValue(d); var v := if sign == [45] then -n else n; var s := pad + (sign + (d + rest));
      && (-TWO_31 <= v < TWO_31 ==> Atoi(s) == v)
      && (-0x8000_0000_0000_0000 <= v < 0x8000_0000_0000_0000 ==> -TWO_31 <= Atoi(s) < TWO_31 && Cong(Atoi(s), v))
      && (v >= 0x8000_0000_0000_0000 ==> Atoi(s) == -1)
      && (v < -0x8000_0000_0000_0000 ==> Atoi(s) == 0)
  {
    hide Atoi, DigitsValue;
    AtoiParts(pad, sign, d, rest);
    Narrowed(if sign == [45] then -DigitsValue(d) else DigitsValue(d));
  }

  lemma AtoiParts(pad: seq<Byte>, sign: seq<Byte>, d: seq<Byte>, rest: seq<Byte>)
    requires forall i :: 0 <= i < |pad| ==> pad[i] == 32 || 9 <= pad[i] <= 13
    requires sign == [] || sign == [43] || sign == [45]
    requires d != [] && AllDigits(d) && (rest != [] ==> !(48 <= rest[0] <= 57))
    ensures Atoi(pad + (sign + (d + rest))) ==
      ToInt32(ClampLong(if sign == [45] then -DigitsValue(d) else DigitsValue(d)))
  {
    hide DigitsValue, DigitsLen, SkipSpace, ToInt32, ClampLong;
    var t := sign + (d + rest);
    SkipsSpace(pad, t);
    DigitsThen(d, rest);
    assert sign != [] ==> t[1..] == d + rest;
    assert sign == [] ==> t == d + rest;
  }

  lemma Narrowed(v: int)
    ensures var r := ToInt32(ClampLong(v));
      && (-TWO_31 <= v < TWO_31 ==> r == v)
      && (-0x8000_0000_0000_0000 <= v < 0x8000_0000_0000_0000 ==> -TWO_31 <= r < TWO_31 && Cong(r, v))
      && (v >= 0x8000_0000_0000_0000 ==> r == -1)
      && (v < -0x8000_0000_0000_0000 ==> r == 0)
  {
  }

  lemma NoValue()
    ensures DigitsValue([]) == 0
  {
  }

  /** Without a digit where one is needed, atoi returns zero. */
  lemma AtoiNothing(sign: seq<Byte>, rest: seq<Byte>)
    requires sign == [] || sign == [43] || sign == [45]
    requires rest != [] && !(48 <= rest[0] <= 57) && rest[0] != 32 && !(9 <= rest[0] <= 13)
    requires sign == [] ==> rest[0] != 43 && rest[0] != 45
    ensures Atoi(sign + rest) == 0
  {
    hide SkipSpace, DigitsLen, DigitsValue;
    NoValue();
    var t := sign + rest;
    SkipsSpace([], t);
    assert [] + t == t;
    assert sign != [] ==> t[1..] == rest;
    assert sign == [] ==> t == rest;
    assert DigitsLen(rest) == 0 && rest[..0] == [];
  }

  /** atoi reads back every int as printed. */
  lemma AtoiDecimal(i: int)
    requires -TWO_31 <= i < TWO_31
    ensures Atoi(if i < 0 then [45] + Decimal(-i) else Decimal(i)) == i
  {
    hide Atoi, Decimal;
    var n := if i < 0 then -i else i;
    var d, sign: seq<Byte> := Decimal(n), if i < 0 then [45] else [];
    DecimalValue(n);
    assert forall k :: 0 <= k < |d| ==> d[k] in d;
    AtoiReads([], sign, d, []);
    assert [] + (sign + (d + [])) == if i < 0 then [45] + d else d;
  }

  /** The subscriber's option byte. */
  function SfOf(w: seq<seq<Byte>>): bool {
    |w| > 2 && Atoi(w[2]) > 0
  }

  // ---------- The request in a message ----------

  /** The two strings at the head of the data: the command and the topic behind its NUL. */
  function TopicField(data: seq<Byte>): seq<Byte> {
    var at := |CStr(data)| + 1;
    if at <= |data| then CStr(data[at..]) else []
  }

  /** The last of the `len` data bytes; a length of zero reads the length's own high byte, which is zero. */
  function OptionByte(frame: seq<Byte>): Byte
    requires |frame| == TCP_MSG_SIZE
  {
    var len := LenOf(frame);
    if 0 < len <= MAX_TCP_MSG_BUF_LEN then DataOf(frame)[len - 1] else 0
  }

  /** What the server makes of a client's message. */
  function Decode(frame: seq<Byte>): Command
    requires |frame| == TCP_MSG_SIZE
  {
    var cmd, topic := CStr(DataOf(frame)), TopicField(DataOf(frame));
    if cmd == SUBSCRIBE then Command.Subscribe(topic, OptionByte(frame) != 0)
    else if cmd == UNSUBSCRIBE then Command.Unsubscribe(topic)
    else UnknownCommand
  }

  /** A message that starts with two strings, whatever lies behind them. */
  predicate Carries(frame: seq<Byte>, cmd: seq<Byte>, topic: seq<Byte>)
    requires |frame| == TCP_MSG_SIZE
  {
    && |cmd| + |topic| + 2 <= MAX_TCP_MSG_BUF_LEN
    && frame[DATA..DATA + |cmd| + 1] == cmd + [NUL]
    && frame[DATA + |cmd| + 1..DATA + |cmd| + |topic| + 2] == topic + [NUL]
  }

  lemma CarriedStrings(frame: seq<Byte>, cmd: seq<Byte>, topic: seq<Byte>)
    requires |frame| == TCP_MSG_SIZE && Carries(frame, cmd, topic) && NUL !in cmd && NUL !in topic
    ensures CStr(DataOf(frame)) == cmd && TopicField(DataOf(frame)) == topic
  {
    hide CStr;
    var d := DataOf(frame);
    assert d[..|cmd| + 1] == cmd + [NUL];
    CStrOfStored(d, cmd);
    var e := d[|cmd| + 1..];
    assert e[..|topic| + 1] == topic + [NUL];
    CStrOfStored(e, topic);
  }
}
