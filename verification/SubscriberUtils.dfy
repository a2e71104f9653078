/** The subscriber: cutting a command line into words in place, sending requests, printing what arrives. */
module SubscriberUtils {
  import opened Bytes
  import opened Utils
  import opened UdpType
  import opened TcpType
  import opened TopicMsg
  import opened Commands
  import opened Broker

  method SkipSeparators(buf: array<Byte>, from: nat) returns (b: nat)
    requires StringAt(buf[..], from)
    ensures b == from + SepLen(TextAt(buf[..], from))
  {
    ghost var t := TextAt(buf[..], from);
    TextBytes(buf[..], from);
    b := from;
    while buf[b] != NUL && Sep(buf[b])
      invariant from <= b <= from + |t|
      invariant forall i :: 0 <= i < b - from ==> Sep(t[i])
      decreases buf.Length - b
    {
      assert buf[..][b] == t[b - from];
      b := b + 1;
    }
    assert b < from + |t| ==> buf[..][b] == t[b - from];
  }

  method WordEnd(buf: array<Byte>, from: nat) returns (e: nat)
    requires StringAt(buf[..], from)
    ensures e == from + WordLen(TextAt(buf[..], from))
  {
    ghost var t := TextAt(buf[..], from);
    TextBytes(buf[..], from);
    e := from;
    while buf[e] != NUL && !Sep(buf[e])
      invariant from <= e <= from + |t|
      invariant forall i :: 0 <= i < e - from ==> !Sep(t[i])
      decreases buf.Length - e
    {
      assert buf[..][e] == t[e - from];
      e := e + 1;
    }
    assert e < from + |t| ==> buf[..][e] == t[e - from];
  }

  lemma TextFrom(s: seq<Byte>, from: nat, k: nat)
    requires StringAt(s, from) && k <= |TextAt(s, from)|
    ensures StringAt(s, from + k) && TextAt(s, from + k) == TextAt(s, from)[k..]
  {
    TextBytes(s, from);
    TextIs(s, from + k, TextAt(s, from)[k..]);
  }

  /** Where a word found at `b` ends, and the buffer with the word closed. */
  function EndOf(s: seq<Byte>, b: nat): nat
    requires b <= |s|
  {
    b + WordLen(TextAt(s, b))
  }

  function Closed(s: seq<Byte>, e: nat): seq<Byte>
    requires e < |s|
  {
    s[e := NUL]
  }

  function NextOf(s: seq<Byte>, e: nat): nat
    requires e < |s|
  {
    if s[e] == NUL then e else e + 1
  }

  /** Closing the word at `b` leaves it readable, and the rest of the line behind it. */
  lemma WordClosed(s: seq<Byte>, b: nat)
    requires StringAt(s, b)
    ensures var e := EndOf(s, b); var t := TextAt(s, b);
      && e < |s|
      && StringAt(Closed(s, e), b) && TextAt(Closed(s, e), b) == LeadingWord(t)
      && StringAt(Closed(s, e), NextOf(s, e)) && b + |LeadingWord(t)| <= NextOf(s, e)
      && TextAt(Closed(s, e), NextOf(s, e)) == Behind(t)
  {
    hide TextAt, WordLen, StrLen;
    var t, e := TextAt(s, b), EndOf(s, b);
    TextBytes(s, b);
    TextIs(Closed(s, e), b, t[..WordLen(t)]);
    TextFrom(s, b, WordLen(t));
    if s[e] == NUL {
      assert Closed(s, e) == s;
    } else {
      TextFrom(s, b, WordLen(t) + 1);
      TextBytes(s, e + 1);
      TextIs(Closed(s, e), e + 1, TextAt(s, e + 1));
    }
  }

  /** The first word of the line at `from` and the words behind it, in the buffer with the word closed. */
  lemma WordsClosed(s: seq<Byte>, from: nat)
    requires StringAt(s, from)
    ensures var t := TextAt(s, from); var b := from + SepLen(t);
      && b < |s| && StringAt(s, b)
      && (s[b] == NUL <==> Words(t) == [])
      && (s[b] != NUL ==>
            var e := EndOf(s, b);
            && e < |s|
            && StringAt(Closed(s, e), b) && b + |TextAt(Closed(s, e), b)| <= NextOf(s, e)
            && StringAt(Closed(s, e), NextOf(s, e))
            && Words(t) == [TextAt(Closed(s, e), b)] + Words(TextAt(Closed(s, e), NextOf(s, e))))
  {
    hide Words, TextAt, StrLen, WordLen, SepLen, LeadingWord, Behind, EndOf, NextOf, Closed;
    var t := TextAt(s, from);
    WordsSplit(t);
    TextFrom(s, from, SepLen(t));
    TextBytes(s, from);
    var b := from + SepLen(t);
    if SepLen(t) < |t| {
      WordClosed(s, b);
    }
  }

  /** strtok_r: the next word, closed with a NUL in place, and where the following call goes on. */
  method StrTok(buf: array<Byte>, from: nat) returns (tok: Option<nat>, next: nat)
    requires StringAt(buf[..], from)
    modifies buf
    ensures from <= next && StringAt(buf[..], next)
    ensures forall i :: 0 <= i < buf.Length ==> buf[i] == old(buf[i]) || (i >= from && buf[i] == NUL)
    ensures tok.None? <==> Words(old(TextAt(buf[..], from))) == []
    ensures tok.Some? ==>
      && from <= tok.value && StringAt(buf[..], tok.value)
      && tok.value + |TextAt(buf[..], tok.value)| <= next
      && Words(old(TextAt(buf[..], from))) == [TextAt(buf[..], tok.value)] + Words(TextAt(buf[..], next))
  {
    hide Words, TextAt, StringAt, WordLen, SepLen;
    ghost var s := buf[..];
    WordsClosed(s, from);
    var b := SkipSeparators(buf, from);
    if buf[b] == NUL {
      return None, b;
    }
    var e := WordEnd(buf, b);
    next := if buf[e] == NUL then e else e + 1;
    buf[e] := NUL;
    assert buf[..] == Closed(s, e);
    return Some(b), next;
  }

  /** Later cuts do not touch a word cut earlier. */
  lemma WordStays(before: seq<Byte>, after: seq<Byte>, at: nat, from: nat)
    requires StringAt(before, at) && |after| == |before| && at + |TextAt(before, at)| <= from
    requires forall i :: 0 <= i < |before| ==> after[i] == before[i] || (i >= from && after[i] == NUL)
    ensures StringAt(after, at) && TextAt(after, at) == TextAt(before, at)
  {
    TextBytes(before, at);
    TextIs(after, at, TextAt(before, at));
  }

  /** The first two words of a line, cut in place, and where the rest begins. */
  method CutTwo(buf: array<Byte>) returns (tok1: Option<nat>, tok2: Option<nat>, next: nat)
    requires StringAt(buf[..], 0)
    modifies buf
    ensures StringAt(buf[..], next)
    ensures var w := Words(old(TextAt(buf[..], 0)));
      && (tok1.Some? <==> |w| >= 1) && (tok2.Some? <==> |w| >= 2)
      && (tok1.Some? ==> Holds(buf[..], tok1.value, next, w[0]))
      && (tok2.Some? ==> Holds(buf[..], tok2.value, next, w[1]) && Words(TextAt(buf[..], next)) == w[2..])
  {
    hide Words, TextAt;
    tok1, next := StrTok(buf, 0);
    tok2 := None;
    if tok1.None? {
      return;
    }
    ghost var before, from := buf[..], next;
    tok2, next := StrTok(buf, next);
    WordStays(before, buf[..], tok1.value, from);
  }

  /** The buffer holds a given word at a position, ended before `next`. */
  predicate Holds(s: seq<Byte>, at: nat, next: nat, word: seq<Byte>) {
    StringAt(s, at) && TextAt(s, at) == word && at + |word| <= next
  }

  /** Two strings, one behind the other, at the head of a message's data; nothing else is touched. */
  method StoreTwo(msg: array<Byte>, cmd: seq<Byte>, topic: seq<Byte>) returns (offset: nat)
    requires msg.Length == TCP_MSG_SIZE && |cmd| + |topic| + 3 <= MAX_TCP_MSG_BUF_LEN
    modifies msg
    ensures offset == |cmd| + |topic| + 2 && Carries(msg[..], cmd, topic)
  {
    var n := Snprintf(msg, DATA, |cmd| + 1, cmd);
    ghost var first := msg[..];
    var m := Snprintf(msg, DATA + n + 1, |topic| + 1, topic);
    assert msg[..DATA + n + 1] == first[..DATA + n + 1];
    assert msg[..][DATA..DATA + n + 1] == msg[..DATA + n + 1][DATA..] == first[DATA..DATA + n + 1];
    offset := n + m + 2;
  }

  /** Bytes behind the two strings, and the length, may change freely. */
  lemma StillCarries(before: seq<Byte>, after: seq<Byte>, cmd: seq<Byte>, topic: seq<Byte>)
    requires |before| == |after| == TCP_MSG_SIZE && Carries(before, cmd, topic)
    requires forall i :: DATA <= i < DATA + |cmd| + |topic| + 2 ==> after[i] == before[i]
    ensures Carries(after, cmd, topic)
  {
    assert after[DATA..DATA + |cmd| + 1] == before[DATA..DATA + |cmd| + 1];
    assert after[DATA + |cmd| + 1..DATA + |cmd| + |topic| + 2] ==
      before[DATA + |cmd| + 1..DATA + |cmd| + |topic| + 2];
  }

  /** A line that begins with a command name has a first word that begins with it. */
  lemma PrefixIsInFirstWord(line: seq<Byte>, name: seq<Byte>)
    requires name != [] && name <= line && forall i :: 0 <= i < |name| ==> !Sep(name[i])
    ensures Words(line) != [] && name <= Words(line)[0]
  {
    assert forall i :: 0 <= i < |name| ==> line[i] == name[i];
    assert SepLen(line) == 0 && line[0..] == line;
    WordsSplit(line);
    assert WordLen(line) >= |name|;
    assert line[..WordLen(line)][..|name|] == name;
  }

  /** The id at the head of a message's data, whatever the buffer held. */
  method EncodeId(msg: array<Byte>, name: seq<Byte>)
    requires msg.Length == TCP_MSG_SIZE && NUL !in name && |name| < MAX_TCP_MSG_BUF_LEN
    modifies msg
    ensures Screen(msg[..]) == name && LenOf(msg[..]) == |name| + 1
  {
    var n := Snprintf(msg, DATA, |name| + 1, name);
    ghost var before := msg[..];
    SetLen(msg, n + 1);
    assert DataOf(msg[..]) == before[DATA..];
    assert before[DATA..][..n + 1] == name + [NUL];
    CStrOfStored(before[DATA..], name);
  }

  datatype CmdLine = SubscribeLine | UnsubscribeLine | ExitLine | NoLine

  lemma NamesApart(t: seq<Byte>)
    ensures SUBSCRIBE <= t ==> !(UNSUBSCRIBE <= t) && !(EXIT <= t)
    ensures UNSUBSCRIBE <= t ==> !(EXIT <= t)
  {
    assert SUBSCRIBE <= t ==> t[0] == SUBSCRIBE[0];
    assert UNSUBSCRIBE <= t ==> t[0] == UNSUBSCRIBE[0];
    assert EXIT <= t ==> t[0] == EXIT[0];
  }

  /** The message carries the subscription a line's words ask for; only the exact command name is understood. */
  predicate IsSubscription(frame: seq<Byte>, w: seq<seq<Byte>>)
    requires |frame| == TCP_MSG_SIZE && |w| >= 2
  {
    && LenOf(frame) == |w[0]| + |w[1]| + 3 <= MAX_TCP_MSG_BUF_LEN
    && Decode(frame) == if w[0] == SUBSCRIBE then Command.Subscribe(w[1], SfOf(w)) else UnknownCommand
  }

  predicate IsUnsubscription(frame: seq<Byte>, w: seq<seq<Byte>>)
    requires |frame| == TCP_MSG_SIZE && |w| >= 2
  {
    && LenOf(frame) == |w[0]| + |w[1]| + 2 <= MAX_TCP_MSG_BUF_LEN
    && Decode(frame) == if w[0] == UNSUBSCRIBE then Command.Unsubscribe(w[1]) else UnknownCommand
  }

  /** What a line typed at a subscriber asks the server for. */
  function Meant(line: seq<Byte>): Command {
    var w := Words(line);
    if |w| < 2 then UnknownCommand
    else if w[0] == SUBSCRIBE then Command.Subscribe(w[1], SfOf(w))
    else if w[0] == UNSUBSCRIBE then Command.Unsubscribe(w[1])
    else UnknownCommand
  }

  /** The message for a line that begins with a command's name and has a topic. */
  predicate Encodes(frame: seq<Byte>, line: seq<Byte>) {
    && |frame| == TCP_MSG_SIZE && |Words(line)| >= 2
    && (SUBSCRIBE <= line || UNSUBSCRIBE <= line)
    && (SUBSCRIBE <= line ==> IsSubscription(frame, Words(line)))
    && (UNSUBSCRIBE <= line ==> IsUnsubscription(frame, Words(line)))
  }

  /** The server reads in it what the line meant. */
  lemma EncodesMeant(frame: seq<Byte>, line: seq<Byte>)
    requires Encodes(frame, line)
    ensures Decode(frame) == Meant(line)
  {
    hide Words, Decode, SfOf;
    if SUBSCRIBE <= line {
      PrefixIsInFirstWord(line, SUBSCRIBE);
      assert Words(line)[0][0] == SUBSCRIBE[0] != UNSUBSCRIBE[0];
    } else {
      PrefixIsInFirstWord(line, UNSUBSCRIBE);
      assert Words(line)[0][0] == UNSUBSCRIBE[0] != SUBSCRIBE[0];
    }
  }

  /** Everything a subscriber has sent whole: its id, and then one message for each line it took as a command. */
  predicate Spoken(sent: seq<seq<Byte>>, id: Option<seq<Byte>>, lines: seq<seq<Byte>>) {
    match id
    case None => sent == [] && lines == []
    case Some(name) =>
      && |sent| == |lines| + 1 && |sent[0]| == TCP_MSG_SIZE && Screen(sent[0]) == name
      && forall k :: 0 <= k < |lines| ==> Encodes(sent[k + 1], lines[k])
  }

  lemma SpokenMore(sent: seq<seq<Byte>>, id: Option<seq<Byte>>, lines: seq<seq<Byte>>, frame: seq<Byte>,
                   line: seq<Byte>)
    requires Spoken(sent, id, lines) && id.Some? && Encodes(frame, line)
    ensures Spoken(sent + [frame], id, lines + [line])
  {
    hide Encodes, Screen;
    forall k | 0 <= k < |lines + [line]|
      ensures Encodes((sent + [frame])[k + 1], (lines + [line])[k])
    {
      assert k < |lines| ==> Encodes(sent[k + 1], lines[k]);
    }
  }

  // ---------- What typed lines mean, byte by byte ----------

  /** A topic as a line can carry it. */
  predicate Typeable(w: seq<Byte>) {
    w != [] && NoBlank(w) && NUL !in w
  }

  lemma SignedTypeable(i: int)
    ensures Typeable(Signed(i))
  {
    var d := Decimal(if i < 0 then -i else i);
    assert forall k :: 0 <= k < |d| ==> d[k] in d;
  }

  lemma TwoWords(a: seq<Byte>, b: seq<Byte>)
    requires Typeable(a) && Typeable(b)
    ensures Words(a + [32] + b) == [a, b]
  {
    hide Words;
    WordsApart(a, 32, b);
    OneWord(a);
    OneWord(b);
  }

  lemma ThreeWords(a: seq<Byte>, b: seq<Byte>, c: seq<Byte>)
    requires Typeable(a) && Typeable(b) && Typeable(c)
    ensures Words(a + [32] + b + [32] + c) == [a, b, c]
  {
    hide Words;
    WordsApart(a + [32] + b, 32, c);
    TwoWords(a, b);
    OneWord(c);
  }

  lemma EntersWords(s: seq<Byte>)
    ensures Words(s + [10]) == Words(s)
  {
    WordsApart(s, 10, []);
    assert s + [10] + [] == s + [10];
    WordsOfNone([]);
  }

  /** A line typed and entered is what the command reads, whatever has been typed after it. */
  lemma LineEntered(s: seq<Byte>, more: seq<Byte>)
    requires |s| < MAX_CLIENT_CMD_LEN - 1 && NUL !in s && forall i :: 0 <= i < |s| ==> s[i] != 10
    ensures LineOf(s + [10] + more) == s + [10]
  {
    var line := s + [10];
    LineRead(line, more, MAX_CLIENT_CMD_LEN);
    CStrOfFull(line);
  }

  lemma LettersTypeable(a: seq<Byte>, b: seq<Byte>)
    requires NoNewline(a) && NoNewline(b)
    ensures NoNewline(a + [32] + b)
  {
  }

  predicate NoNewline(s: seq<Byte>) {
    NUL !in s && forall i :: 0 <= i < |s| ==> s[i] != 10
  }

  /** "subscribe TOPIC N", entered: a subscription to the topic, with store-and-forward exactly if N is positive. */
  lemma SubscribeMeans(topic: seq<Byte>, i: int, more: seq<Byte>)
    requires Typeable(topic) && -TWO_31 <= i < TWO_31
    ensures var s := Ascii("subscribe") + [32] + topic + [32] + Signed(i);
      |s| < MAX_CLIENT_CMD_LEN - 1 ==> Meant(LineOf(s + [10] + more)) == Command.Subscribe(topic, i > 0)
  {
    hide Words, Atoi, Signed, LineOf;
    NamesSpelled();
    SignedTypeable(i);
    var s := SUBSCRIBE + [32] + topic + [32] + Signed(i);
    ThreeWords(SUBSCRIBE, topic, Signed(i));
    EntersWords(s);
    SignedReads(i);
    LettersTypeable(SUBSCRIBE, topic);
    LettersTypeable(SUBSCRIBE + [32] + topic, Signed(i));
    if |s| < MAX_CLIENT_CMD_LEN - 1 {
      LineEntered(s, more);
    }
  }

  /** What %d prints, atoi reads back. */
  lemma SignedReads(i: int)
    requires -TWO_31 <= i < TWO_31
    ensures Atoi(Signed(i)) == i
  {
    hide Atoi;
    AtoiDecimal(i);
  }

  /** "subscribe TOPIC", entered, asks for no store-and-forward; "unsubscribe TOPIC" ends the subscription; and a longer
      first word asks for nothing. */
  lemma ShortLinesMean(topic: seq<Byte>, longer: seq<Byte>, more: seq<Byte>)
    requires Typeable(topic) && Typeable(longer)
    ensures var s := Ascii("subscribe") + [32] + topic;
      |s| < MAX_CLIENT_CMD_LEN - 1 ==> Meant(LineOf(s + [10] + more)) == Command.Subscribe(topic, false)
    ensures var s := Ascii("unsubscribe") + [32] + topic;
      |s| < MAX_CLIENT_CMD_LEN - 1 ==> Meant(LineOf(s + [10] + more)) == Command.Unsubscribe(topic)
    ensures var s := Ascii("subscribe") + longer + [32] + topic;
      |s| < MAX_CLIENT_CMD_LEN - 1 ==> Meant(LineOf(s + [10] + more)) == UnknownCommand
    ensures var s := Ascii("unsubscribe") + longer + [32] + topic;
      |s| < MAX_CLIENT_CMD_LEN - 1 ==> Meant(LineOf(s + [10] + more)) == UnknownCommand
  {
    hide Words, Atoi, LineOf;
    NamesSpelled();
    TwoWordLine(SUBSCRIBE, topic, more);
    TwoWordLine(UNSUBSCRIBE, topic, more);
    TwoWordLine(SUBSCRIBE + longer, topic, more);
    TwoWordLine(UNSUBSCRIBE + longer, topic, more);
    assert (SUBSCRIBE + longer)[0] == SUBSCRIBE[0] != UNSUBSCRIBE[0];
    assert (UNSUBSCRIBE + longer)[0] == UNSUBSCRIBE[0] != SUBSCRIBE[0];
  }

  lemma TwoWordLine(name: seq<Byte>, topic: seq<Byte>, more: seq<Byte>)
    requires Typeable(name) && Typeable(topic)
    ensures var s := name + [32] + topic;
      |s| < MAX_CLIENT_CMD_LEN - 1 ==> Words(LineOf(s + [10] + more)) == [name, topic]
  {
    hide Words, LineOf;
    var s := name + [32] + topic;
    TwoWords(name, topic);
    EntersWords(s);
    LettersTypeable(name, topic);
    if |s| < MAX_CLIENT_CMD_LEN - 1 {
      LineEntered(s, more);
    }
  }

  /** A line of one word, or of none, asks for nothing. */
  lemma NoTopicMeans(name: seq<Byte>, more: seq<Byte>)
    requires Typeable(name) && |name| < MAX_CLIENT_CMD_LEN - 1
    ensures Meant(LineOf(name + [10] + more)) == UnknownCommand && |Words(LineOf(name + [10] + more))| < 2
  {
    hide Words, LineOf;
    OneWord(name);
    EntersWords(name);
    LineEntered(name, more);
  }

  /** What the outside world does in one round of the main loop: whether poll succeeds, whether the connection is
      ready, and what has been typed. */
  datatype Moment = Moment(polled: bool, ready: bool, typed: Option<seq<Byte>>)

  /** The line read from what was typed. */
  function LineOf(typed: seq<Byte>): seq<Byte> {
    CStr(Line(typed, MAX_CLIENT_CMD_LEN))
  }

  predicate TakesCommand(m: Moment) {
    m.typed.Some? && (SUBSCRIBE <= m.typed.value || UNSUBSCRIBE <= m.typed.value)
  }

  /** The subscriber stops: poll fails, or the exit command is typed. */
  predicate Leaves(m: Moment) {
    !m.polled || (m.typed.Some? && EXIT <= m.typed.value)
  }

  /** A round that reads: the connection is ready, and no command is typed. */
  predicate Reads(m: Moment) {
    !TakesCommand(m) && !Leaves(m) && m.ready
  }

  /** The results a round may have: a command without a topic is refused, another is sent or not; a read prints or
      ends the program; nothing else happens. */
  predicate MayResult(m: Moment, err: Err) {
    if TakesCommand(m) then
      && (err == INPUT_WRONG_FORMAT <==> |Words(LineOf(m.typed.value))| < 2)
      && (err == OK || err == INPUT_WRONG_FORMAT || err == TCP_FAILED_SEND_RECV)
    else if Reads(m) then err == OK || err == OK_WITH_EXIT
    else err == OK
  }

  /** Rounds and their results, one after another; only the last may end the program. */
  predicate Lived(moments: seq<Moment>, errs: seq<Err>) {
    && |errs| <= |moments|
    && (forall k :: 0 <= k < |errs| ==> !Leaves(moments[k]) && MayResult(moments[k], errs[k]))
    && (forall k :: 0 <= k < |errs| - 1 ==> errs[k] != OK_WITH_EXIT)
  }

  /** The program goes on for as long as there are rounds and nothing ends it. */
  predicate Done(moments: seq<Moment>, errs: seq<Err>) {
    |errs| >= |moments| || Leaves(moments[|errs|]) || (errs != [] && errs[|errs| - 1] == OK_WITH_EXIT)
  }

  /** The lines of the first n rounds that were commands and were sent. */
  function Taken(moments: seq<Moment>, errs: seq<Err>, n: nat): seq<seq<Byte>>
    requires n <= |errs| <= |moments|
  {
    if n == 0 then []
    else if TakesCommand(moments[n - 1]) && errs[n - 1] == OK
    then Taken(moments, errs, n - 1) + [LineOf(moments[n - 1].typed.value)]
    else Taken(moments, errs, n - 1)
  }

  /** How many of the first n rounds printed a message. */
  function Printed(moments: seq<Moment>, errs: seq<Err>, n: nat): nat
    requires n <= |errs| <= |moments|
  {
    if n == 0 then 0
    else Printed(moments, errs, n - 1) + if Reads(moments[n - 1]) && errs[n - 1] == OK then 1 else 0
  }

  lemma {:induction false} ResultsAgree(moments: seq<Moment>, errs: seq<Err>, err: Err, n: nat)
    requires n <= |errs| < |moments|
    ensures Taken(moments, errs + [err], n) == Taken(moments, errs, n)
    ensures Printed(moments, errs + [err], n) == Printed(moments, errs, n)
  {
    hide TakesCommand, Reads, LineOf;
    if n > 0 {
      ResultsAgree(moments, errs, err, n - 1);
    }
  }

  /** One more round. */
  lemma LivedMore(moments: seq<Moment>, errs: seq<Err>, err: Err)
    requires Lived(moments, errs) && |errs| < |moments|
    requires !Leaves(moments[|errs|]) && MayResult(moments[|errs|], err)
    requires errs != [] ==> errs[|errs| - 1] != OK_WITH_EXIT
    ensures var more, m := errs + [err], moments[|errs|];
      && Lived(moments, more)
      && Taken(moments, more, |more|) == Taken(moments, errs, |errs|) +
           (if TakesCommand(m) && err == OK then [LineOf(m.typed.value)] else [])
      && Printed(moments, more, |more|) ==
           Printed(moments, errs, |errs|) + if Reads(m) && err == OK then 1 else 0
  {
    hide TakesCommand, Reads, LineOf, MayResult, Leaves, Done, Lived;
    ResultsAgree(moments, errs, err, |errs|);
    StillLived(moments, errs, err);
  }

  lemma StillLived(moments: seq<Moment>, errs: seq<Err>, err: Err)
    requires Lived(moments, errs) && |errs| < |moments|
    requires !Leaves(moments[|errs|]) && MayResult(moments[|errs|], err)
    requires errs != [] ==> errs[|errs| - 1] != OK_WITH_EXIT
    ensures Lived(moments, errs + [err])
  {
    hide MayResult, Leaves;
    var more := errs + [err];
    forall k | 0 <= k < |more|
      ensures !Leaves(moments[k]) && MayResult(moments[k], more[k])
    {
      assert k < |errs| ==> more[k] == errs[k];
    }
  }

  class Subscriber {
    const net: Network
    const tcpSocket: int
    const cmd: array<Byte>
    const sendMsg: array<Byte>
    const recvMsg: array<Byte>
    /** The lines printed for arriving messages. */
    var screen: seq<seq<Byte>>
    /** The id it introduced itself with, and the lines it sent as commands since. */
    ghost var id: Option<seq<Byte>>
    ghost var lines: seq<seq<Byte>>

    ghost predicate Valid()
      reads this, net
    {
      && Spoken(net.Out(tcpSocket).sent, id, lines)
      && tcpSocket >= 0 && net.Valid()
      && cmd.Length == MAX_CLIENT_CMD_LEN
      && sendMsg.Length == recvMsg.Length == TCP_MSG_SIZE
      && sendMsg != recvMsg && cmd != sendMsg && cmd != recvMsg
      && |screen| == |net.In(tcpSocket).got|
      && forall k :: 0 <= k < |screen| ==>
           |net.In(tcpSocket).got[k]| == TCP_MSG_SIZE && screen[k] == Screen(net.In(tcpSocket).got[k])
    }

    constructor (net: Network, tcpSocket: int)
      requires net.Valid() && tcpSocket >= 0 && net.In(tcpSocket).got == net.Out(tcpSocket).sent == []
      ensures Valid() && this.net == net && this.tcpSocket == tcpSocket && screen == [] && id == None
    {
      this.net, this.tcpSocket, screen, id, lines := net, tcpSocket, [], None, [];
      cmd := new Byte[MAX_CLIENT_CMD_LEN](_ => NUL);
      sendMsg := new Byte[TCP_MSG_SIZE](_ => NUL);
      recvMsg := new Byte[TCP_MSG_SIZE](_ => NUL);
    }

    /** The identification sent right after connecting. */
    method SendId(name: seq<Byte>) returns (err: Err)
      requires Valid() && id.None? && NUL !in name && |name| < MAX_TCP_MSG_BUF_LEN
      modifies sendMsg, net`out, net`frames, this`id
      ensures Valid()
      ensures Screen(sendMsg[..]) == name && LenOf(sendMsg[..]) == |name| + 1
      ensures err == OK || err == TCP_FAILED_SEND_RECV
      ensures id == (if err == OK then Some(name) else None) && lines == []
      ensures err == OK ==> net.Out(tcpSocket).sent == [sendMsg[..]]
    {
      hide Screen, LenOf, Network.Valid;
      EncodeId(sendMsg, name);
      err := SendTcpMsg(net, tcpSocket, sendMsg);
      id := if err == OK then Some(name) else None;
    }

    /** get_cmd_line: takes a line from the standard input, if there is one, and tells the commands apart by its
        first bytes alone. */
    method GetCmdLine(typed: Option<seq<Byte>>) returns (kind: CmdLine)
      requires Valid()
      modifies cmd
      ensures Valid()
      ensures typed.None? ==> kind == NoLine && cmd[..] == old(cmd[..])
      ensures typed.Some? ==> StringAt(cmd[..], 0) && TextAt(cmd[..], 0) == CStr(Line(typed.value, MAX_CLIENT_CMD_LEN))
      ensures typed.Some? ==>
        && (kind == SubscribeLine <==> SUBSCRIBE <= typed.value)
        && (kind == UnsubscribeLine <==> UNSUBSCRIBE <= typed.value)
        && (kind == ExitLine <==> EXIT <= typed.value)
      ensures kind == SubscribeLine ==> typed.Some? && SUBSCRIBE <= TextAt(cmd[..], 0)
      ensures kind == UnsubscribeLine ==> typed.Some? && UNSUBSCRIBE <= TextAt(cmd[..], 0)
    {
      hide TextAt, StringAt, Line;
      if typed.None? {
        return NoLine;
      }
      Fgets(cmd, typed.value);
      LineBegins(typed.value, MAX_CLIENT_CMD_LEN, SUBSCRIBE);
      LineBegins(typed.value, MAX_CLIENT_CMD_LEN, UNSUBSCRIBE);
      LineBegins(typed.value, MAX_CLIENT_CMD_LEN, EXIT);
      NamesApart(typed.value);
      var subscribe := HasPrefix(cmd, SUBSCRIBE);
      var unsubscribe := HasPrefix(cmd, UNSUBSCRIBE);
      var exit := HasPrefix(cmd, EXIT);
      kind := if subscribe then SubscribeLine else if unsubscribe then UnsubscribeLine
              else if exit then ExitLine else NoLine;
    }

    /** process_subscribe_cmd: the server will read the request of the line's words, and only if the first
        word is the command's exact name. */
    method ProcessSubscribeCmd() returns (err: Err)
      requires Valid() && id.Some? && StringAt(cmd[..], 0) && SUBSCRIBE <= TextAt(cmd[..], 0)
      modifies cmd, sendMsg, net`out, net`frames, this`lines
      ensures Valid()
      ensures lines == if err == OK then old(lines) + [old(TextAt(cmd[..], 0))] else old(lines)
      ensures err == OK || err == INPUT_WRONG_FORMAT || err == TCP_FAILED_SEND_RECV
      ensures err == TCP_FAILED_SEND_RECV || old(net.Out(tcpSocket).broken) ==> net.Out(tcpSocket).broken
      ensures var w := Words(old(TextAt(cmd[..], 0)));
        && (|w| < 2 <==> err == INPUT_WRONG_FORMAT)
        && (|w| < 2 ==> sendMsg[..] == old(sendMsg[..]) && net.out == old(net.out))
        && (|w| >= 2 ==> IsSubscription(sendMsg[..], w))
      ensures err == OK ==> net.Out(tcpSocket).sent == old(net.Out(tcpSocket).sent) + [sendMsg[..]]
    {
      hide Words, TextAt, IsSubscription, Spoken, Screen;
      ghost var line := TextAt(cmd[..], 0);
      NamesApart(line);
      PrefixIsInFirstWord(TextAt(cmd[..], 0), SUBSCRIBE);
      LineWords(cmd[..]);
      var tok1, tok2, tok3 := CutThree(cmd);
      if tok2.None? {
        return INPUT_WRONG_FORMAT;
      }
      var sfStr := if tok3.None? then [] else [TextAt(cmd[..], tok3.value)];
      EncodeSubscribe(sendMsg, TextAt(cmd[..], tok1.value), TextAt(cmd[..], tok2.value), sfStr,
                      Words(old(TextAt(cmd[..], 0))));
      err := SendLine(line);
    }

    /** process_unsubscribe_cmd */
    method ProcessUnsubscribeCmd() returns (err: Err)
      requires Valid() && id.Some? && StringAt(cmd[..], 0) && UNSUBSCRIBE <= TextAt(cmd[..], 0)
      modifies cmd, sendMsg, net`out, net`frames, this`lines
      ensures Valid()
      ensures lines == if err == OK then old(lines) + [old(TextAt(cmd[..], 0))] else old(lines)
      ensures err == OK || err == INPUT_WRONG_FORMAT || err == TCP_FAILED_SEND_RECV
      ensures err == TCP_FAILED_SEND_RECV || old(net.Out(tcpSocket).broken) ==> net.Out(tcpSocket).broken
      ensures var w := Words(old(TextAt(cmd[..], 0)));
        && (|w| < 2 <==> err == INPUT_WRONG_FORMAT)
        && (|w| < 2 ==> sendMsg[..] == old(sendMsg[..]) && net.out == old(net.out))
        && (|w| >= 2 ==> IsUnsubscription(sendMsg[..], w))
      ensures err == OK ==> net.Out(tcpSocket).sent == old(net.Out(tcpSocket).sent) + [sendMsg[..]]
    {
      hide Words, TextAt, IsUnsubscription, Spoken, Screen;
      ghost var line := TextAt(cmd[..], 0);
      NamesApart(line);
      PrefixIsInFirstWord(TextAt(cmd[..], 0), UNSUBSCRIBE);
      LineWords(cmd[..]);
      var tok1, tok2, next := CutTwo(cmd);
      if tok2.None? {
        return INPUT_WRONG_FORMAT;
      }
      EncodeUnsubscribe(sendMsg, TextAt(cmd[..], tok1.value), TextAt(cmd[..], tok2.value),
                        Words(old(TextAt(cmd[..], 0))));
      err := SendLine(line);
    }

    /** Sends the request made of a line. */
    method SendLine(ghost line: seq<Byte>) returns (err: Err)
      requires Valid() && id.Some? && Encodes(sendMsg[..], line)
      modifies net`out, net`frames, this`lines
      ensures Valid() && (err == OK || err == TCP_FAILED_SEND_RECV)
      ensures lines == if err == OK then old(lines) + [line] else old(lines)
      ensures err != OK ==> net.Out(tcpSocket).broken
      ensures old(net.Out(tcpSocket).broken) ==> err != OK
      ensures err == OK ==> net.Out(tcpSocket).sent == old(net.Out(tcpSocket).sent) + [sendMsg[..]]
    {
      hide Encodes, Spoken, Screen, Network.Valid;
      ghost var sent := net.Out(tcpSocket).sent;
      err := SendTcpMsg(net, tcpSocket, sendMsg);
      if err == OK {
        SpokenMore(sent, id, lines, sendMsg[..], line);
        lines := lines + [line];
      }
    }

    /** process_ready_fds: prints the connection's next message once it has arrived whole, or reports that the
        connection failed. */
    method ProcessReadyFds() returns (err: Err)
      requires Valid()
      modifies this`screen, recvMsg, net`inn
      ensures Valid()
      ensures err == OK || err == OK_WITH_EXIT
      ensures screen == if err == OK then old(screen) + [Screen(recvMsg[..])] else old(screen)
      ensures net.In(tcpSocket).bytes == old(net.In(tcpSocket).bytes)
      ensures err == OK ==> net.In(tcpSocket).got == old(net.In(tcpSocket).got) + [recvMsg[..]]
      ensures err == OK_WITH_EXIT ==>
        net.In(tcpSocket).broken && net.In(tcpSocket).got == old(net.In(tcpSocket).got)
    {
      hide Spoken, Network.Valid;
      err := RecvTcpMsg(net, tcpSocket, recvMsg);
      if err == TCP_FAILED_SEND_RECV {
        return OK_WITH_EXIT;
      }
      screen := screen + [CStr(DataOf(recvMsg[..]))];
    }

    /** One round of the main loop that does not end it at once: a command is processed, or a message printed. */
    method OneRound(m: Moment) returns (err: Err, exit: bool)
      requires Valid() && id.Some? && m.polled
      modifies this`screen, this`lines, cmd, sendMsg, recvMsg, net`out, net`inn, net`frames
      ensures Valid() && id == old(id) && net.In(tcpSocket).bytes == old(net.In(tcpSocket).bytes)
      ensures exit <==> Leaves(m)
      ensures exit ==> lines == old(lines) && screen == old(screen)
      ensures exit ==> net.Out(tcpSocket) == old(net.Out(tcpSocket))
      ensures !exit ==> MayResult(m, err)
      ensures !exit ==>
        lines == old(lines) + if TakesCommand(m) && err == OK then [LineOf(m.typed.value)] else []
      ensures !exit ==> |screen| == |old(screen)| + if Reads(m) && err == OK then 1 else 0
      ensures old(screen) <= screen
      ensures err == TCP_FAILED_SEND_RECV ==> net.Out(tcpSocket).broken
      ensures err == OK_WITH_EXIT ==> net.In(tcpSocket).broken
      ensures old(net.Out(tcpSocket).broken) ==> net.Out(tcpSocket).broken
    {
      hide Valid, TextAt, Words, Line, Screen, IsSubscription, IsUnsubscription, CStr;
      NamesOfTyped(m);
      err, exit := OK, false;
      var kind := GetCmdLine(m.typed);
      match kind {
        case SubscribeLine =>
          err := ProcessSubscribeCmd();
        case UnsubscribeLine =>
          err := ProcessUnsubscribeCmd();
        case ExitLine =>
          exit := true;
        case NoLine =>
          if m.ready {
            err := ProcessReadyFds();
          }
      }
    }

    /** The subscriber's main loop over any rounds: each line typed as a command is sent or refused, each read prints
        one message, and it goes on until the rounds end, the exit command is typed, poll or the connection fails. A
        send counts as failed only on a broken connection, and so does a read. */
    method Interact(moments: seq<Moment>) returns (ghost errs: seq<Err>)
      requires Valid() && id.Some?
      modifies this`screen, this`lines, cmd, sendMsg, recvMsg, net`out, net`inn, net`frames
      ensures Valid() && id == old(id) && net.In(tcpSocket).bytes == old(net.In(tcpSocket).bytes)
      ensures Lived(moments, errs) && Done(moments, errs)
      ensures lines == old(lines) + Taken(moments, errs, |errs|)
      ensures old(screen) <= screen && |screen| == |old(screen)| + Printed(moments, errs, |errs|)
      ensures TCP_FAILED_SEND_RECV in errs ==> net.Out(tcpSocket).broken
      ensures OK_WITH_EXIT in errs ==> net.In(tcpSocket).broken
    {
      hide Valid, TakesCommand, Leaves, Reads, MayResult, LineOf, Words;
      errs := [];
      var k := 0;
      while k < |moments|
        invariant 0 <= k == |errs| <= |moments|
        invariant Valid() && id == old(id) && net.In(tcpSocket).bytes == old(net.In(tcpSocket).bytes)
        invariant Lived(moments, errs) && OK_WITH_EXIT !in errs
        invariant lines == old(lines) + Taken(moments, errs, k)
        invariant old(screen) <= screen && |screen| == |old(screen)| + Printed(moments, errs, k)
        invariant TCP_FAILED_SEND_RECV in errs ==> net.Out(tcpSocket).broken
      {
        if !moments[k].polled {
          PollFails(moments[k]);
          return;
        }
        var err, exit := OneRound(moments[k]);
        if exit {
          return;
        }
        LivedMore(moments, errs, err);
        errs := errs + [err];
        if err == OK_WITH_EXIT {
          return;
        }
        k := k + 1;
      }
    }
  }

  lemma PollFails(m: Moment)
    requires !m.polled
    ensures Leaves(m)
  {
  }

  /** What a round's typed bytes select. */
  lemma NamesOfTyped(m: Moment)
    ensures m.typed.Some? && EXIT <= m.typed.value ==> !TakesCommand(m)
  {
    if m.typed.Some? {
      NamesApart(m.typed.value);
    }
  }

  /** Whatever a server's writes were cut into, a subscriber that has read part of them shows the texts of the
      messages sent whole, in order. */
  lemma ShowsWhatWasSent(o: Outflow, i: Inflow, screen: seq<seq<Byte>>)
    requires OutOk(o) && InOk(i) && i.bytes <= o.bytes && |screen| == |i.got|
    requires forall k :: 0 <= k < |screen| ==> |i.got[k]| == TCP_MSG_SIZE && screen[k] == Screen(i.got[k])
    ensures |screen| <= |o.sent|
    ensures forall k :: 0 <= k < |screen| ==> |o.sent[k]| == TCP_MSG_SIZE && screen[k] == Screen(o.sent[k])
    ensures i.taken == |o.bytes| && !i.broken ==> |screen| == |o.sent|
  {
    Framing(o, i);
    assert forall k :: 0 <= k < |i.got| ==> i.got[k] == o.sent[k];
  }

  lemma LineWords(line: seq<Byte>)
    requires StringAt(line, 0) && |line| <= MAX_CLIENT_CMD_LEN
    ensures var w := Words(TextAt(line, 0));
      && (forall k :: 0 <= k < |w| ==> NUL !in w[k] && |w[k]| < MAX_CLIENT_CMD_LEN)
      && (|w| >= 2 ==> |w[0]| + |w[1]| < MAX_CLIENT_CMD_LEN)
  {
    TextBytes(line, 0);
    WordsAreParts(TextAt(line, 0));
  }

  /** The first three words of a line, cut in place. */
  method CutThree(buf: array<Byte>) returns (tok1: Option<nat>, tok2: Option<nat>, tok3: Option<nat>)
    requires StringAt(buf[..], 0)
    modifies buf
    ensures var w := Words(old(TextAt(buf[..], 0)));
      && (tok1.Some? <==> |w| >= 1) && (tok2.Some? <==> |w| >= 2) && (tok3.Some? <==> |w| >= 3)
      && (tok1.Some? ==> StringAt(buf[..], tok1.value) && TextAt(buf[..], tok1.value) == w[0])
      && (tok2.Some? ==> StringAt(buf[..], tok2.value) && TextAt(buf[..], tok2.value) == w[1])
      && (tok3.Some? ==> StringAt(buf[..], tok3.value) && TextAt(buf[..], tok3.value) == w[2])
  {
    hide Words, TextAt;
    var next: nat;
    tok1, tok2, next := CutTwo(buf);
    tok3 := None;
    if tok2.None? {
      return;
    }
    ghost var before, from := buf[..], next;
    tok3, next := StrTok(buf, next);
    WordStays(before, buf[..], tok1.value, from);
    WordStays(before, buf[..], tok2.value, from);
  }

  method EncodeSubscribe(msg: array<Byte>, cmd: seq<Byte>, topic: seq<Byte>, sfStr: seq<seq<Byte>>,
                         ghost w: seq<seq<Byte>>)
    requires msg.Length == TCP_MSG_SIZE && |cmd| + |topic| < MAX_CLIENT_CMD_LEN
    requires NUL !in cmd && NUL !in topic && SUBSCRIBE <= cmd
    requires |w| >= 2 && w[0] == cmd && w[1] == topic
    requires if |w| >= 3 then sfStr == [w[2]] else sfStr == []
    modifies msg
    ensures IsSubscription(msg[..], w)
  {
    hide Carries, Decode;
    var sf := if sfStr == [] then 0 else if Atoi(sfStr[0]) <= 0 then 0 else 1;
    var offset := StoreTwo(msg, cmd, topic);
    ghost var stored := msg[..];
    msg[DATA + offset] := sf;
    SetOnlyLen(msg, offset + 1);
    StillCarries(stored, msg[..], cmd, topic);
    DecodeSubscribe(msg[..], cmd, topic, sf);
  }

  method EncodeUnsubscribe(msg: array<Byte>, cmd: seq<Byte>, topic: seq<Byte>, ghost w: seq<seq<Byte>>)
    requires msg.Length == TCP_MSG_SIZE && |cmd| + |topic| < MAX_CLIENT_CMD_LEN
    requires NUL !in cmd && NUL !in topic && UNSUBSCRIBE <= cmd
    requires |w| >= 2 && w[0] == cmd && w[1] == topic
    modifies msg
    ensures IsUnsubscription(msg[..], w)
  {
    hide Carries;
    var offset := StoreTwo(msg, cmd, topic);
    ghost var stored := msg[..];
    SetOnlyLen(msg, offset);
    StillCarries(stored, msg[..], cmd, topic);
    CarriedStrings(msg[..], cmd, topic);
    assert cmd[0] == UNSUBSCRIBE[0] != SUBSCRIBE[0];
  }

  method SetOnlyLen(msg: array<Byte>, len: Uint16)
    requires msg.Length == TCP_MSG_SIZE
    modifies msg
    ensures LenOf(msg[..]) == len && forall i :: DATA <= i < msg.Length ==> msg[i] == old(msg[i])
  {
    ghost var before := msg[..];
    SetLen(msg, len);
    assert forall i :: DATA <= i < msg.Length ==> msg[i] == msg[DATA..][i - DATA] == before[DATA..][i - DATA];
  }

  lemma DecodeSubscribe(frame: seq<Byte>, cmd: seq<Byte>, topic: seq<Byte>, sf: Byte)
    requires |frame| == TCP_MSG_SIZE && Carries(frame, cmd, topic) && NUL !in cmd && NUL !in topic
    requires |cmd| + |topic| + 3 <= MAX_TCP_MSG_BUF_LEN && SUBSCRIBE <= cmd
    requires LenOf(frame) == |cmd| + |topic| + 3 && frame[DATA + |cmd| + |topic| + 2] == sf
    ensures Decode(frame) == if cmd == SUBSCRIBE then Command.Subscribe(topic, sf != 0) else UnknownCommand
  {
    CarriedStrings(frame, cmd, topic);
    assert cmd[0] == SUBSCRIBE[0] != UNSUBSCRIBE[0];
  }
}
