/** The receive buffer over a whole run of the server, and the texts that its log therefore holds. */
module Reception {
  import opened Bytes
  import opened Utils
  import opened UdpType
  import opened ClientTable
  import opened Broker
  import opened Trace
  import TopicMsg
  import SS = ServerState

  /** The datagrams received in the first n turns. */
  function Datagrams(turns: seq<SS.Turn>, n: nat): seq<seq<Byte>>
    requires n <= |turns|
  {
    if n == 0 then []
    else
      var rest, input := Datagrams(turns, n - 1), turns[n - 1].input;
      if input.Datagram? && input.count > 0 then rest + [input.bytes] else rest
  }

  predicate NoneLonger(run: seq<seq<Byte>>, size: nat) {
    forall d :: d in run ==> |d| <= size
  }

  lemma OneTurnBuffer(s: SS.Snapshot, t: SS.Turn)
    requires SS.Sound(s) && SS.Fits(s, t.fd, t.input)
    ensures SS.Handle(s, t.fd, t.input).1.buf ==
      if t.input.Datagram? && t.input.count > 0 then Receive(s.buf, t.input.bytes) else s.buf
    ensures t.input.Datagram? && t.input.count > 0 ==> |t.input.bytes| <= MAX_SERVER_BUFLEN
  {
    hide Receive, Parse, StepConnect, StepPublish, StepRequest, Register, Close;
  }

  lemma OneMoreReceived(run: seq<seq<Byte>>, d: seq<Byte>)
    requires NoneLonger(run, MAX_SERVER_BUFLEN) && |d| <= MAX_SERVER_BUFLEN
    ensures NoneLonger(run + [d], MAX_SERVER_BUFLEN)
    ensures BufferAfter(run + [d]) == Receive(BufferAfter(run), d)
  {
    assert (run + [d])[..|run|] == run;
  }

  /** Over every run, the receive buffer is what the datagrams received so far leave in it. */
  lemma {:induction false} BufferOverRun(udp: int, tcp: int, turns: seq<SS.Turn>, n: nat)
    requires SS.Sound(SS.Init(udp, tcp)) && n <= |turns| && SS.Possible(SS.Init(udp, tcp), turns, n)
    ensures NoneLonger(Datagrams(turns, n), MAX_SERVER_BUFLEN)
    ensures SS.After(SS.Init(udp, tcp), turns, n).1.buf == BufferAfter(Datagrams(turns, n))
  {
    hide SS.Sound, SS.Handle, SS.Fits, Receive, BufferAfter, NoneLonger;
    if n == 0 {
      Nothing();
    } else {
      BufferOverRun(udp, tcp, turns, n - 1);
      OneTurnBuffer(SS.After(SS.Init(udp, tcp), turns, n - 1).1, turns[n - 1]);
      if turns[n - 1].input.Datagram? && turns[n - 1].input.count > 0 {
        OneMoreReceived(Datagrams(turns, n - 1), turns[n - 1].input.bytes);
      }
    }
  }

  lemma Nothing()
    ensures NoneLonger([], MAX_SERVER_BUFLEN) && BufferAfter([]) == Zeros(MAX_SERVER_BUFLEN)
  {
  }

  function SenderOf(input: SS.Input): Addr {
    if input.Datagram? then input.addr else CLEARED.addr
  }

  ghost function LogLen(s: SS.Snapshot, turns: seq<SS.Turn>, n: nat): nat
    requires SS.Sound(s) && n <= |turns| && SS.Possible(s, turns, n)
  {
    |SS.After(s, turns, n).1.broker.log|
  }

  /** The receive buffer after a run of datagrams, none longer than it. */
  ghost function BufferOf(run: seq<seq<Byte>>): (buf: seq<Byte>)
    ensures |buf| == MAX_SERVER_BUFLEN
  {
    if NoneLonger(run, MAX_SERVER_BUFLEN) then BufferAfter(run) else Zeros(MAX_SERVER_BUFLEN)
  }

  /** What the log should hold after the first n turns, from what was received alone: for each turn for a datagram,
      one message, what the buffer then holds, under the sender delivered, if it is of a known type. */
  ghost function LogOf(turns: seq<SS.Turn>, n: nat): seq<Udp>
    requires n <= |turns|
  {
    if n == 0 then []
    else LogOf(turns, n - 1) + LogsNow(turns[n - 1].input, BufferOf(Datagrams(turns, n)))
  }

  lemma {:induction false} LogIsReceived(udp: int, tcp: int, turns: seq<SS.Turn>, n: nat)
    requires SS.Sound(SS.Init(udp, tcp)) && n <= |turns| && SS.Possible(SS.Init(udp, tcp), turns, n)
    ensures SS.After(SS.Init(udp, tcp), turns, n).1.broker.log == LogOf(turns, n)
  {
    hide SS.Sound, SS.Handle, SS.Fits, SS.Init, SS.After, SS.Possible, BufferOf, LogsNow, Datagrams;
    if n == 0 {
      EmptyAtStart(udp, tcp);
      SS.BeforeTurns(SS.Init(udp, tcp), turns);
    } else {
      SS.LastTurn(SS.Init(udp, tcp), turns, n);
      LogIsReceived(udp, tcp, turns, n - 1);
      BufferIs(udp, tcp, turns, n);
      TurnLogs(SS.After(SS.Init(udp, tcp), turns, n - 1).1, turns[n - 1]);
    }
  }

  /** Over every run, the log and the publications recorded are exactly those: every datagram of a known type is
      logged and published, once, in order, and nothing else is. */
  lemma EveryDatagramPublished(udp: int, tcp: int, turns: seq<SS.Turn>, n: nat)
    requires 0 < udp && 0 < tcp && udp != tcp
    requires SS.Sound(SS.Init(udp, tcp)) && n <= |turns| && SS.Possible(SS.Init(udp, tcp), turns, n)
    ensures var r := SS.After(SS.Init(udp, tcp), turns, n).1;
      r.broker.log == LogOf(turns, n) && Published(r.hist, |r.hist|) == LogOf(turns, n)
  {
    hide Published, LogOf, SS.Sound, SS.Init, SS.After, SS.Possible;
    LogIsReceived(udp, tcp, turns, n);
    RecordedPublications(udp, tcp, turns, n);
  }

  /** What one turn should log, given the buffer after it. */
  function LogsNow(input: SS.Input, buf: seq<Byte>): seq<Udp>
    requires |buf| == MAX_SERVER_BUFLEN
  {
    if input.Datagram? && input.count != 0 && Parse(buf, input.addr).Some?
    then [Parse(buf, input.addr).value] else []
  }

  lemma TurnLogs(s: SS.Snapshot, t: SS.Turn)
    requires SS.Sound(s) && SS.Fits(s, t.fd, t.input)
    ensures var r := SS.Handle(s, t.fd, t.input).1;
      |r.buf| == MAX_SERVER_BUFLEN && r.broker.log == s.broker.log + LogsNow(t.input, r.buf)
  {
    OneTurnLog(s, t);
    hide SS.Sound, SS.Handle, SS.Fits, Parse, SS.BufferAfterTurn;
    if t.input.Datagram? && t.input.count != 0 {
      DatagramIsUdp(s, t);
      SS.DatagramPublished(s, t.fd, t.input);
    } else {
      SS.OthersLogNothing(s, t.fd, t.input);
    }
  }

  lemma BufferIs(udp: int, tcp: int, turns: seq<SS.Turn>, n: nat)
    requires SS.Sound(SS.Init(udp, tcp)) && n <= |turns| && SS.Possible(SS.Init(udp, tcp), turns, n)
    ensures SS.After(SS.Init(udp, tcp), turns, n).1.buf == BufferOf(Datagrams(turns, n))
  {
    hide SS.Sound, SS.Handle, SS.Fits, SS.Init, SS.After, SS.Possible, NoneLonger, Datagrams;
    BufferOverRun(udp, tcp, turns, n);
  }

  lemma RecordedPublications(udp: int, tcp: int, turns: seq<SS.Turn>, n: nat)
    requires 0 < udp && 0 < tcp && udp != tcp
    requires SS.Sound(SS.Init(udp, tcp)) && n <= |turns| && SS.Possible(SS.Init(udp, tcp), turns, n)
    ensures var r := SS.After(SS.Init(udp, tcp), turns, n).1; Published(r.hist, |r.hist|) == r.broker.log
  {
    SS.InitSound(udp, tcp);
    SS.InitHistory(SS.Init(udp, tcp));
    hide SS.Sound, SS.Possible, SS.After, Published, Run;
    SS.RunApartIff(SS.Init(udp, tcp), turns, n);
    var r := SS.After(SS.Init(udp, tcp), turns, n).1;
    LogIsPublished(r.hist, |r.hist|, DropRest);
  }

  lemma DatagramIsUdp(s: SS.Snapshot, t: SS.Turn)
    requires SS.Sound(s) && SS.Fits(s, t.fd, t.input) && t.input.Datagram?
    ensures t.fd == s.udp && |t.input.bytes| <= |s.buf|
  {
  }

  lemma EmptyAtStart(udp: int, tcp: int)
    ensures SS.Init(udp, tcp).broker.log == []
  {
  }

  /** How many datagrams had been received when a message was logged, and the sender delivered with the last
      receive. */
  datatype Source = Source(count: nat, sender: Addr)

  function NewSource(turns: seq<SS.Turn>, n: nat, logged: int): seq<Source>
    requires 0 < n <= |turns|
  {
    if logged > 0 then [Source(|Datagrams(turns, n)|, SenderOf(turns[n - 1].input))] else []
  }

  /** The source of each logged message. */
  ghost function Sources(s: SS.Snapshot, turns: seq<SS.Turn>, n: nat): seq<Source>
    requires SS.Sound(s) && n <= |turns| && SS.Possible(s, turns, n)
  {
    if n == 0 then []
    else Sources(s, turns, n - 1) + NewSource(turns, n, LogLen(s, turns, n) - LogLen(s, turns, n - 1))
  }

  /** A turn logs at most one message, and that is what the buffer holds after it. */
  lemma OneTurnLog(s: SS.Snapshot, t: SS.Turn)
    requires SS.Sound(s) && SS.Fits(s, t.fd, t.input)
    ensures var r := SS.Handle(s, t.fd, t.input).1;
      |r.buf| == MAX_SERVER_BUFLEN
      && (r.broker.log == s.broker.log ||
          (|r.broker.log| == |s.broker.log| + 1
           && r.broker.log == s.broker.log + [r.broker.log[|s.broker.log|]]
           && t.input.Datagram?
           && Parse(r.buf, t.input.addr) == Some(r.broker.log[|s.broker.log|])))
  {
    hide Receive, PayloadOf, OfferUpTo, LiveUpTo, StepRequest, Register, Close, Retransmit;
    if t.fd == s.tcp && t.input.fd > 0 && t.input.first.Some? {
      ReplayKeepsLog(s.broker, TopicMsg.Screen(t.input.first.value), t.input.fd, t.input.accepted);
    }
  }

  lemma ReplayKeepsLog(b: State, id: Id, fd: int, accepted: nat)
    ensures StepConnect(b, id, fd, accepted, DropRest).log == b.log
  {
  }

  /** The log's entry p is the parse of what its source's datagrams left in the buffer, with the sender delivered. */
  ghost predicate LoggedAfter(log: seq<Udp>, p: nat, run: seq<seq<Byte>>, src: Source)
    requires NoneLonger(run, MAX_SERVER_BUFLEN)
  {
    && p < |log| && src.count <= |run|
    && (forall d :: d in run[..src.count] ==> d in run)
    && Parse(BufferAfter(run[..src.count]), src.sender) == Some(log[p])
  }

  lemma LoggedStays(log: seq<Udp>, log': seq<Udp>, p: nat, run: seq<seq<Byte>>, run': seq<seq<Byte>>, src: Source)
    requires NoneLonger(run, MAX_SERVER_BUFLEN) && NoneLonger(run', MAX_SERVER_BUFLEN)
    requires LoggedAfter(log, p, run, src) && log <= log' && run <= run'
    ensures LoggedAfter(log', p, run', src)
  {
    assert run'[..src.count] == run[..src.count];
    assert forall d :: d in run'[..src.count] ==> d in run';
  }

  lemma LoggedNow(log: seq<Udp>, p: nat, run: seq<seq<Byte>>, sender: Addr)
    requires NoneLonger(run, MAX_SERVER_BUFLEN) && p < |log|
    requires Parse(BufferAfter(run), sender) == Some(log[p])
    ensures LoggedAfter(log, p, run, Source(|run|, sender))
  {
    assert run[..|run|] == run;
  }

  /** Over every run, each logged message is the parse of the buffer as the datagrams until then left it, under the
      sender that the system delivered. */
  lemma {:induction false} LogOverRun(udp: int, tcp: int, turns: seq<SS.Turn>, n: nat, p: nat)
    requires SS.Sound(SS.Init(udp, tcp)) && n <= |turns| && SS.Possible(SS.Init(udp, tcp), turns, n)
    requires p < |SS.After(SS.Init(udp, tcp), turns, n).1.broker.log|
    ensures NoneLonger(Datagrams(turns, n), MAX_SERVER_BUFLEN)
    ensures |Sources(SS.Init(udp, tcp), turns, n)| == |SS.After(SS.Init(udp, tcp), turns, n).1.broker.log|
    ensures LoggedAfter(SS.After(SS.Init(udp, tcp), turns, n).1.broker.log, p, Datagrams(turns, n),
                        Sources(SS.Init(udp, tcp), turns, n)[p])
  {
    hide SS.Sound, SS.Handle, SS.Fits, BufferAfter, NoneLonger, LoggedAfter, Parse;
    var s := SS.Init(udp, tcp);
    SourcesMatchLog(udp, tcp, turns, n);
    var b, r := SS.After(s, turns, n - 1).1, SS.After(s, turns, n).1;
    BufferOverRun(udp, tcp, turns, n);
    OneTurnLog(b, turns[n - 1]);
    if p < |b.broker.log| {
      SourcesMatchLog(udp, tcp, turns, n - 1);
      BufferOverRun(udp, tcp, turns, n - 1);
      LogOverRun(udp, tcp, turns, n - 1, p);
      LoggedStays(b.broker.log, r.broker.log, p, Datagrams(turns, n - 1), Datagrams(turns, n),
                  Sources(s, turns, n - 1)[p]);
    } else {
      SourcesMatchLog(udp, tcp, turns, n - 1);
      LoggedNow(r.broker.log, p, Datagrams(turns, n), turns[n - 1].input.addr);
    }
  }

  lemma {:induction false} SourcesMatchLog(udp: int, tcp: int, turns: seq<SS.Turn>, n: nat)
    requires SS.Sound(SS.Init(udp, tcp)) && n <= |turns| && SS.Possible(SS.Init(udp, tcp), turns, n)
    ensures |Sources(SS.Init(udp, tcp), turns, n)| == |SS.After(SS.Init(udp, tcp), turns, n).1.broker.log|
    ensures n == 0 ==> SS.After(SS.Init(udp, tcp), turns, n).1.broker.log == []
  {
    hide SS.Sound, SS.Handle, SS.Fits, Parse;
    if n > 0 {
      SourcesMatchLog(udp, tcp, turns, n - 1);
      OneTurnLog(SS.After(SS.Init(udp, tcp), turns, n - 1).1, turns[n - 1]);
    }
  }

  /** The text the server keeps of a datagram, and the text the datagram carries. */
  ghost predicate TextKept(stored: seq<Byte>, d: seq<Byte>, earlier: seq<seq<Byte>>)
    requires |d| >= MAX_TOPIC_LEN
  {
    && StrLen(stored) < MAX_STRING_LEN
    && CStr(PayloadBytes(d)) <= CStr(stored)
    && (NUL in PayloadBytes(d) || (forall e :: e in earlier ==> |e| <= |d|) ==> CStr(stored) == CStr(PayloadBytes(d)))
  }

  /** Over every run of the server in which the datagrams have the sizes of the format, whatever their payloads:
      every STRING in the log came out of one of them, the last received when it was logged; it ends within its
      field and begins with that datagram's text, and is that text if the payload holds a NUL or no earlier
      datagram was longer. */
  lemma LoggedTexts(udp: int, tcp: int, turns: seq<SS.Turn>, n: nat, p: nat)
    requires SS.Sound(SS.Init(udp, tcp)) && n <= |turns| && SS.Possible(SS.Init(udp, tcp), turns, n)
    requires forall d :: d in Datagrams(turns, n) ==> MAX_TOPIC_LEN <= |d| <= 1551
    requires p < |SS.After(SS.Init(udp, tcp), turns, n).1.broker.log|
    requires SS.After(SS.Init(udp, tcp), turns, n).1.broker.log[p].kind == STRING
    ensures var m, run := SS.After(SS.Init(udp, tcp), turns, n).1.broker.log[p], Datagrams(turns, n);
      && p < |Sources(SS.Init(udp, tcp), turns, n)|
      && var src := Sources(SS.Init(udp, tcp), turns, n)[p]; var j := src.count;
         && m.addr == src.sender && 0 < j <= |run| && m.data.StringData? && |run[j - 1]| >= MAX_TOPIC_LEN
         && TextKept(m.data.bytes, run[j - 1], run[..j - 1])
  {
    hide SS.Sound, SS.Possible, SS.After, SS.Init, BufferAfter, Parse, Sources, Datagrams;
    LogOverRun(udp, tcp, turns, n, p);
    var log := SS.After(SS.Init(udp, tcp), turns, n).1.broker.log;
    TextOfEntry(log, p, Datagrams(turns, n), Sources(SS.Init(udp, tcp), turns, n)[p]);
  }

  lemma TextOfEntry(log: seq<Udp>, p: nat, run: seq<seq<Byte>>, src: Source)
    requires NoneLonger(run, MAX_SERVER_BUFLEN) && LoggedAfter(log, p, run, src) && log[p].kind == STRING
    requires forall d :: d in run ==> MAX_TOPIC_LEN <= |d| <= 1551
    ensures var j := src.count;
      log[p].addr == src.sender && 0 < j <= |run| && log[p].data.StringData? && |run[j - 1]| >= MAX_TOPIC_LEN
      && TextKept(log[p].data.bytes, run[j - 1], run[..j - 1])
  {
    hide BufferAfter;
    var j := src.count;
    var buf := BufferAfter(run[..j]);
    ParsedString(buf, log[p], src.sender);
    if j == 0 {
      Nothing();
    } else {
      assert run[j - 1] in run;
      assert run[..j] == run[..j - 1] + [run[j - 1]];
      assert forall d :: d in run[..j - 1] ==> d in run;
      StoredTextOverRun(run[..j - 1], run[j - 1]);
    }
  }

  lemma ParsedString(buf: seq<Byte>, m: Udp, sender: Addr)
    requires |buf| == MAX_SERVER_BUFLEN && Parse(buf, sender) == Some(m) && m.kind == STRING
    ensures m.addr == sender && buf[MAX_TOPIC_LEN - 1] == STRING && m.data == StringData(StoredField(buf))
  {
  }
}
