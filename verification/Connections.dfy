/** What every run of the server keeps between the events it records and what its connections carried: who a peer
    said it was, what it asked for, what was sent to it, and which sends failed. */
module Connections {
  import opened Bytes
  import opened Utils
  import opened UdpType
  import opened TcpType
  import opened TopicMsg
  import opened ClientTable
  import opened Broker
  import opened Trace
  import opened Guarantees
  import Commands
  import SS = ServerState

  // ---------- One more event ----------

  lemma {:induction false} ConnectionAgrees(h: seq<Event>, e: Event, n: nat, fd: int)
    requires n <= |h|
    ensures Introduced(h + [e], n, fd) == Introduced(h, n, fd)
    ensures Asked(h + [e], n, fd) == Asked(h, n, fd)
    ensures HungUp(h + [e], n, fd) == HungUp(h, n, fd)
  {
    if n > 0 {
      ConnectionAgrees(h, e, n - 1, fd);
    }
  }

  lemma OneMoreEvent(h: seq<Event>, e: Event, fd: int)
    ensures var n, h' := |h|, h + [e]; var connects := e.Connect? && e.fd == fd;
      && Introduced(h', n + 1, fd) == (if connects then Some(e.id) else Introduced(h, n, fd))
      && Asked(h', n + 1, fd) == (if connects then []
           else if e.Request? && e.fd == fd then Asked(h, n, fd) + [e.cmd] else Asked(h, n, fd))
      && (HungUp(h', n + 1, fd) <==> !connects && (e == Disconnect(fd) || HungUp(h, n, fd)))
  {
    ConnectionAgrees(h, e, |h|, fd);
  }

  // ---------- What was heard is what is recorded ----------

  predicate WholeFrames(frames: seq<seq<Byte>>) {
    forall k :: 0 <= k < |frames| ==> |frames[k]| == TCP_MSG_SIZE
  }

  function Requests(frames: seq<seq<Byte>>): (r: seq<Command>)
    requires WholeFrames(frames)
    ensures |r| == |frames| && forall k :: 0 <= k < |r| ==> r[k] == Commands.Decode(frames[k])
  {
    seq(|frames|, k requires 0 <= k < |frames| => Commands.Decode(frames[k]))
  }

  /** The first message of a connection is its peer's id, and the later ones are, in order, the requests recorded for
      it; a connection that delivered none has failed. */
  predicate HeardAs(frames: seq<seq<Byte>>, deaf: bool, who: Option<Id>, asked: seq<Command>) {
    && WholeFrames(frames)
    && if frames == [] then deaf
       else who == Some(Screen(frames[0])) && WholeFrames(frames[1..]) && asked == Requests(frames[1..])
  }

  predicate HeardOn(s: SS.Snapshot, fd: int) {
    && (fd in s.wire.heard ==>
          HeardAs(s.wire.heard[fd], fd in s.wire.deaf, Introduced(s.hist, |s.hist|, fd), Asked(s.hist, |s.hist|, fd)))
    && (HungUp(s.hist, |s.hist|, fd) ==> fd in s.wire.deaf)
    && (fd in s.wire.heard && s.wire.heard[fd] != [] && fd in s.wire.deaf ==> HungUp(s.hist, |s.hist|, fd))
  }

  /** The record is true to the connections: no message is ignored, invented or misread, and a peer that delivered
      its id is hung up on exactly if its connection failed. */
  ghost predicate Faithful(s: SS.Snapshot) {
    forall fd :: HeardOn(s, fd)
  }

  lemma HeardMore(frames: seq<seq<Byte>>, who: Option<Id>, asked: seq<Command>, m: seq<Byte>)
    requires HeardAs(frames, false, who, asked) && |m| == TCP_MSG_SIZE
    ensures HeardAs(frames + [m], false, who, asked + [Commands.Decode(m)])
  {
    hide Screen, Commands.Decode;
    assert (frames + [m])[1..] == frames[1..] + [m];
  }

  lemma HeardFirst(m: seq<Byte>, deaf: bool)
    requires |m| == TCP_MSG_SIZE
    ensures HeardAs([m], deaf, Some(Screen(m)), [])
  {
  }

  lemma HeardDeaf(frames: seq<seq<Byte>>, deaf: bool, who: Option<Id>, asked: seq<Command>)
    requires HeardAs(frames, deaf, who, asked)
    ensures HeardAs(frames, true, who, asked)
  {
  }

  lemma AlignedTable(s: SS.Snapshot)
    requires SS.Sound(s)
    ensures AllAligned(s.broker.clients) && |s.buf| == MAX_SERVER_BUFLEN
  {
  }

  lemma DropKeepsWire(s: SS.Snapshot, fd: int)
    ensures SS.Drop(s, fd).wire == s.wire && SS.Drop(s, fd).hist == s.hist && SS.Drop(s, fd).broker == s.broker
  {
  }

  lemma DatagramHeard(s: SS.Snapshot, fd: int, input: SS.Input, x: int)
    requires SS.Sound(s) && SS.Fits(s, fd, input) && fd == s.udp && HeardOn(s, x)
    ensures HeardOn(SS.HandleDatagram(s, fd, input).1, x)
  {
    AlignedTable(s);
    hide SS.Sound, HeardAs, Parse, Receive, StepPublish;
    var r := SS.HandleDatagram(s, fd, input).1;
    if r.hist != s.hist {
      OneMoreEvent(s.hist, r.hist[|s.hist|], x);
    }
  }

  lemma ArrivalHeard(s: SS.Snapshot, input: SS.Input, x: int)
    requires input.Arrival? && SS.WholeFrame(input.first) && HeardOn(s, x)
    ensures HeardOn(SS.HandleArrival(s, input).1, x)
  {
    hide HeardAs, StepConnect, Register, Screen, SS.CutShort;
    if input.fd > 0 {
      match input.first
      case None =>
        if x == input.fd {
          HeardNothing(Introduced(s.hist, |s.hist|, x), Asked(s.hist, |s.hist|, x));
        }
      case Some(m) =>
        OneMoreEvent(s.hist, Connect(Screen(m), input.fd, input.accepted), x);
        assert [] + [m] == [m];
        HeardFirst(m, x in SS.HandleArrival(s, input).1.wire.deaf);
    }
  }

  lemma HeardNothing(who: Option<Id>, asked: seq<Command>)
    ensures HeardAs([], true, who, asked)
  {
  }

  lemma HangUpHeard(s: SS.Snapshot, fd: int, x: int)
    requires HeardOn(s, x)
    ensures HeardOn(SS.HangUp(SS.Receives(s, fd, None), fd), x)
  {
    hide HeardAs, Close, SS.Drop, Asked, Introduced, HungUp;
    var h, n, b := s.hist, |s.hist|, s.broker.(clients := Close(s.broker.clients, fd).1);
    OneMoreEvent(h, Disconnect(fd), x);
    DropKeepsWire(SS.Apply(SS.Receives(s, fd, None), b, Disconnect(fd)), fd);
    if x == fd && fd in s.wire.heard {
      HeardDeaf(s.wire.heard[fd], fd in s.wire.deaf, Introduced(h, n, fd), Asked(h, n, fd));
    }
  }

  lemma AnswerHeard(s: SS.Snapshot, fd: int, m: seq<Byte>, x: int)
    requires AllAligned(s.broker.clients) && |m| == TCP_MSG_SIZE && HeardOn(s, x)
    requires fd in s.wire.heard && fd !in s.wire.deaf
    ensures HeardOn(SS.Answer(SS.Receives(s, fd, Some(m)), fd, Commands.Decode(m)), x)
  {
    hide HeardAs, StepRequest, Commands.Decode, Asked, Introduced, HungUp;
    var h, n := s.hist, |s.hist|;
    OneMoreEvent(h, Request(fd, Commands.Decode(m)), x);
    if x == fd {
      HeardMore(s.wire.heard[fd], Introduced(h, n, fd), Asked(h, n, fd), m);
    }
  }

  lemma MessageHeard(s: SS.Snapshot, fd: int, input: SS.Input, x: int)
    requires SS.Sound(s) && SS.Fits(s, fd, input) && fd != s.udp && fd != s.tcp && fd != SS.STDIN && HeardOn(s, x)
    ensures HeardOn(SS.HandleMessage(s, fd, input).1, x)
  {
    SS.ListedIsConnection(s, fd);
    AlignedTable(s);
    hide SS.Sound, HeardOn, SS.HangUp, SS.Answer, SS.Receives;
    match input.frame
    case None => HangUpHeard(s, fd, x);
    case Some(m) => AnswerHeard(s, fd, m, x);
  }

  lemma TurnFaithful(s: SS.Snapshot, fd: int, input: SS.Input)
    requires SS.Sound(s) && SS.Fits(s, fd, input) && fd != SS.STDIN && Faithful(s)
    ensures Faithful(SS.Handle(s, fd, input).1)
  {
    hide SS.Sound, HeardOn, SS.HandleDatagram, SS.HandleArrival, SS.HandleMessage;
    forall x
      ensures HeardOn(SS.Handle(s, fd, input).1, x)
    {
      assert HeardOn(s, x);
      if fd == s.udp {
        DatagramHeard(s, fd, input, x);
      } else if fd == s.tcp {
        ArrivalHeard(s, input, x);
      } else {
        MessageHeard(s, fd, input, x);
      }
    }
  }

  lemma InitFaithful(udp: int, tcp: int)
    ensures Faithful(SS.Init(udp, tcp))
  {
  }

  /** Over every run, whatever the system does: on each connection the id is the first whole message received, the
      requests recorded are, in order, what the later ones say, and a client is hung up on only after a receive
      from it failed. */
  lemma {:induction false} RunFaithful(s: SS.Snapshot, turns: seq<SS.Turn>, n: nat)
    requires SS.Sound(s) && Faithful(s) && n <= |turns| && SS.Possible(s, turns, n)
    ensures Faithful(SS.After(s, turns, n).1)
  {
    hide SS.Sound, SS.Handle, SS.Fits, Faithful;
    if n > 0 {
      RunFaithful(s, turns, n - 1);
      TurnFaithful(SS.After(s, turns, n - 1).1, turns[n - 1].fd, turns[n - 1].input);
    }
  }

  /** Teardown hears and records nothing. */
  lemma ClosedFaithful(s: SS.Snapshot)
    requires Faithful(s)
    ensures Faithful(SS.CloseAll(s))
  {
    hide HeardAs;
    forall fd
      ensures HeardOn(SS.CloseAll(s), fd)
    {
      assert HeardOn(s, fd);
    }
  }

  // ---------- Subscriptions are what was heard ----------

  /** A connected client's subscriptions in the table are those it had when it was connected, changed in order by
      exactly the requests received on its connection; and it introduced itself there under its id. */
  lemma SubscriptionsAreHeard(s: SS.Snapshot, id: Id, fd: int)
    requires Faithful(s) && SS.Recorded(s.hist, s.broker) && SS.FreeSoFar(s.hist)
    requires fd in s.wire.heard && s.wire.heard[fd] != []
    requires LinkAt(s.hist, |s.hist|, id) == Up(fd)
    ensures var frames, h := s.wire.heard[fd], s.hist; var before := SubsAt(h, ConnectedAt(h, |h|, id), id);
      && WholeFrames(frames) && WholeFrames(frames[1..]) && Screen(frames[0]) == id
      && var v := Project(s.broker, id).view;
         v.Some? && v.value.conn == Some(fd) && v.value.subs == AllCommanded(before, Requests(frames[1..]))
  {
    hide Project, AllCommanded, Requests, Screen, Introduced, Asked, Legal, Run, NumbersFree;
    var h := s.hist;
    assert HeardOn(s, fd);
    FreeIsLegal(h, |h|, DropRest);
    SubsAreAsked(h, |h|, id, fd, DropRest);
    RunIsTrace(h, |h|, id, DropRest);
  }

  // ---------- What was sent is what the client should get ----------

  /** What went through a client's descriptor since it was accepted is what the events say the client was sent
      since it was connected; and its connection delivered a message. */
  predicate CarriedFor(h: seq<Event>, sent: seq<Sent>, wire: Wire, id: Id) {
    match LinkAt(h, |h|, id)
    case Up(fd) =>
      && fd in wire.since && wire.since[fd] <= |sent|
      && Carried(sent, fd, wire.since[fd]) == SinceConnect(h, |h|, id, DropRest)
      && fd in wire.heard && wire.heard[fd] != []
    case _ => true
  }

  lemma {:induction false} TraceAgrees(h: seq<Event>, e: Event, n: nat, id: Id)
    requires n <= |h|
    ensures LinkAt(h + [e], n, id) == LinkAt(h, n, id) && SubsAt(h + [e], n, id) == SubsAt(h, n, id)
    ensures Published(h + [e], n) == Published(h, n)
    ensures Waiting(h + [e], n, id, DropRest) == Waiting(h, n, id, DropRest)
    ensures SinceConnect(h + [e], n, id, DropRest) == SinceConnect(h, n, id, DropRest)
  {
    if n > 0 {
      TraceAgrees(h, e, n - 1, id);
      assert (h + [e])[n - 1] == h[n - 1];
    }
  }

  /** The sends of one event that go through a connected client's descriptor are those to the client. */
  lemma NewSends(h: seq<Event>, b: State, e: Event, id: Id, fd: int) returns (delta: seq<Sent>)
    requires SS.History(h, b) && EventOk(e) && Fresh(b.clients, e)
    requires LinkAt(h + [e], |h| + 1, id) == Up(fd)
    ensures TableOk(b.clients) && Step(b, e, DropRest).sent == b.sent + delta
    ensures Carried(delta, fd, 0) == ToId(delta, id)
    ensures Expected(h + [e], |h| + 1, id, DropRest) == Expected(h + [e], |h|, id, DropRest) + ToId(delta, id)
  {
    hide LinkAt, Expected, Missed, Waiting, SubsAt, Carried, ToId, StepOf;
    var h', n := h + [e], |h|;
    SS.HistoryExtends(h, b, e);
    var r := Step(b, e, DropRest);
    StepSentFrom(b, e, DropRest);
    delta := r.sent[|b.sent|..];
    LinkHolds(h', n + 1, id, fd, DropRest);
    LegalRunInv(h', n + 1, DropRest);
    CarriedIsToId(r.clients, delta, id, fd);
    RunAgrees(h, h', n, DropRest);
    LegalPrefix(h', n, n + 1, DropRest);
    RunIsTrace(h', n, id, DropRest);
    RunIsTrace(h', n + 1, id, DropRest);
    ToIdConcat(b.sent, delta, id);
  }

  lemma EventCarried(h: seq<Event>, b: State, e: Event, before: Wire, wire: Wire, id: Id)
    requires SS.History(h, b) && EventOk(e) && Fresh(b.clients, e)
    requires CarriedFor(h, b.sent, before, id)
    requires match LinkAt(h + [e], |h| + 1, id)
      case Up(fd) =>
        && fd in wire.heard && wire.heard[fd] != [] && fd in wire.since
        && (if Reconnects(h + [e], |h|, id) then wire.since[fd] == |b.sent|
            else fd in before.since && wire.since[fd] == before.since[fd])
      case _ => true
    ensures TableOk(b.clients) && CarriedFor(h + [e], Step(b, e, DropRest).sent, wire, id)
  {
    hide StepOf, SS.History, Carried, ToId, Expected, Waiting, SubsAt;
    var h', n := h + [e], |h|;
    TableOfHistory(h, b);
    match LinkAt(h', n + 1, id)
    case Up(fd) =>
      TraceAgrees(h, e, n, id);
      var delta := NewSends(h, b, e, id, fd);
      CarriedConcat(b.sent, delta, fd, wire.since[fd]);
      SentIsSince(h', n, id, ToId(delta, id));
      if Reconnects(h', n, id) {
        NothingYet(b.sent, fd);
      }
    case _ =>
  }

  lemma TableOfHistory(h: seq<Event>, b: State)
    requires SS.History(h, b)
    ensures TableOk(b.clients)
  {
  }

  lemma NothingYet(sent: seq<Sent>, fd: int)
    ensures Carried(sent, fd, |sent|) == []
  {
  }

  lemma SentIsSince(h: seq<Event>, n: nat, id: Id, delta: seq<Delivery>)
    requires n < |h| && Expected(h, n + 1, id, DropRest) == Expected(h, n, id, DropRest) + delta
    ensures SinceConnect(h, n + 1, id, DropRest) ==
      if Reconnects(h, n, id) then delta else SinceConnect(h, n, id, DropRest) + delta
  {
    hide SubsAt, Waiting;
    var s, w := Expected(h, n, id, DropRest), Waiting(h, n, id, DropRest);
    assert (s + delta)[|s|..] == delta;
    if OwesLive(h, n, id) && id !in h[n].failing {
      assert (s + [DueAt(h, n, id).value])[|s|..] == [DueAt(h, n, id).value];
    } else if Reconnects(h, n, id) {
      var replay := NewestFirst(w, Min(h[n].accepted, |w|));
      assert (s + replay)[|s|..] == replay;
    } else {
      assert s[|s|..] == [];
    }
  }

  predicate HeardKept(before: Wire, after: Wire) {
    && after.since == before.since
    && forall x :: x in before.heard && before.heard[x] != [] ==> x in after.heard && after.heard[x] != []
  }

  /** An event that connects nobody. */
  lemma QuietCarried(h: seq<Event>, b: State, e: Event, before: Wire, wire: Wire, id: Id)
    requires SS.History(h, b) && !e.Connect? && HeardKept(before, wire)
    requires CarriedFor(h, b.sent, before, id)
    ensures TableOk(b.clients) && CarriedFor(h + [e], Step(b, e, DropRest).sent, wire, id)
  {
    hide StepOf, SS.History, Carried, SinceConnect;
    TraceAgrees(h, e, |h|, id);
    EventCarried(h, b, e, before, wire, id);
  }

  /** A peer accepted on a descriptor that connects nobody, whose first message has arrived. */
  lemma ConnectCarried(h: seq<Event>, b: State, x: Id, fd: int, accepted: nat, before: Wire, wire: Wire, id: Id)
    requires SS.History(h, b) && fd > 0 && !HasFd(b.clients, fd)
    requires wire.since == before.since[fd := |b.sent|]
    requires fd in wire.heard && wire.heard[fd] != []
    requires forall y :: y != fd && y in before.heard && before.heard[y] != [] ==>
      y in wire.heard && wire.heard[y] != []
    requires CarriedFor(h, b.sent, before, id)
    ensures TableOk(b.clients) && CarriedFor(h + [Connect(x, fd, accepted)],
      Step(b, Connect(x, fd, accepted), DropRest).sent, wire, id)
  {
    var e := Connect(x, fd, accepted);
    TraceAgrees(h, e, |h|, id);
    NotOn(h, b, id, fd);
    hide StepOf, SS.History, Carried, SinceConnect, HasFd;
    EventCarried(h, b, e, before, wire, id);
  }

  lemma NotOn(h: seq<Event>, b: State, id: Id, fd: int)
    requires SS.History(h, b) && !HasFd(b.clients, fd)
    ensures LinkAt(h, |h|, id) != Up(fd)
  {
    hide LinkAt, Run, Legal;
    if LinkAt(h, |h|, id) == Up(fd) {
      LinkHolds(h, |h|, id, fd, DropRest);
    }
  }

  predicate CarriedIn(s: SS.Snapshot, id: Id) {
    CarriedFor(s.hist, s.broker.sent, s.wire, id)
  }

  lemma PublishCarried(s: SS.Snapshot, addr: Addr, failing: set<Id>, id: Id)
    requires |s.buf| == MAX_SERVER_BUFLEN && AllAligned(s.broker.clients)
    requires SS.History(s.hist, s.broker) && CarriedIn(s, id)
    ensures CarriedIn(SS.Publishes(s, addr, failing).1, id)
  {
    hide SS.History, CarriedFor, StepPublish, Parse, MuteUpTo;
    var m := Parse(s.buf, addr);
    if m.Some? {
      QuietCarried(s.hist, s.broker, Publish(m.value, failing), s.wire, SS.Publishes(s, addr, failing).1.wire, id);
    }
  }

  lemma DatagramCarried(s: SS.Snapshot, fd: int, input: SS.Input, id: Id)
    requires SS.Sound(s) && SS.History(s.hist, s.broker) && SS.Fits(s, fd, input) && fd == s.udp && CarriedIn(s, id)
    ensures CarriedIn(SS.HandleDatagram(s, fd, input).1, id)
  {
    AlignedTable(s);
    hide SS.Sound, SS.History, CarriedFor, SS.Publishes, SS.Drop, Receive;
    if input.count == 0 {
      DropKeepsWire(s, fd);
    } else {
      PublishCarried(s.(buf := if input.count > 0 then Receive(s.buf, input.bytes) else s.buf),
                     input.addr, input.failing, id);
    }
  }

  lemma ArrivalCarried(s: SS.Snapshot, input: SS.Input, id: Id)
    requires SS.History(s.hist, s.broker) && input.Arrival? && SS.WholeFrame(input.first) && CarriedIn(s, id)
    requires !SS.TakesHeldNumber(s, input)
    ensures CarriedIn(SS.HandleArrival(s, input).1, id)
  {
    var fd, r := input.fd, SS.HandleArrival(s, input).1;
    if fd > 0 {
      if input.first.Some? {
        hide SS.History, CarriedFor, StepConnect, Register, Screen, SS.CutShort;
        ConnectCarried(s.hist, s.broker, Screen(input.first.value), fd, input.accepted, s.wire, r.wire, id);
      } else {
        NotOn(s.hist, s.broker, id, fd);
      }
    }
  }

  lemma MessageCarried(s: SS.Snapshot, fd: int, input: SS.Input, id: Id)
    requires SS.History(s.hist, s.broker) && input.Message? && SS.WholeFrame(input.frame) && CarriedIn(s, id)
    ensures AllAligned(s.broker.clients) && CarriedIn(SS.HandleMessage(s, fd, input).1, id)
  {
    TableOfHistory(s.hist, s.broker);
    hide SS.History, CarriedFor, Close, StepRequest, Commands.Decode;
    var r := SS.HandleMessage(s, fd, input).1;
    match input.frame
    case None => QuietCarried(s.hist, s.broker, Disconnect(fd), s.wire, r.wire, id);
    case Some(m) => QuietCarried(s.hist, s.broker, Request(fd, Commands.Decode(m)), s.wire, r.wire, id);
  }

  lemma TurnCarried(s: SS.Snapshot, fd: int, input: SS.Input, id: Id)
    requires SS.Sound(s) && SS.History(s.hist, s.broker) && SS.Fits(s, fd, input) && CarriedIn(s, id)
    requires !SS.TakesHeldNumber(s, input)
    ensures CarriedIn(SS.Handle(s, fd, input).1, id)
  {
    hide SS.Sound, SS.History, CarriedIn, SS.HandleDatagram, SS.HandleArrival, SS.HandleMessage, SS.TakesHeldNumber;
    if fd == s.udp {
      DatagramCarried(s, fd, input, id);
    } else if fd == s.tcp {
      ArrivalCarried(s, input, id);
    } else {
      MessageCarried(s, fd, input, id);
    }
  }

  lemma InitCarried(udp: int, tcp: int, id: Id)
    requires SS.Sound(SS.Init(udp, tcp))
    ensures SS.Matched(SS.Init(udp, tcp)) && SS.History([], INIT) && SS.Apart(SS.Init(udp, tcp))
    ensures SS.FreeSoFar([]) && SS.Recorded([], INIT) && CarriedIn(SS.Init(udp, tcp), id)
  {
    SS.InitSound(udp, tcp);
  }

  /** Over every run in which no peer is accepted under the number of a client: the messages sent through a connected
      client's descriptor since it was accepted are, in order, those the events say were sent to the client since it
      was connected. */
  lemma {:induction false} RunCarried(udp: int, tcp: int, turns: seq<SS.Turn>, n: nat, id: Id)
    requires SS.Sound(SS.Init(udp, tcp)) && n <= |turns| && SS.Possible(SS.Init(udp, tcp), turns, n)
    requires SS.NeverTakesHeldNumber(SS.Init(udp, tcp), turns, n)
    ensures CarriedIn(SS.After(SS.Init(udp, tcp), turns, n).1, id)
  {
    hide SS.Sound, SS.Matched, SS.History, SS.Handle, SS.Fits, SS.Init, CarriedIn, SS.TakesHeldNumber;
    hide SS.Apart, SS.FreeSoFar, SS.Recorded, SS.RegistersHeldNumber;
    InitCarried(udp, tcp, id);
    StartsEmpty(udp, tcp);
    var s := SS.Init(udp, tcp);
    if n > 0 {
      RunCarried(udp, tcp, turns, n - 1, id);
      SS.NeverTakesNeverRegisters(s, turns, n - 1);
      SS.RunApartIff(s, turns, n - 1);
      TurnCarried(SS.After(s, turns, n - 1).1, turns[n - 1].fd, turns[n - 1].input, id);
    }
  }

  lemma StartsEmpty(udp: int, tcp: int)
    ensures SS.Init(udp, tcp).hist == [] && SS.Init(udp, tcp).broker == INIT
  {
  }

  // ---------- A recorded failure is a broken connection ----------

  /** Event k, the latest, is a send to the client that failed. */
  predicate JustFailed(h: seq<Event>, id: Id) {
    |h| > 0 && (LiveFails(h, |h| - 1, id) || ReplayFails(h, |h| - 1, id, DropRest))
  }

  lemma LiveFailureIsReal(h: seq<Event>, b: State, m: Udp, failing: set<Id>, id: Id)
    requires SS.History(h, b) && LiveFails(h + [Publish(m, failing)], |h|, id)
    ensures LinkAt(h, |h|, id).Up?
    ensures LinkAt(h, |h|, id).fd in MuteUpTo(b.clients, |b.clients|, TopicOf(m), failing)
  {
    var h' := h + [Publish(m, failing)];
    TraceAgrees(h, Publish(m, failing), |h|, id);
    var fd := LinkAt(h, |h|, id).fd;
    hide LinkAt, SubsAt, Waiting, Expected, Missed, Run, Legal;
    LinkHolds(h, |h|, id, fd, DropRest);
    RunIsTrace(h, |h|, id, DropRest);
    LegalRunInv(h, |h|, DropRest);
    ListeningIff(b.clients, TopicOf(m), id);
    MuteUpToAt(b.clients, |b.clients|, TopicOf(m), failing, fd);
  }

  lemma ReplayFailureIsReal(h: seq<Event>, b: State, x: Id, fd: int, accepted: nat, id: Id)
    requires SS.History(h, b) && fd > 0 && (HasFd(b.clients, fd) ==> IdConnected(b.clients, x))
    requires ReplayFails(h + [Connect(x, fd, accepted)], |h|, id, DropRest)
    ensures x == id && SS.CutShort(b.clients, x, fd, accepted) == {fd}
  {
    var e := Connect(x, fd, accepted);
    TraceAgrees(h, e, |h|, id);
    hide SubsAt, Expected, Missed, Run, Legal, Waiting;
    NeverMeansNothing(h, |h|, id, DropRest);
    RunIsTrace(h, |h|, id, DropRest);
    LegalRunInv(h, |h|, DropRest);
    var t := b.clients;
    AbsUpToAt(t, |t|, id);
    NotConnected(t, id);
    RegisterAcceptsIff(t, id, fd);
    RegisteredHolder(t, id, fd);
  }

  lemma NotConnected(t: Table, id: Id)
    requires TableOk(t)
    ensures IdConnected(t, id) <==> FindId(t, id) < |t| && t[FindId(t, id)].status.Active?
  {
    assert forall i :: 0 <= i < |t| && t[i].id == id ==> i == FindId(t, id);
  }

  /** A turn that records a failed send to a client leaves that client connected through a broken connection, both
      for a live message and for a replay that ends early. */
  lemma FailuresAreReal(s: SS.Snapshot, fd: int, input: SS.Input, id: Id)
    requires SS.Sound(s) && SS.History(s.hist, s.broker) && SS.Fits(s, fd, input)
    requires !SS.RegistersHeldNumber(s, input)
    requires var r := SS.Handle(s, fd, input).1; r.hist != s.hist && JustFailed(r.hist, id)
    ensures var r := SS.Handle(s, fd, input).1; var l := LinkAt(r.hist, |r.hist|, id);
      l.Up? && l.fd in r.wire.mute
  {
    AlignedTable(s);
    hide SS.Sound, SS.History, SS.RegistersHeldNumber;
    if fd == s.udp {
      DatagramFailure(s, fd, input, id);
    } else if fd == s.tcp {
      ArrivalFailure(s, input, id);
    } else {
      MessageFailure(s, fd, input, id);
    }
  }

  lemma DatagramFailure(s: SS.Snapshot, fd: int, input: SS.Input, id: Id)
    requires SS.Sound(s) && SS.History(s.hist, s.broker) && SS.Fits(s, fd, input) && fd == s.udp
    requires |s.buf| == MAX_SERVER_BUFLEN && AllAligned(s.broker.clients)
    requires var r := SS.HandleDatagram(s, fd, input).1; r.hist != s.hist && JustFailed(r.hist, id)
    ensures var r := SS.HandleDatagram(s, fd, input).1; var l := LinkAt(r.hist, |r.hist|, id);
      l.Up? && l.fd in r.wire.mute
  {
    hide SS.Sound, SS.History, StepPublish, Parse, Receive, MuteUpTo, SubsAt, Waiting;
    var m := Parse(if input.count > 0 then Receive(s.buf, input.bytes) else s.buf, input.addr).value;
    LiveFailureIsReal(s.hist, s.broker, m, input.failing, id);
    TraceAgrees(s.hist, Publish(m, input.failing), |s.hist|, id);
  }

  lemma ArrivalFailure(s: SS.Snapshot, input: SS.Input, id: Id)
    requires SS.History(s.hist, s.broker) && input.Arrival? && SS.WholeFrame(input.first)
    requires !SS.RegistersHeldNumber(s, input)
    requires var r := SS.HandleArrival(s, input).1; r.hist != s.hist && JustFailed(r.hist, id)
    ensures var r := SS.HandleArrival(s, input).1; var l := LinkAt(r.hist, |r.hist|, id);
      l.Up? && l.fd in r.wire.mute
  {
    hide SS.History, StepConnect, Register, Screen, SS.CutShort, SubsAt, Waiting, HasFd, SS.Drop, IdConnected;
    var x := Screen(input.first.value);
    var e := Connect(x, input.fd, input.accepted);
    DropKeepsWire(SS.Muted(SS.Apply(SS.Receives(SS.Add(s, input.fd), input.fd, input.first),
      StepConnect(s.broker, x, input.fd, input.accepted, DropRest), e),
      SS.CutShort(s.broker.clients, x, input.fd, input.accepted)), input.fd);
    assert SS.HandleArrival(s, input).1.hist == s.hist + [e];
    ReplayFailureIsReal(s.hist, s.broker, x, input.fd, input.accepted, id);
    TraceAgrees(s.hist, e, |s.hist|, id);
  }

  lemma MessageFailure(s: SS.Snapshot, fd: int, input: SS.Input, id: Id)
    requires input.Message? && SS.WholeFrame(input.frame) && AllAligned(s.broker.clients)
    ensures var r := SS.HandleMessage(s, fd, input).1; !JustFailed(r.hist, id)
  {
    hide Close, StepRequest, Commands.Decode, SubsAt, Waiting;
  }

  // ---------- Runs without broken connections ----------

  /** No connection is one on which a send has failed, after any of the first n turns. */
  ghost predicate NeverMute(s: SS.Snapshot, turns: seq<SS.Turn>, n: nat)
    requires SS.Sound(s) && n <= |turns| && SS.Possible(s, turns, n)
  {
    if n == 0 then s.wire.mute == {} else NeverMute(s, turns, n - 1) && SS.After(s, turns, n).1.wire.mute == {}
  }

  predicate NoFailure(h: seq<Event>, n: nat, id: Id)
    requires n <= |h|
  {
    NoLiveFailure(h, n, id) && NoReplayFailure(h, n, id, DropRest)
  }

  lemma FailuresAgree(h: seq<Event>, e: Event, k: nat, id: Id)
    requires k < |h|
    ensures LiveFails(h + [e], k, id) == LiveFails(h, k, id)
    ensures ReplayFails(h + [e], k, id, DropRest) == ReplayFails(h, k, id, DropRest)
  {
    hide SubsAt, LinkAt, Published, Waiting;
    TraceAgrees(h, e, k, id);
    assert (h + [e])[k] == h[k];
  }

  lemma OneMoreUnfailed(h: seq<Event>, e: Event, id: Id)
    requires NoFailure(h, |h|, id) && !JustFailed(h + [e], id)
    ensures NoFailure(h + [e], |h| + 1, id)
  {
    hide LiveFails, ReplayFails;
    forall k | 0 <= k < |h| + 1
      ensures !LiveFails(h + [e], k, id) && !ReplayFails(h + [e], k, id, DropRest)
    {
      if k < |h| {
        FailuresAgree(h, e, k, id);
      }
    }
  }

  /** A turn records at most one event. */
  lemma OneTurnEvent(s: SS.Snapshot, fd: int, input: SS.Input)
    requires SS.Sound(s) && SS.Fits(s, fd, input)
    ensures var r := SS.Handle(s, fd, input).1;
      r.hist == s.hist || (|r.hist| == |s.hist| + 1 && r.hist == s.hist + [r.hist[|s.hist|]])
  {
    hide Parse, Receive, StepPublish, StepConnect, StepRequest, Register, Close, Screen, Commands.Decode;
  }

  /** Over every run in which no peer is registered under the number of a client: as long as no send on any connection
      has failed, no failure is recorded for any client. */
  lemma {:induction false} RunUnbroken(udp: int, tcp: int, turns: seq<SS.Turn>, n: nat, id: Id)
    requires SS.Sound(SS.Init(udp, tcp)) && n <= |turns| && SS.Possible(SS.Init(udp, tcp), turns, n)
    requires SS.NeverRegistersHeldNumber(SS.Init(udp, tcp), turns, n) && NeverMute(SS.Init(udp, tcp), turns, n)
    ensures var h := SS.After(SS.Init(udp, tcp), turns, n).1.hist; NoFailure(h, |h|, id)
  {
    hide SS.Sound, SS.Matched, SS.History, SS.Handle, SS.Fits, SS.Init, CarriedIn, SS.RegistersHeldNumber;
    hide SS.Apart, SS.FreeSoFar, SS.Recorded, NoFailure, JustFailed, LinkAt;
    StartsEmpty(udp, tcp);
    if n == 0 {
      NoEvents(id);
    } else {
      RunUnbroken(udp, tcp, turns, n - 1, id);
      InitCarried(udp, tcp, id);
      SS.RunApartIff(SS.Init(udp, tcp), turns, n - 1);
      var b, t := SS.After(SS.Init(udp, tcp), turns, n - 1).1, turns[n - 1];
      OneTurnEvent(b, t.fd, t.input);
      var r := SS.Handle(b, t.fd, t.input).1;
      if r.hist != b.hist {
        if JustFailed(r.hist, id) {
          FailuresAreReal(b, t.fd, t.input, id);
        }
        OneMoreUnfailed(b.hist, r.hist[|b.hist|], id);
      }
    }
  }

  lemma NoEvents(id: Id)
    ensures NoFailure([], 0, id)
  {
  }
}
