/** The server as a value: what handling one ready descriptor does to the poll list, the broker, the receive
    buffer and the set of open descriptors, and what every run of such steps keeps. */
module ServerState {
  import opened Bytes
  import opened Utils
  import opened UdpType
  import opened ClientTable
  import opened Broker
  import opened PollVectors
  import opened TcpType
  import opened TopicMsg
  import opened Commands

  /** What the system delivers when a ready descriptor is served: a datagram, a new connection with the first
      message received on it, or a connection's next message. `None` is a receive that fails. `failing` are the
      clients to which the transport fails to send, `accepted` counts the replay sends that succeed. */
  datatype Input =
    | Datagram(count: int, bytes: seq<Byte>, addr: Addr, failing: set<Id>)
    | Arrival(fd: int, first: Option<seq<Byte>>, accepted: nat)
    | Message(frame: Option<seq<Byte>>)

  /** `opens` and `closes` count how often the system handed out and took back each descriptor; `hist` is the
      run of broker events so far; `wire` is what the connections carried. */
  datatype Snapshot = Snapshot(udp: int, tcp: int, poll: seq<int>, broker: State, buf: seq<Byte>,
                               live: set<int>, opens: multiset<int>, closes: multiset<int>,
                               hist: seq<Event>, wire: Wire)

  const STDIN := 0

  function Init(udp: int, tcp: int): Snapshot {
    Snapshot(udp, tcp, [STDIN, udp, tcp], INIT, Zeros(MAX_SERVER_BUFLEN),
             {STDIN, udp, tcp}, multiset{STDIN, udp, tcp}, multiset{}, [], Wire(map[], {}, {}, map[]))
  }

  // ---------- One ready descriptor ----------

  /** poll_vec_remove_fd: closes the descriptor and drops its entry. */
  function Drop(s: Snapshot, fd: int): Snapshot {
    var i := IndexOf(s.poll, fd);
    if i == |s.poll| then s
    else s.(poll := RemoveAt(s.poll, i), live := s.live - {fd}, closes := s.closes + multiset{fd})
  }

  function Add(s: Snapshot, fd: int): Snapshot {
    s.(poll := s.poll + [fd], live := s.live + {fd}, opens := s.opens + multiset{fd},
       wire := Accepted(s.wire, fd, |s.broker.sent|))
  }

  function Apply(s: Snapshot, b: State, e: Event): Snapshot {
    s.(broker := b, hist := s.hist + [e])
  }

  function Muted(s: Snapshot, fds: set<int>): Snapshot {
    s.(wire := s.wire.(mute := s.wire.mute + fds))
  }

  function Receives(s: Snapshot, fd: int, frame: Option<seq<Byte>>): Snapshot {
    s.(wire := Received(s.wire, fd, frame))
  }

  predicate WholeFrame(frame: Option<seq<Byte>>) {
    frame.Some? ==> |frame.value| == TCP_MSG_SIZE
  }

  predicate Fits(s: Snapshot, fd: int, input: Input) {
    && IndexOf(s.poll, fd) < |s.poll|
    && if fd == s.udp then
         input.Datagram? && |input.bytes| <= |s.buf| && (input.count > 0 ==> |input.bytes| == input.count)
       else if fd == s.tcp then
         input.Arrival? && WholeFrame(input.first) && (input.fd > 0 ==> input.fd !in s.live)
       else
         input.Message? && WholeFrame(input.frame) && (input.frame.Some? ==> fd !in s.wire.deaf)
  }

  /** Logs and transmits what the receive buffer holds, or refuses its type. */
  function Publishes(s: Snapshot, addr: Addr, failing: set<Id>): (Err, Snapshot)
    requires |s.buf| == MAX_SERVER_BUFLEN && AllAligned(s.broker.clients)
  {
    match Parse(s.buf, addr)
    case None => (UDP_UNKNOWN_DATA_TYPE, s)
    case Some(m) =>
      var t := s.broker.clients;
      (OK, Muted(Apply(s, StepPublish(s.broker, m, failing), Publish(m, failing)),
                 MuteUpTo(t, |t|, TopicOf(m), failing)))
  }

  function HandleDatagram(s: Snapshot, fd: int, input: Input): (Err, Snapshot)
    requires input.Datagram? && |input.bytes| <= |s.buf| == MAX_SERVER_BUFLEN && AllAligned(s.broker.clients)
  {
    if input.count == 0 then (OK, Drop(s, fd))
    else Publishes(s.(buf := if input.count > 0 then Receive(s.buf, input.bytes) else s.buf), input.addr, input.failing)
  }

  /** The descriptor of a client whose replay ends early. */
  function CutShort(t: Table, id: Id, fd: int, accepted: nat): set<int> {
    var (err, r) := Register(t, id, fd);
    if err == OK && accepted < |QueueOn(r, fd)| then {fd} else {}
  }

  /** A peer that identified itself: registered and replayed to, or dropped if its id is in use. */
  function Welcomed(s: Snapshot, fd: int, id: Id, accepted: nat): Snapshot {
    var t := s.broker.clients;
    var r := Muted(Apply(s, StepConnect(s.broker, id, fd, accepted, DropRest), Connect(id, fd, accepted)),
                   CutShort(t, id, fd, accepted));
    if Register(t, id, fd).0 == OK then r else Drop(r, fd)
  }

  function HandleArrival(s: Snapshot, input: Input): (Err, Snapshot)
    requires input.Arrival? && WholeFrame(input.first)
  {
    if input.fd <= 0 then (SERVER_FAILED_ACCEPT_TCP, s)
    else
      var r := Receives(Add(s, input.fd), input.fd, input.first);
      match input.first
      case None => (SERVER_COULD_NOT_CONNECT_NEW_CLIENT, r)
      case Some(m) => (OK, Welcomed(r, input.fd, Screen(m), input.accepted))
  }

  /** A client whose connection failed: marked absent and unlisted. */
  function HangUp(s: Snapshot, fd: int): Snapshot {
    var (err, t) := Close(s.broker.clients, fd);
    var r := Apply(s, s.broker.(clients := t), Disconnect(fd));
    if err == OK then Drop(r, fd) else r
  }

  /** A client's request, applied to its own subscriptions. */
  function Answer(s: Snapshot, fd: int, cmd: Command): Snapshot
    requires AllAligned(s.broker.clients)
  {
    Apply(s, s.broker.(clients := StepRequest(s.broker.clients, fd, cmd).1), Request(fd, cmd))
  }

  function HandleMessage(s: Snapshot, fd: int, input: Input): (Err, Snapshot)
    requires input.Message? && WholeFrame(input.frame) && AllAligned(s.broker.clients)
  {
    var w := Receives(s, fd, input.frame);
    match input.frame
    case None => (OK, HangUp(w, fd))
    case Some(m) => (OK, Answer(w, fd, Decode(m)))
  }

  /** One turn of the event loop, for the descriptor it finds ready. */
  ghost function Handle(s: Snapshot, fd: int, input: Input): (Err, Snapshot)
    requires Sound(s) && Fits(s, fd, input)
  {
    if fd == s.udp then HandleDatagram(s, fd, input)
    else if fd == s.tcp then HandleArrival(s, input)
    else HandleMessage(s, fd, input)
  }

  // ---------- What every run keeps ----------

  /** Holds on every run: the poll list is the set of open descriptors, without repetition, and every descriptor
      ever handed out has been closed or is still listed. */
  ghost predicate Sound(s: Snapshot) {
    && 0 < s.udp && 0 < s.tcp && s.udp != s.tcp
    && |s.buf| == MAX_SERVER_BUFLEN
    && |s.poll| > 0 && s.poll[0] == STDIN
    && Distinct(s.poll)
    && (forall i :: 0 <= i < |s.poll| ==> s.poll[i] in s.live && s.poll[i] >= 0)
    && (forall x :: x in s.live ==> IndexOf(s.poll, x) < |s.poll|)
    && (forall x :: s.opens[x] == s.closes[x] + if x in s.live then 1 else 0)
    && s.tcp in s.live
    && (forall x :: x in s.live && x != STDIN && x != s.udp && x != s.tcp ==> x in s.wire.heard)
    && TableOk(s.broker.clients)
  }

  /** The clients' descriptors are exactly the listed ones that are not the server's own, and the broker's state
      is that of a legal run of events. */
  ghost predicate Matched(s: Snapshot) {
    && (forall x :: x != STDIN && x != s.udp && x != s.tcp ==> (x in s.live <==> HasFd(s.broker.clients, x)))
    && !HasFd(s.broker.clients, STDIN) && !HasFd(s.broker.clients, s.udp) && !HasFd(s.broker.clients, s.tcp)
    && History(s.hist, s.broker)
  }

  /** The system hands the number of the datagram socket, closed earlier by an empty datagram, to a new client
      whose id is not in use. */
  predicate TakesUdpNumber(s: Snapshot, input: Input) {
    && input.Arrival? && WholeFrame(input.first) && input.fd == s.udp && input.first.Some?
    && !IdConnected(s.broker.clients, Screen(input.first.value))
  }

  // ---------- The poll list ----------

  lemma PollMember(s: Snapshot, i: nat)
    requires Sound(s) && i < |s.poll|
    ensures IndexOf(s.poll, s.poll[i]) == i
  {
  }

  lemma DropSound(s: Snapshot, fd: int)
    requires Sound(s) && fd in s.live && fd != STDIN && fd != s.tcp
    ensures Sound(Drop(s, fd))
    ensures Drop(s, fd).live == s.live - {fd}
  {
    var r := Drop(s, fd);
    var k := IndexOf(s.poll, fd);
    forall x | x in r.live
      ensures IndexOf(r.poll, x) < |r.poll|
    {
      var i := IndexOf(s.poll, x);
      assert r.poll[if i < k then i else i - 1] == x;
    }
  }

  lemma AddSound(s: Snapshot, fd: int)
    requires Sound(s) && fd !in s.live && fd >= 0
    ensures Sound(Add(s, fd))
  {
    var r := Add(s, fd);
    forall x | x in r.live
      ensures IndexOf(r.poll, x) < |r.poll|
    {
      if x == fd {
        assert r.poll[|s.poll|] == x;
      } else {
        assert r.poll[IndexOf(s.poll, x)] == x;
      }
    }
  }

  lemma ApplySound(s: Snapshot, b: State, e: Event)
    requires Sound(s) && TableOk(b.clients)
    ensures Sound(Apply(s, b, e))
  {
  }

  lemma ReceivesSound(s: Snapshot, fd: int, frame: Option<seq<Byte>>)
    requires Sound(s)
    ensures Sound(Receives(s, fd, frame))
  {
  }

  /** A listed descriptor that is not the server's own is a connection. */
  lemma ListedIsConnection(s: Snapshot, fd: int)
    requires Sound(s) && IndexOf(s.poll, fd) < |s.poll| && fd != STDIN && fd != s.udp && fd != s.tcp
    ensures fd in s.wire.heard && fd >= 0
  {
  }

  lemma DropAdded(s: Snapshot, fd: int)
    requires Sound(s) && fd !in s.live
    ensures Drop(Add(s, fd), fd) == s.(opens := s.opens + multiset{fd}, closes := s.closes + multiset{fd},
      wire := Accepted(s.wire, fd, |s.broker.sent|))
  {
    var r := Add(s, fd);
    assert forall i :: 0 <= i < |s.poll| ==> r.poll[i] == s.poll[i] != fd;
    assert r.poll[|s.poll|] == fd;
    assert IndexOf(r.poll, fd) == |s.poll|;
    assert RemoveAt(r.poll, |s.poll|) == s.poll;
    assert r.live - {fd} == s.live;
  }

  /** Whatever the system delivers, the poll list stays the set of open descriptors. */
  lemma HandleSound(s: Snapshot, fd: int, input: Input)
    requires Sound(s) && Fits(s, fd, input) && fd != STDIN
    ensures Sound(Handle(s, fd, input).1)
  {
    assert fd in s.live;
    if fd == s.udp {
      DatagramSound(s, fd, input);
    } else if fd == s.tcp {
      ArrivalSound(s, input);
    } else {
      MessageSound(s, fd, input);
    }
  }

  lemma DatagramSound(s: Snapshot, fd: int, input: Input)
    requires Sound(s) && Fits(s, fd, input) && fd == s.udp && fd in s.live
    ensures Sound(HandleDatagram(s, fd, input).1)
  {
    if input.count == 0 {
      DropSound(s, fd);
    } else {
      var buf := if input.count > 0 then Receive(s.buf, input.bytes) else s.buf;
      var m := Parse(buf, input.addr);
      if m.Some? {
        OfferKeeps(s.broker.clients, |s.broker.clients|, TopicOf(m.value), |s.broker.log|);
      }
    }
  }

  lemma ArrivalSound(s: Snapshot, input: Input)
    requires Sound(s) && input.Arrival? && WholeFrame(input.first) && (input.fd > 0 ==> input.fd !in s.live)
    ensures Sound(HandleArrival(s, input).1)
  {
    hide Sound, Screen, Add, Receives, Welcomed;
    var fd := input.fd;
    if fd > 0 {
      AddSound(s, fd);
      AddedIs(s, fd);
      ReceivesSound(Add(s, fd), fd, input.first);
      if input.first.Some? {
        WelcomedSound(Receives(Add(s, fd), fd, input.first), fd, Screen(input.first.value), input.accepted);
      }
    }
  }

  lemma AddedIs(s: Snapshot, fd: int)
    requires Sound(s) && fd > 0 && fd !in s.live
    ensures var r := Receives(Add(s, fd), fd, None); fd in r.live && fd != r.tcp
    ensures forall frame :: Receives(Add(s, fd), fd, frame).live == s.live + {fd}
    ensures forall frame :: Receives(Add(s, fd), fd, frame).tcp == s.tcp != fd
  {
  }

  lemma WelcomedSound(s: Snapshot, fd: int, id: Id, accepted: nat)
    requires Sound(s) && fd > 0 && fd in s.live && fd != s.tcp
    ensures Sound(Welcomed(s, fd, id, accepted))
  {
    var b := StepConnect(s.broker, id, fd, accepted, DropRest);
    ConnectKeepsTable(s, id, fd, accepted);
    ApplySound(s, b, Connect(id, fd, accepted));
    hide StepConnect, Register, CutShort, Drop;
    var r := Muted(Apply(s, b, Connect(id, fd, accepted)), CutShort(s.broker.clients, id, fd, accepted));
    MutedSound(Apply(s, b, Connect(id, fd, accepted)), CutShort(s.broker.clients, id, fd, accepted));
    DropSound(r, fd);
  }

  lemma ConnectKeepsTable(s: Snapshot, id: Id, fd: int, accepted: nat)
    requires Sound(s) && fd > 0
    ensures TableOk(StepConnect(s.broker, id, fd, accepted, DropRest).clients)
  {
    hide StepConnect;
    ConnectKeeps(s.broker, id, fd, accepted, DropRest);
  }

  lemma MutedSound(s: Snapshot, fds: set<int>)
    requires Sound(s)
    ensures Sound(Muted(s, fds))
  {
  }

  lemma MessageSound(s: Snapshot, fd: int, input: Input)
    requires Sound(s) && Fits(s, fd, input) && fd != s.udp && fd != s.tcp && fd != STDIN && fd in s.live
    ensures Sound(HandleMessage(s, fd, input).1)
  {
    var t := s.broker.clients;
    var w := Receives(s, fd, input.frame);
    match input.frame
    case None =>
      CloseKeeps(t, fd);
      DropSound(w.(broker := s.broker.(clients := Close(t, fd).1), hist := s.hist + [Disconnect(fd)]), fd);
    case Some(m) =>
      RequestKeeps(t, fd, Decode(m));
  }

  // ---------- Datagrams ----------

  /** What the receive buffer holds after a turn. */
  function BufferAfterTurn(s: Snapshot, input: Input): seq<Byte>
    requires input.Datagram? && |input.bytes| <= |s.buf|
  {
    if input.count > 0 then Receive(s.buf, input.bytes) else s.buf
  }

  /** A turn for a datagram logs and publishes exactly one message, what the buffer then holds under the sender
      delivered, if its type byte is a known one; if not, it fails and records nothing. */
  lemma DatagramPublished(s: Snapshot, fd: int, input: Input)
    requires Sound(s) && Fits(s, fd, input) && fd == s.udp && input.count != 0
    ensures |s.buf| == MAX_SERVER_BUFLEN && TableOk(s.broker.clients)
    ensures var (err, r) := Handle(s, fd, input); var buf := BufferAfterTurn(s, input);
      && r.buf == buf && (Parse(buf, input.addr).Some? <==> buf[50] <= 3)
      && match Parse(buf, input.addr)
         case Some(m) =>
           && err == OK && r.hist == s.hist + [Publish(m, input.failing)] && r.broker.log == s.broker.log + [m]
           && r.broker == Step(s.broker, Publish(m, input.failing), DropRest)
         case None => err == UDP_UNKNOWN_DATA_TYPE && r.hist == s.hist && r.broker == s.broker
  {
    hide StepConnect, StepRequest, OfferUpTo, LiveUpTo, MuteUpTo, Receive, PayloadOf;
  }

  /** A turn fails for three reasons only: a datagram of unknown type, a failed accept, and a new connection that does
      not identify itself. */
  lemma TurnResult(s: Snapshot, fd: int, input: Input)
    requires Sound(s) && Fits(s, fd, input)
    ensures Handle(s, fd, input).0 == match input
      case Datagram(count, _, _, _) =>
        if count != 0 && BufferAfterTurn(s, input)[50] > 3 then UDP_UNKNOWN_DATA_TYPE else OK
      case Arrival(x, first, _) =>
        if x <= 0 then SERVER_FAILED_ACCEPT_TCP
        else if first.None? then SERVER_COULD_NOT_CONNECT_NEW_CLIENT else OK
      case Message(_) => OK
  {
    hide StepConnect, StepRequest, StepPublish, Register, Receive, PayloadOf, Welcomed, HangUp;
  }

  /** A turn for anything else logs nothing. */
  lemma OthersLogNothing(s: Snapshot, fd: int, input: Input)
    requires Sound(s) && Fits(s, fd, input) && !(input.Datagram? && input.count != 0)
    ensures Handle(s, fd, input).1.broker.log == s.broker.log
  {
    hide StepRequest, Register, Close, Retransmit, Screen, Decode;
    if fd == s.tcp && input.fd > 0 && input.first.Some? {
      ConnectKeepsLog(s.broker, Screen(input.first.value), input.fd, input.accepted);
    }
  }

  lemma ConnectKeepsLog(b: State, id: Id, fd: int, accepted: nat)
    ensures StepConnect(b, id, fd, accepted, DropRest).log == b.log
  {
  }

  // ---------- Clients and descriptors ----------

  ghost predicate History(h: seq<Event>, b: State) {
    EventsOk(h) && Legal(h, |h|, DropRest) && b == Run(h, |h|, DropRest)
  }

  /** An event that the broker's rules allow extends a legal run. */
  lemma HistoryExtends(h: seq<Event>, b: State, e: Event)
    requires History(h, b) && EventOk(e) && Fresh(b.clients, e)
    ensures Inv(b.clients)
    ensures History(h + [e], Step(b, e, DropRest))
  {
    hide StepOf;
    var n, h' := |h|, h + [e];
    LegalRunInv(h, n, DropRest);
    assert h'[n] == e && forall k :: 0 <= k < n ==> h'[k] == h[k];
    RunAgrees(h, h', n, DropRest);
    LegalAgrees(h, h', n, DropRest);
  }

  lemma DatagramMatched(s: Snapshot, fd: int, input: Input)
    requires Sound(s) && Matched(s) && Fits(s, fd, input) && fd == s.udp
    ensures Matched(HandleDatagram(s, fd, input).1)
  {
    hide History, StepPublish, HasFd, Parse, Receive;
    if input.count != 0 {
      var buf := if input.count > 0 then Receive(s.buf, input.bytes) else s.buf;
      var m := Parse(buf, input.addr);
      if m.Some? {
        HistoryExtends(s.hist, s.broker, Publish(m.value, input.failing));
        forall x
          ensures HasFd(StepPublish(s.broker, m.value, input.failing).clients, x) <==> HasFd(s.broker.clients, x)
        {
          PublishHasFd(s.broker, m.value, input.failing, x);
        }
      }
    }
  }

  lemma ArrivalMatchedIff(s: Snapshot, input: Input)
    requires Sound(s) && Matched(s) && input.Arrival? && WholeFrame(input.first)
    requires input.fd > 0 ==> input.fd !in s.live
    requires HandleArrival(s, input).0 == OK
    ensures Matched(HandleArrival(s, input).1) <==> !TakesUdpNumber(s, input)
  {
    hide History, StepConnect, HasFd, Register, Screen, CutShort, IdConnected;
    var fd, id, b := input.fd, Screen(input.first.value), s.broker;
    RegisterAcceptsIff(b.clients, id, fd);
    var b' := StepConnect(b, id, fd, input.accepted, DropRest);
    HistoryExtends(s.hist, s.broker, Connect(id, fd, input.accepted));
    forall x
      ensures HasFd(b'.clients, x) <==> HasFd(b.clients, x) || (x == fd && Register(b.clients, id, fd).0 == OK)
    {
      ConnectHasFd(b, id, fd, input.accepted, DropRest, x);
    }
    DropAdded(s, fd);
  }

  lemma MessageMatched(s: Snapshot, fd: int, input: Input)
    requires Sound(s) && Matched(s) && Fits(s, fd, input) && fd != STDIN && fd != s.udp && fd != s.tcp && fd in s.live
    ensures Matched(HandleMessage(s, fd, input).1)
  {
    hide History, HasFd, Close, StepRequest, Decode;
    var t := s.broker.clients;
    match input.frame
    case None =>
      HistoryExtends(s.hist, s.broker, Disconnect(fd));
      CloseHasFd(t, fd, fd);
      forall x
        ensures HasFd(Close(t, fd).1, x) <==> HasFd(t, x) && x != fd
      {
        CloseHasFd(t, fd, x);
      }
    case Some(m) =>
      var cmd := Decode(m);
      HistoryExtends(s.hist, s.broker, Request(fd, cmd));
      forall x
        ensures HasFd(StepRequest(t, fd, cmd).1, x) <==> HasFd(t, x)
      {
        RequestHasFd(t, fd, cmd, x);
      }
  }

  /** A turn that returns OK keeps clients and listed descriptors in one-to-one correspondence exactly when it
      does not register a client under the number of the closed datagram socket. */
  lemma MatchedKeptIff(s: Snapshot, fd: int, input: Input)
    requires Sound(s) && Matched(s) && Fits(s, fd, input) && fd != STDIN
    requires Handle(s, fd, input).0 == OK
    ensures Matched(Handle(s, fd, input).1) <==> !TakesUdpNumber(s, input)
  {
    assert fd in s.live;
    if fd == s.udp {
      DatagramMatched(s, fd, input);
    } else if fd == s.tcp {
      ArrivalMatchedIff(s, input);
    } else {
      MessageMatched(s, fd, input);
    }
  }

  /** While the correspondence holds, a client's message always finds its client. */
  lemma ClientAlwaysFound(s: Snapshot, fd: int, cmd: Command)
    requires Sound(s) && Matched(s) && IndexOf(s.poll, fd) < |s.poll|
    requires fd != STDIN && fd != s.udp && fd != s.tcp
    ensures Close(s.broker.clients, fd).0 == OK
    ensures StepRequest(s.broker.clients, fd, cmd).0 ==
      match cmd
      case Subscribe(_, _) => OK
      case Unsubscribe(topic) =>
        if Subscribed(s.broker.clients[FindFd(s.broker.clients, fd)], topic) then OK
        else CLIENTS_VEC_COUND_NOT_FIND_TOPIC
      case UnknownCommand => SERVER_UNKNOWN_COMMAND
  {
    LegalRunInv(s.hist, |s.hist|, DropRest);
    CloseHasFd(s.broker.clients, fd, fd);
  }

  // ---------- Whole runs ----------

  /** A served descriptor and what the system delivered for it. */
  datatype Turn = Turn(fd: int, input: Input)

  /** The first n turns are possible: each serves a listed descriptor other than stdin, and only the last may
      return an error. */
  ghost predicate Possible(s: Snapshot, turns: seq<Turn>, n: nat)
    requires Sound(s) && n <= |turns|
    decreases n, 0
  {
    n == 0 ||
    (Possible(s, turns, n - 1)
     && After(s, turns, n - 1).0 == OK
     && turns[n - 1].fd != STDIN
     && Fits(After(s, turns, n - 1).1, turns[n - 1].fd, turns[n - 1].input))
  }

  /** The result of the last of the first n turns, and the server after it. */
  ghost function After(s: Snapshot, turns: seq<Turn>, n: nat): (r: (Err, Snapshot))
    requires Sound(s) && n <= |turns| && Possible(s, turns, n)
    ensures Sound(r.1)
    decreases n, 1
  {
    if n == 0 then (OK, s)
    else
      var before := After(s, turns, n - 1).1;
      HandleSound(before, turns[n - 1].fd, turns[n - 1].input);
      Handle(before, turns[n - 1].fd, turns[n - 1].input)
  }

  lemma BeforeTurns(s: Snapshot, turns: seq<Turn>)
    requires Sound(s)
    ensures Possible(s, turns, 0) && After(s, turns, 0) == (OK, s)
  {
    hide Sound, Handle, Fits;
  }

  /** The last of the first n turns. */
  lemma LastTurn(s: Snapshot, turns: seq<Turn>, n: nat)
    requires Sound(s) && 0 < n <= |turns| && Possible(s, turns, n)
    ensures Possible(s, turns, n - 1)
    ensures var b, t := After(s, turns, n - 1).1, turns[n - 1];
      Sound(b) && Fits(b, t.fd, t.input) && After(s, turns, n) == Handle(b, t.fd, t.input)
  {
    hide Sound, Handle, Fits;
  }

  /** Later turns do not change what the first n turns did. */
  lemma {:induction false} TurnsAgree(s: Snapshot, a: seq<Turn>, b: seq<Turn>, n: nat)
    requires Sound(s) && n <= |a| && n <= |b| && Possible(s, a, n)
    requires forall k :: 0 <= k < n ==> a[k] == b[k]
    ensures Possible(s, b, n) && After(s, b, n) == After(s, a, n)
  {
    hide Sound, Handle, Fits;
    if n > 0 {
      TurnsAgree(s, a, b, n - 1);
    }
  }

  lemma NoTurns(s: Snapshot)
    requires Sound(s)
    ensures Possible(s, [], 0) && After(s, [], 0) == (OK, s)
  {
  }

  /** One more turn after a run of turns that returned OK. */
  lemma TurnsExtend(s: Snapshot, turns: seq<Turn>, t: Turn)
    requires Sound(s) && Possible(s, turns, |turns|) && After(s, turns, |turns|).0 == OK
    requires t.fd != STDIN && Fits(After(s, turns, |turns|).1, t.fd, t.input)
    ensures Possible(s, turns + [t], |turns| + 1)
    ensures After(s, turns + [t], |turns| + 1) == Handle(After(s, turns, |turns|).1, t.fd, t.input)
  {
    hide Sound, Handle, Fits;
    var r := turns + [t];
    assert r[|turns|] == t;
    TurnsAgree(s, turns, r, |turns|);
  }

  /** The first n turns are possible and lead to a result and a server. */
  ghost predicate Reaches(s: Snapshot, turns: seq<Turn>, n: nat, err: Err, r: Snapshot) {
    Sound(s) && n <= |turns| && Possible(s, turns, n) && After(s, turns, n) == (err, r)
  }

  /** Runs of turns compose: where one run ends, another may begin. */
  lemma {:induction false} TurnsConcat(s: Snapshot, a: seq<Turn>, b: Snapshot, c: seq<Turn>, n: nat,
                                       err: Err, r: Snapshot)
    requires Reaches(s, a, |a|, OK, b) && Reaches(b, c, n, err, r)
    ensures Reaches(s, a + c, |a| + n, err, r)
  {
    hide Sound, Handle, Fits, Possible, After;
    if n == 0 {
      BeforeTurns(b, c);
      TurnsAgree(s, a, a + c, |a|);
    } else {
      LastTurn(b, c, n);
      StillOk(b, c, n);
      var mid := After(b, c, n - 1).1;
      TurnsConcat(s, a, b, c, n - 1, OK, mid);
      assert (a + c)[|a| + n - 1] == c[n - 1];
      NextTurn(s, a + c, |a| + n - 1, c[n - 1]);
    }
  }

  /** Only the last of the turns may fail, and none serves stdin. */
  lemma StillOk(s: Snapshot, turns: seq<Turn>, n: nat)
    requires Sound(s) && 0 < n <= |turns| && Possible(s, turns, n)
    ensures Possible(s, turns, n - 1) && After(s, turns, n - 1).0 == OK && turns[n - 1].fd != STDIN
  {
    hide Sound, Handle, Fits;
  }

  lemma NextTurn(s: Snapshot, turns: seq<Turn>, n: nat, t: Turn)
    requires Sound(s) && n < |turns| && turns[n] == t && Possible(s, turns, n) && After(s, turns, n).0 == OK
    requires t.fd != STDIN && Fits(After(s, turns, n).1, t.fd, t.input)
    ensures Possible(s, turns, n + 1)
    ensures After(s, turns, n + 1) == Handle(After(s, turns, n).1, t.fd, t.input)
  {
    hide Sound, Handle, Fits;
  }

  ghost predicate NeverTakesUdpNumber(s: Snapshot, turns: seq<Turn>, n: nat)
    requires Sound(s) && n <= |turns| && Possible(s, turns, n)
  {
    n == 0 ||
    (NeverTakesUdpNumber(s, turns, n - 1) && !TakesUdpNumber(After(s, turns, n - 1).1, turns[n - 1].input))
  }

  lemma InitSound(udp: int, tcp: int)
    requires 0 < udp && 0 < tcp && udp != tcp
    ensures Sound(Init(udp, tcp)) && Matched(Init(udp, tcp))
  {
    var s := Init(udp, tcp);
    assert s.poll[0] == STDIN && s.poll[1] == udp && s.poll[2] == tcp;
    assert s.broker == Run([], 0, DropRest);
  }

  /** Clients and listed descriptors correspond after each of the first n turns, and before the first. */
  ghost predicate MatchedThroughout(s: Snapshot, turns: seq<Turn>, n: nat)
    requires Sound(s) && n <= |turns| && Possible(s, turns, n)
  {
    if n == 0 then Matched(s) else MatchedThroughout(s, turns, n - 1) && Matched(After(s, turns, n).1)
  }

  /** Over every run, clients and their listed descriptors correspond one to one throughout exactly if no client is
      registered under the number of the closed datagram socket. */
  lemma {:induction false} RunMatchedIff(s: Snapshot, turns: seq<Turn>, n: nat)
    requires Sound(s) && Matched(s) && n <= |turns| && Possible(s, turns, n) && After(s, turns, n).0 == OK
    ensures MatchedThroughout(s, turns, n) <==> NeverTakesUdpNumber(s, turns, n)
  {
    hide Matched, Sound, Handle, Fits;
    if n > 0 {
      RunMatchedIff(s, turns, n - 1);
      if MatchedThroughout(s, turns, n - 1) {
        MatchedKeptIff(After(s, turns, n - 1).1, turns[n - 1].fd, turns[n - 1].input);
      }
    }
  }

  // ---------- The history of a run ----------

  /** The broker's state is that of the events so far, legal or not. */
  ghost predicate Recorded(h: seq<Event>, b: State) {
    EventsOk(h) && b == Run(h, |h|, DropRest)
  }

  ghost predicate LegalSoFar(h: seq<Event>) {
    EventsOk(h) && Legal(h, |h|, DropRest)
  }

  lemma HistoryIs(h: seq<Event>, b: State)
    ensures History(h, b) <==> Recorded(h, b) && LegalSoFar(h)
  {
  }

  /** No number of a client has been handed out. */
  ghost predicate FreeSoFar(h: seq<Event>) {
    EventsOk(h) && NumbersFree(h, |h|, DropRest)
  }

  lemma RecordedExtends(h: seq<Event>, b: State, e: Event)
    requires Recorded(h, b) && EventOk(e)
    ensures TableOk(b.clients) && Recorded(h + [e], Step(b, e, DropRest))
    ensures LegalSoFar(h + [e]) <==> LegalSoFar(h) && Fresh(b.clients, e)
    ensures FreeSoFar(h + [e]) <==> FreeSoFar(h) && NumberFree(b.clients, e)
  {
    hide StepOf, Fresh, NumberFree;
    var n, h' := |h|, h + [e];
    assert h'[n] == e && forall k :: 0 <= k < n ==> h'[k] == h[k];
    RunAgrees(h, h', n, DropRest);
    LegalAgrees(h, h', n, DropRest);
    FreeAgrees(h, h', n, DropRest);
  }

  /** The system hands out a number under which the table still holds a client. */
  predicate TakesHeldNumber(s: Snapshot, input: Input) {
    input.Arrival? && input.fd > 0 && HasFd(s.broker.clients, input.fd)
  }

  /** And the peer accepted under it is registered, as its id is not in use. */
  predicate RegistersHeldNumber(s: Snapshot, input: Input) {
    && TakesHeldNumber(s, input) && input.first.Some? && WholeFrame(input.first)
    && !IdConnected(s.broker.clients, Screen(input.first.value))
  }

  /** What a turn records: at most one event, and its effect on the broker. */
  predicate Records(s: Snapshot, input: Input, r: Snapshot, e: Option<Event>)
    requires TableOk(s.broker.clients)
  {
    match e
    case None => r.hist == s.hist && r.broker == s.broker && !RegistersHeldNumber(s, input)
    case Some(ev) =>
      && EventOk(ev) && r.hist == s.hist + [ev] && r.broker == Step(s.broker, ev, DropRest)
      && (Fresh(s.broker.clients, ev) <==> !RegistersHeldNumber(s, input))
      && (!TakesHeldNumber(s, input) ==> NumberFree(s.broker.clients, ev))
  }

  lemma DatagramRecords(s: Snapshot, fd: int, input: Input) returns (e: Option<Event>)
    requires Sound(s) && Fits(s, fd, input) && fd == s.udp
    ensures TableOk(s.broker.clients) && Records(s, input, HandleDatagram(s, fd, input).1, e)
  {
    hide StepPublish, Parse, Receive, HasFd, IdConnected;
    var m := Parse(if input.count > 0 then Receive(s.buf, input.bytes) else s.buf, input.addr);
    e := if input.count == 0 || m.None? then None else Some(Publish(m.value, input.failing));
  }

  lemma ArrivalRecords(s: Snapshot, input: Input) returns (e: Option<Event>)
    requires Sound(s) && input.Arrival? && WholeFrame(input.first)
    ensures TableOk(s.broker.clients) && Records(s, input, HandleArrival(s, input).1, e)
  {
    hide StepConnect, HasFd, Register, Screen, CutShort, IdConnected;
    e := if input.fd <= 0 || input.first.None? then None
         else Some(Connect(Screen(input.first.value), input.fd, input.accepted));
  }

  lemma MessageRecords(s: Snapshot, fd: int, input: Input) returns (e: Option<Event>)
    requires Sound(s) && input.Message? && WholeFrame(input.frame)
    ensures TableOk(s.broker.clients) && Records(s, input, HandleMessage(s, fd, input).1, e)
  {
    hide Close, StepRequest, Decode, HasFd, IdConnected;
    e := Some(if input.frame.None? then Disconnect(fd) else Request(fd, Decode(input.frame.value)));
  }

  lemma TurnRecords(s: Snapshot, fd: int, input: Input) returns (e: Option<Event>)
    requires Sound(s) && Fits(s, fd, input)
    ensures TableOk(s.broker.clients) && Records(s, input, Handle(s, fd, input).1, e)
  {
    hide Records, HandleDatagram, HandleArrival, HandleMessage;
    if fd == s.udp {
      e := DatagramRecords(s, fd, input);
    } else if fd == s.tcp {
      e := ArrivalRecords(s, input);
    } else {
      e := MessageRecords(s, fd, input);
    }
  }

  /** Every turn keeps the record of events, and keeps it legal exactly if it does not register a peer under the
      number of a client. */
  lemma TurnRecorded(s: Snapshot, fd: int, input: Input)
    requires Sound(s) && Recorded(s.hist, s.broker) && Fits(s, fd, input)
    ensures var r := Handle(s, fd, input).1;
      && Recorded(r.hist, r.broker)
      && (LegalSoFar(r.hist) <==> LegalSoFar(s.hist) && !RegistersHeldNumber(s, input))
      && (FreeSoFar(s.hist) && !TakesHeldNumber(s, input) ==> FreeSoFar(r.hist))
  {
    hide Sound, Handle, Fits, Recorded, LegalSoFar, FreeSoFar, Fresh, NumberFree, TakesHeldNumber, RegistersHeldNumber;
    var e := TurnRecords(s, fd, input);
    if e.Some? {
      RecordedExtends(s.hist, s.broker, e.value);
    }
  }

  /** No two connected clients share a descriptor. */
  predicate Apart(s: Snapshot) {
    Inv(s.broker.clients)
  }

  /** Every turn keeps connected clients apart exactly if it does not register a peer under the number of one. */
  lemma TurnApartIff(s: Snapshot, fd: int, input: Input)
    requires Sound(s) && Apart(s) && Fits(s, fd, input)
    ensures Apart(Handle(s, fd, input).1) <==> !RegistersHeldNumber(s, input)
  {
    hide Sound, Handle, Fits, Inv, Fresh, NumberFree, TakesHeldNumber, RegistersHeldNumber;
    var e := TurnRecords(s, fd, input);
    if e.Some? {
      StepInvIff(s.broker, e.value, DropRest);
    }
  }

  ghost predicate NeverTakesHeldNumber(s: Snapshot, turns: seq<Turn>, n: nat)
    requires Sound(s) && n <= |turns| && Possible(s, turns, n)
  {
    n == 0 ||
    (NeverTakesHeldNumber(s, turns, n - 1) && !TakesHeldNumber(After(s, turns, n - 1).1, turns[n - 1].input))
  }

  ghost predicate NeverRegistersHeldNumber(s: Snapshot, turns: seq<Turn>, n: nat)
    requires Sound(s) && n <= |turns| && Possible(s, turns, n)
  {
    n == 0 ||
    (NeverRegistersHeldNumber(s, turns, n - 1) && !RegistersHeldNumber(After(s, turns, n - 1).1, turns[n - 1].input))
  }

  lemma {:induction false} NeverTakesNeverRegisters(s: Snapshot, turns: seq<Turn>, n: nat)
    requires Sound(s) && n <= |turns| && Possible(s, turns, n) && NeverTakesHeldNumber(s, turns, n)
    ensures NeverRegistersHeldNumber(s, turns, n)
  {
    hide Sound, Handle, Fits, TakesHeldNumber;
    if n > 0 {
      NeverTakesNeverRegisters(s, turns, n - 1);
    }
  }

  ghost predicate ApartThroughout(s: Snapshot, turns: seq<Turn>, n: nat)
    requires Sound(s) && n <= |turns| && Possible(s, turns, n)
  {
    if n == 0 then Apart(s) else ApartThroughout(s, turns, n - 1) && Apart(After(s, turns, n).1)
  }

  lemma InitHistory(s: Snapshot)
    requires Matched(s)
    ensures History(s.hist, s.broker) && (s.hist == [] && s.broker == INIT ==> Apart(s))
  {
  }

  /** Over every run, no two connected clients ever share a descriptor exactly if no peer is registered under the
      number of a client; and exactly then the events are a legal run of the broker, in the server's state. */
  lemma {:induction false} RunApartIff(s: Snapshot, turns: seq<Turn>, n: nat)
    requires Sound(s) && History(s.hist, s.broker) && Apart(s) && n <= |turns| && Possible(s, turns, n)
    ensures var r := After(s, turns, n).1;
      && Recorded(r.hist, r.broker)
      && (ApartThroughout(s, turns, n) <==> NeverRegistersHeldNumber(s, turns, n))
      && (History(r.hist, r.broker) <==> NeverRegistersHeldNumber(s, turns, n))
  {
    hide Sound, History, Handle, Fits, Recorded, LegalSoFar, RegistersHeldNumber, Apart, TakesHeldNumber, FreeSoFar;
    if n == 0 {
      HistoryIs(s.hist, s.broker);
    } else {
      RunApartIff(s, turns, n - 1);
      var b, t := After(s, turns, n - 1).1, turns[n - 1];
      TurnRecorded(b, t.fd, t.input);
      HistoryIs(b.hist, b.broker);
      HistoryIs(After(s, turns, n).1.hist, After(s, turns, n).1.broker);
      if ApartThroughout(s, turns, n - 1) {
        StillApart(s, turns, n - 1);
        TurnApartIff(b, t.fd, t.input);
      }
    }
  }

  lemma StillApart(s: Snapshot, turns: seq<Turn>, n: nat)
    requires Sound(s) && n <= |turns| && Possible(s, turns, n) && ApartThroughout(s, turns, n)
    ensures Apart(After(s, turns, n).1)
  {
    hide Sound, Handle, Fits, Apart;
  }

  /** Over every run in which no number of a client is handed out at all, none is in the record. */
  lemma {:induction false} RunFree(s: Snapshot, turns: seq<Turn>, n: nat)
    requires Sound(s) && Recorded(s.hist, s.broker) && FreeSoFar(s.hist) && n <= |turns| && Possible(s, turns, n)
    requires NeverTakesHeldNumber(s, turns, n)
    ensures var r := After(s, turns, n).1; Recorded(r.hist, r.broker) && FreeSoFar(r.hist)
  {
    hide Sound, Handle, Fits, Recorded, LegalSoFar, RegistersHeldNumber, TakesHeldNumber, FreeSoFar;
    if n > 0 {
      RunFree(s, turns, n - 1);
      TurnRecorded(After(s, turns, n - 1).1, turns[n - 1].fd, turns[n - 1].input);
    }
  }

  /** While clients and descriptors correspond, no number of a client can be handed out. */
  lemma MatchedHoldsNumbers(s: Snapshot, fd: int, input: Input)
    requires Sound(s) && Matched(s) && Fits(s, fd, input)
    ensures !TakesHeldNumber(s, input)
  {
  }

  /** free_poll_vec: closes every listed descriptor. */
  function CloseAll(s: Snapshot): Snapshot {
    s.(poll := [], live := s.live - AsSet(s.poll), closes := s.closes + multiset(s.poll))
  }

  lemma {:induction false} DistinctOnce(q: seq<int>, x: int)
    requires Distinct(q)
    ensures multiset(q)[x] == if IndexOf(q, x) < |q| then 1 else 0
  {
    if q != [] {
      var r := q[..|q| - 1];
      assert q == r + [q[|q| - 1]];
      DistinctOnce(r, x);
      var i, j := IndexOf(q, x), IndexOf(r, x);
      assert j < |r| ==> q[j] == x;
      assert i < |r| ==> r[i] == x;
    }
  }

  /** Over every run and its teardown, each descriptor is closed as often as the system handed it out. */
  lemma EveryDescriptorClosedOnce(s: Snapshot, turns: seq<Turn>, n: nat)
    requires Sound(s) && n <= |turns| && Possible(s, turns, n)
    ensures var r := CloseAll(After(s, turns, n).1);
      r.live == {} && r.closes == r.opens
  {
    var b := After(s, turns, n).1;
    var r := CloseAll(b);
    forall x
      ensures r.closes[x] == r.opens[x]
    {
      DistinctOnce(b.poll, x);
      assert IndexOf(b.poll, x) < |b.poll| ==> b.poll[IndexOf(b.poll, x)] in b.live;
    }
    forall x | x in b.live
      ensures x !in r.live
    {
      assert b.poll[IndexOf(b.poll, x)] == x;
    }
  }

  // ---------- A run in which the correspondence fails ----------

  function EmptyDatagram(addr: Addr): Input {
    Datagram(0, [], addr, {})
  }

  lemma EmptyDatagramClosesUdp(addr: Addr)
    ensures Sound(Init(3, 4)) && Matched(Init(3, 4)) && Fits(Init(3, 4), 3, EmptyDatagram(addr))
    ensures var (err, s) := Handle(Init(3, 4), 3, EmptyDatagram(addr));
      && err == OK && Sound(s) && s.poll == [STDIN, 4] && s.live == {STDIN, 4}
      && s.udp == 3 && s.tcp == 4 && s.broker == INIT
  {
    InitSound(3, 4);
    var s := Init(3, 4);
    assert s.poll[1] == 3;
    HandleSound(s, 3, EmptyDatagram(addr));
  }

  lemma NextClientTakesNumber(s: Snapshot, m: seq<Byte>)
    requires Sound(s) && s.poll == [STDIN, 4] && s.live == {STDIN, 4} && s.udp == 3 && s.tcp == 4
    requires s.broker == INIT && |m| == TCP_MSG_SIZE
    ensures Fits(s, 4, Arrival(3, Some(m), 0)) && TakesUdpNumber(s, Arrival(3, Some(m), 0))
    ensures var (err, r) := Handle(s, 4, Arrival(3, Some(m), 0));
      && err == OK && Sound(r) && r.poll == [STDIN, 4, 3] && r.udp == 3 && r.tcp == 4
      && HasFd(r.broker.clients, 3) && r.broker.clients == [NewClient(Screen(m), 3)]
  {
    hide Sound, Screen;
    var arrival := Arrival(3, Some(m), 0);
    assert s.poll[1] == 4;
    HandleSound(s, 4, arrival);
    var t := Register([], Screen(m), 3).1;
    assert t[0].fd == 3;
  }

  predicate Follows(s: Snapshot, t: Turn) {
    t.fd != STDIN && Fits(s, t.fd, t.input)
  }

  ghost predicate Leads(s: Snapshot, t: Turn, r: Snapshot)
    requires Sound(s)
  {
    Follows(s, t) && Handle(s, t.fd, t.input) == (OK, r)
  }

  /** One more turn, after a run that ends in a given server. */
  lemma RunLeads(s: Snapshot, turns: seq<Turn>, b: Snapshot, t: Turn, r: Snapshot)
    requires Sound(s) && Possible(s, turns, |turns|) && After(s, turns, |turns|) == (OK, b)
    requires Sound(b) && Leads(b, t, r)
    ensures Possible(s, turns + [t], |turns| + 1) && After(s, turns + [t], |turns| + 1) == (OK, r)
  {
    hide Sound, Handle, Fits;
    TurnsExtend(s, turns, t);
  }

  lemma ThreeTurns(s: Snapshot, x: Turn, y: Turn, z: Turn, s1: Snapshot, s2: Snapshot, s3: Snapshot)
    requires Sound(s) && Sound(s1) && Sound(s2)
    requires Leads(s, x, s1) && Leads(s1, y, s2) && Leads(s2, z, s3)
    ensures Possible(s, [x, y, z], 3) && After(s, [x, y, z], 3) == (OK, s3)
  {
    hide Sound, Leads, Possible, After;
    NoTurns(s);
    RunLeads(s, [], s, x, s1);
    assert [] + [x] == [x];
    RunLeads(s, [x], s1, y, s2);
    assert [x] + [y] == [x, y];
    RunLeads(s, [x, y], s2, z, s3);
    assert [x, y] + [z] == [x, y, z];
  }

  function NumberTaken(m: seq<Byte>, addr: Addr): (turns: seq<Turn>)
    ensures |turns| == 3
  {
    [Turn(3, EmptyDatagram(addr)), Turn(4, Arrival(3, Some(m), 0)), Turn(3, EmptyDatagram(addr))]
  }

  /** The correspondence does fail: an empty datagram closes the datagram socket, the next client is given its
      number, and when that client hangs up it stays connected in the table with a closed descriptor. */
  lemma UdpNumberExample(m: seq<Byte>, addr: Addr)
    requires |m| == TCP_MSG_SIZE
    ensures Sound(Init(3, 4)) && Matched(Init(3, 4)) && Possible(Init(3, 4), NumberTaken(m, addr), 3)
    ensures var (err, last) := After(Init(3, 4), NumberTaken(m, addr), 3);
      && err == OK && HasFd(last.broker.clients, 3) && 3 !in last.live
      && last.poll == [STDIN, 4] && last.udp == 3 && last.tcp == 4
      && last.broker.clients == [NewClient(Screen(m), 3)]
  {
    hide Screen;
    hide Sound, Handle, Fits, Matched, Possible, After, HasFd;
    EmptyDatagramClosesUdp(addr);
    var s0 := Init(3, 4);
    var s1 := Handle(s0, 3, EmptyDatagram(addr)).1;
    NextClientTakesNumber(s1, m);
    var s2 := Handle(s1, 4, Arrival(3, Some(m), 0)).1;
    HangUpIsMissed(s2, addr);
    var s3 := Handle(s2, 3, EmptyDatagram(addr)).1;
    ThreeTurns(s0, Turn(3, EmptyDatagram(addr)), Turn(4, Arrival(3, Some(m), 0)), Turn(3, EmptyDatagram(addr)),
               s1, s2, s3);
  }

  lemma HangUpIsMissed(s: Snapshot, addr: Addr)
    requires Sound(s) && s.poll == [STDIN, 4, 3] && s.udp == 3 && s.tcp == 4 && HasFd(s.broker.clients, 3)
    ensures Fits(s, 3, EmptyDatagram(addr))
    ensures var (err, r) := Handle(s, 3, EmptyDatagram(addr));
      && err == OK && HasFd(r.broker.clients, 3) && 3 !in r.live
      && r.poll == [STDIN, 4] && r.udp == 3 && r.tcp == 4 && r.broker == s.broker
  {
    assert s.poll[2] == 3;
  }

  lemma HeldNumberTaken(s: Snapshot, id: Id, second: seq<Byte>)
    requires Sound(s) && s.poll == [STDIN, 4] && s.udp == 3 && s.tcp == 4 && 3 !in s.live
    requires s.broker.clients == [NewClient(id, 3)] && |second| == TCP_MSG_SIZE && Screen(second) != id
    ensures var t := Turn(4, Arrival(3, Some(second), 0));
      && Follows(s, t) && Handle(s, t.fd, t.input).0 == OK
      && Handle(s, t.fd, t.input).1.broker.clients == [NewClient(id, 3), NewClient(Screen(second), 3)]
  {
    hide Sound, Screen;
    assert s.poll[1] == 4;
    var t := s.broker.clients;
    assert t[0].id == id && FindId(t, Screen(second)) == 1;
    assert Register(t, Screen(second), 3) == (OK, t + [NewClient(Screen(second), 3)]);
    assert (t + [NewClient(Screen(second), 3)])[0].fd == 3;
  }

  /** A broken promise: that client's number is handed out once more while the table still holds it, to a peer with
      another id, and now two connected clients are behind one descriptor. */
  lemma HeldNumberExample(m: seq<Byte>, second: seq<Byte>, addr: Addr)
    requires |m| == TCP_MSG_SIZE && |second| == TCP_MSG_SIZE && Screen(second) != Screen(m)
    ensures Sound(Init(3, 4)) && Matched(Init(3, 4))
    ensures var turns := NumberTaken(m, addr) + [Turn(4, Arrival(3, Some(second), 0))];
      && Possible(Init(3, 4), turns, 4)
      && var (err, last) := After(Init(3, 4), turns, 4);
         && err == OK && !Apart(last)
         && last.broker.clients == [NewClient(Screen(m), 3), NewClient(Screen(second), 3)]
  {
    hide Sound, Handle, Fits, Matched, Possible, After, NumberTaken, Screen;
    UdpNumberExample(m, addr);
    var s, turns := Init(3, 4), NumberTaken(m, addr);
    var b, t := After(s, turns, 3).1, Turn(4, Arrival(3, Some(second), 0));
    HeldNumberTaken(b, Screen(m), second);
    TurnsExtend(s, turns, t);
    var both := After(s, turns + [t], 4).1.broker.clients;
    assert both[0].fd == both[1].fd;
  }
}
