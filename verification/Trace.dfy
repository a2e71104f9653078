/** What a run of events means for one client, read off the events alone, and the proof that the broker's
    table-driven state machine delivers, queues and loses exactly that. */
module Trace {
  import opened Bytes
  import opened Utils
  import opened UdpType
  import opened ClientTable
  import opened Broker

  // ---------- The meaning of a run, without any table ----------

  datatype Link = Never | Up(fd: int) | Down

  /** Whether and how a client is connected after the first n events. */
  function LinkAt(h: seq<Event>, n: nat, id: Id): Link
    requires n <= |h|
  {
    if n == 0 then Never
    else
      var l := LinkAt(h, n - 1, id);
      match h[n - 1]
      case Connect(x, fd, _) => if x == id && !l.Up? then Up(fd) else l
      case Disconnect(fd) => if l == Up(fd) then Down else l
      case _ => l
  }

  /** The client's subscriptions after the first n events; connecting and disconnecting leave them alone. */
  function SubsAt(h: seq<Event>, n: nat, id: Id): map<Topic, bool>
    requires n <= |h|
  {
    if n == 0 then map[]
    else
      var m := SubsAt(h, n - 1, id);
      match h[n - 1]
      case Request(fd, Subscribe(topic, sf)) => if LinkAt(h, n - 1, id) == Up(fd) then m[topic := sf] else m
      case Request(fd, Unsubscribe(topic)) => if LinkAt(h, n - 1, id) == Up(fd) then m - {topic} else m
      case _ => m
  }

  function Published(h: seq<Event>, n: nat): seq<Udp>
    requires n <= |h|
  {
    if n == 0 then []
    else if h[n - 1].Publish? then Published(h, n - 1) + [h[n - 1].msg]
    else Published(h, n - 1)
  }

  /** What event k owes the client: a live message while connected, a stored one while away with SF. */
  function DueAt(h: seq<Event>, k: nat, id: Id): Option<Delivery>
    requires k < |h|
  {
    if !h[k].Publish? then None
    else
      var subs, topic, pos := SubsAt(h, k, id), TopicOf(h[k].msg), |Published(h, k)|;
      if topic !in subs then None
      else match LinkAt(h, k, id)
        case Up(_) => Some(Delivery(pos, false))
        case Down => if subs[topic] then Some(Delivery(pos, true)) else None
        case Never => None
  }

  /** Everything the run owes the client. */
  function Due(h: seq<Event>, n: nat, id: Id): seq<Delivery>
    requires n <= |h|
  {
    if n == 0 then []
    else match DueAt(h, n - 1, id)
      case Some(d) => Due(h, n - 1, id) + [d]
      case None => Due(h, n - 1, id)
  }

  predicate Reconnects(h: seq<Event>, k: nat, id: Id)
    requires k < |h|
  {
    h[k].Connect? && h[k].id == id && !LinkAt(h, k, id).Up?
  }

  predicate OwesLive(h: seq<Event>, k: nat, id: Id)
    requires k < |h|
  {
    DueAt(h, k, id).Some? && !DueAt(h, k, id).value.stored
  }

  predicate OwesStored(h: seq<Event>, k: nat, id: Id)
    requires k < |h|
  {
    DueAt(h, k, id).Some? && DueAt(h, k, id).value.stored
  }

  /** The stored messages still waiting for the client after the first n events, oldest first. */
  function Waiting(h: seq<Event>, n: nat, id: Id, p: Policy): seq<nat>
    requires n <= |h|
  {
    if n == 0 then []
    else
      var w := Waiting(h, n - 1, id, p);
      if OwesStored(h, n - 1, id) then w + [DueAt(h, n - 1, id).value.pos]
      else if Reconnects(h, n - 1, id) then Remaining(w, Min(h[n - 1].accepted, |w|), p)
      else w
  }

  /** The deliveries to the client, in order: live ones as published, replays newest first at a reconnection. */
  function Expected(h: seq<Event>, n: nat, id: Id, p: Policy): seq<Delivery>
    requires n <= |h|
  {
    if n == 0 then []
    else
      var s := Expected(h, n - 1, id, p);
      var w := Waiting(h, n - 1, id, p);
      if OwesLive(h, n - 1, id) && id !in h[n - 1].failing then s + [DueAt(h, n - 1, id).value]
      else if Reconnects(h, n - 1, id) then s + NewestFirst(w, Min(h[n - 1].accepted, |w|))
      else s
  }

  /** The deliveries that failed for good. */
  function Missed(h: seq<Event>, n: nat, id: Id, p: Policy): seq<Delivery>
    requires n <= |h|
  {
    if n == 0 then []
    else
      var s := Missed(h, n - 1, id, p);
      var w := Waiting(h, n - 1, id, p);
      if OwesLive(h, n - 1, id) && id in h[n - 1].failing then s + [DueAt(h, n - 1, id).value]
      else if Reconnects(h, n - 1, id) then s + Discarded(w, Min(h[n - 1].accepted, |w|), p)
      else s
  }

  /** Publications are never reordered or altered, however many follow. */
  lemma {:induction false} PublishedGrows(h: seq<Event>, m: nat, n: nat)
    requires m <= n <= |h|
    ensures Published(h, m) <= Published(h, n)
  {
    if m < n {
      PublishedGrows(h, m, n - 1);
    }
  }

  /** The position a message is owed under denotes that very message for the rest of the run. */
  lemma DuePositionStays(h: seq<Event>, k: nat, n: nat, id: Id)
    requires k < n <= |h| && DueAt(h, k, id).Some?
    ensures h[k].Publish? && DueAt(h, k, id).value.pos < |Published(h, n)|
    ensures Published(h, n)[DueAt(h, k, id).value.pos] == h[k].msg
  {
    PublishedGrows(h, k + 1, n);
  }

  /** Event k is a publication owed to the absent client, and a log position denotes its message. */
  predicate Denotes(h: seq<Event>, k: nat, n: nat, id: Id, pos: nat)
    requires k < |h| && n <= |h|
  {
    OwesStored(h, k, id) && DueAt(h, k, id).value.pos == pos < |Published(h, n)| && Published(h, n)[pos] == h[k].msg
  }

  /** Every waiting position was put there by one publication, owed to the client while it was away, and denotes
      that publication's message, however often the log has grown since. */
  lemma {:induction false} WaitingDenotes(h: seq<Event>, n: nat, id: Id, p: Policy, i: nat) returns (k: nat)
    requires n <= |h| && i < |Waiting(h, n, id, p)|
    ensures k < n && Denotes(h, k, n, id, Waiting(h, n, id, p)[i])
  {
    if OwesStored(h, n - 1, id) && i == |Waiting(h, n - 1, id, p)| {
      k := n - 1;
    } else {
      k := WaitingDenotes(h, n - 1, id, p, i);
    }
    DuePositionStays(h, k, n, id);
  }

  // ---------- What the events say of one connection ----------

  /** The id under which the last peer accepted on a descriptor introduced itself. */
  function Introduced(h: seq<Event>, n: nat, fd: int): Option<Id>
    requires n <= |h|
  {
    if n == 0 then None
    else if h[n - 1].Connect? && h[n - 1].fd == fd then Some(h[n - 1].id)
    else Introduced(h, n - 1, fd)
  }

  /** The requests it has made since, in order. */
  function Asked(h: seq<Event>, n: nat, fd: int): seq<Command>
    requires n <= |h|
  {
    if n == 0 || (h[n - 1].Connect? && h[n - 1].fd == fd) then []
    else if h[n - 1].Request? && h[n - 1].fd == fd then Asked(h, n - 1, fd) + [h[n - 1].cmd]
    else Asked(h, n - 1, fd)
  }

  /** Whether it has been hung up on since. */
  predicate HungUp(h: seq<Event>, n: nat, fd: int)
    requires n <= |h|
  {
    if n == 0 || (h[n - 1].Connect? && h[n - 1].fd == fd) then false
    else h[n - 1] == Disconnect(fd) || HungUp(h, n - 1, fd)
  }

  /** The event that connected a client, or 0. */
  function ConnectedAt(h: seq<Event>, n: nat, id: Id): (k: nat)
    requires n <= |h|
    ensures k <= n
  {
    if n == 0 then 0
    else if Reconnects(h, n - 1, id) then n - 1
    else ConnectedAt(h, n - 1, id)
  }

  function Commanded(m: map<Topic, bool>, cmd: Command): map<Topic, bool> {
    match cmd
    case Subscribe(topic, sf) => m[topic := sf]
    case Unsubscribe(topic) => m - {topic}
    case UnknownCommand => m
  }

  /** Subscriptions after a series of requests. */
  function AllCommanded(m: map<Topic, bool>, cmds: seq<Command>): map<Topic, bool> {
    if cmds == [] then m else Commanded(AllCommanded(m, cmds[..|cmds| - 1]), cmds[|cmds| - 1])
  }

  lemma OneMoreCommand(m: map<Topic, bool>, cmds: seq<Command>, cmd: Command)
    ensures AllCommanded(m, cmds + [cmd]) == Commanded(AllCommanded(m, cmds), cmd)
  {
    assert (cmds + [cmd])[..|cmds|] == cmds;
  }

  /** The deliveries to a client since it was last connected. */
  function SinceConnect(h: seq<Event>, n: nat, id: Id, p: Policy): seq<Delivery>
    requires n <= |h|
  {
    if n == 0 then []
    else
      var w := Waiting(h, n - 1, id, p);
      if OwesLive(h, n - 1, id) && id !in h[n - 1].failing
      then SinceConnect(h, n - 1, id, p) + [DueAt(h, n - 1, id).value]
      else if Reconnects(h, n - 1, id) then NewestFirst(w, Min(h[n - 1].accepted, |w|))
      else SinceConnect(h, n - 1, id, p)
  }

  /** All that was delivered to a client is what had been before it was last connected, and that. */
  lemma {:induction false} ExpectedSplits(h: seq<Event>, n: nat, id: Id, p: Policy)
    requires n <= |h|
    ensures Expected(h, n, id, p) == Expected(h, ConnectedAt(h, n, id), id, p) + SinceConnect(h, n, id, p)
  {
    if n > 0 {
      ExpectedSplits(h, n - 1, id, p);
    }
  }

  // ---------- The broker realises it ----------

  /** The sends addressed to one client, in order. */
  function ToId(s: seq<Sent>, id: Id): seq<Delivery>
  {
    if s == [] then []
    else
      var rest, x := ToId(s[..|s| - 1], id), s[|s| - 1];
      if x.id == id then rest + [x.what] else rest
  }

  lemma {:induction false} ToIdConcat(a: seq<Sent>, b: seq<Sent>, id: Id)
    ensures ToId(a + b, id) == ToId(a, id) + ToId(b, id)
  {
    if b == [] {
      assert a + b == a;
    } else {
      ToIdConcat(a, b[..|b| - 1], id);
      assert (a + b)[..|a + b| - 1] == a + b[..|b| - 1];
    }
  }

  lemma {:induction false} ToIdAddress(x: Id, fd: int, s: seq<Delivery>, id: Id)
    ensures ToId(Address(x, fd, s), id) == if x == id then s else []
  {
    if s != [] {
      ToIdAddress(x, fd, s[..|s| - 1], id);
      assert Address(x, fd, s)[..|s| - 1] == Address(x, fd, s[..|s| - 1]);
    }
  }

  lemma NothingToId(id: Id)
    ensures ToId([], id) == []
  {
  }

  lemma ToIdAppend(s: seq<Sent>, x: Sent, id: Id)
    ensures ToId(s + [x], id) == ToId(s, id) + if x.id == id then [x.what] else []
  {
    assert (s + [x])[..|s|] == s;
  }

  lemma IdAt(t: Table, i: nat, id: Id)
    requires TableOk(t) && i < |t|
    ensures FindId(t, id) == i <==> t[i].id == id
  {
  }

  lemma {:induction false} ToIdLive(t: Table, n: nat, topic: Topic, pos: nat, failing: set<Id>, fail: bool, id: Id)
    requires TableOk(t) && n <= |t|
    ensures var i := FindId(t, id);
      ToId(LiveUpTo(t, n, topic, pos, failing, fail), id) ==
        if i < n && Listening(t[i], topic) && (id in failing) == fail then [Delivery(pos, false)] else []
  {
    hide FindId, ToId, TableOk, Subscribed, Listening;
    NothingToId(id);
    if n > 0 {
      ToIdLive(t, n - 1, topic, pos, failing, fail, id);
      var c := t[n - 1];
      ToIdAppend(LiveUpTo(t, n - 1, topic, pos, failing, fail), Sent(c.id, c.fd, Delivery(pos, false)), id);
      IdAt(t, n - 1, id);
    }
  }

  function Entry(m: map<Id, View>, id: Id): Option<View> {
    if id in m then Some(m[id]) else None
  }

  /** All that concerns one client: its map entry if any, its deliveries and its losses. */
  datatype Life = Life(view: Option<View>, got: seq<Delivery>, missed: seq<Delivery>)

  function Project(b: State, id: Id): Life
    requires TableOk(b.clients)
  {
    Life(Entry(Abs(b.clients), id), ToId(b.sent, id), ToId(b.lost, id))
  }

  predicate ConnectedBy(v: Option<View>, fd: int) {
    v.Some? && v.value.conn == Some(fd)
  }

  function LifeConnect(l: Life, fd: int, accepted: nat, p: Policy): Life {
    if l.view.Some? && l.view.value.conn.Some? then l
    else
      var v := if l.view.Some? then l.view.value else View(None, map[], []);
      var n := Min(accepted, |v.queue|);
      Life(Some(View(Some(fd), v.subs, Remaining(v.queue, n, p))),
           l.got + NewestFirst(v.queue, n), l.missed + Discarded(v.queue, n, p))
  }

  function LifeRequest(l: Life, fd: int, cmd: Command): Life {
    if !ConnectedBy(l.view, fd) then l
    else
      var v := l.view.value;
      match cmd
      case Subscribe(topic, sf) => l.(view := Some(v.(subs := v.subs[topic := sf])))
      case Unsubscribe(topic) => l.(view := Some(v.(subs := v.subs - {topic})))
      case UnknownCommand => l
  }

  function LifePublish(l: Life, topic: Topic, pos: nat, fails: bool): Life {
    if l.view.None? || topic !in l.view.value.subs then l
    else
      var v := l.view.value;
      if v.conn.Some? then
        if fails then l.(missed := l.missed + [Delivery(pos, false)]) else l.(got := l.got + [Delivery(pos, false)])
      else if v.subs[topic] then l.(view := Some(v.(queue := v.queue + [pos])))
      else l
  }

  /** One event in the life of one client. */
  function Evolve(l: Life, e: Event, pos: nat, id: Id, p: Policy): Life {
    match e
    case Connect(x, fd, accepted) => if x == id then LifeConnect(l, fd, accepted, p) else l
    case Disconnect(fd) =>
      if ConnectedBy(l.view, fd) then l.(view := Some(l.view.value.(conn := None))) else l
    case Request(fd, cmd) => LifeRequest(l, fd, cmd)
    case Publish(msg, failing) => LifePublish(l, TopicOf(msg), pos, id in failing)
  }

  // ---------- The state machine, seen by one client ----------

  lemma DisconnectEvolves(b: State, fd: int, id: Id)
    requires Inv(b.clients)
    ensures TableOk(Close(b.clients, fd).1)
    ensures var l := Project(b, id);
      Project(b.(clients := Close(b.clients, fd).1), id) ==
        if ConnectedBy(l.view, fd) then l.(view := Some(l.view.value.(conn := None))) else l
  {
    CloseRefines(b.clients, fd);
  }

  lemma RequestEvolves(b: State, fd: int, cmd: Command, id: Id)
    requires Inv(b.clients)
    ensures TableOk(StepRequest(b.clients, fd, cmd).1)
    ensures Project(b.(clients := StepRequest(b.clients, fd, cmd).1), id) == LifeRequest(Project(b, id), fd, cmd)
  {
    match cmd
    case Subscribe(topic, sf) => SubscribeRefines(b.clients, fd, topic, sf);
    case Unsubscribe(topic) => UnsubscribeRefines(b.clients, fd, topic);
    case UnknownCommand =>
  }

  lemma OfferIds(t: Table, topic: Topic, pos: nat, id: Id)
    requires TableOk(t)
    ensures FindId(OfferUpTo(t, |t|, topic, pos), id) == FindId(t, id)
  {
    var r := OfferUpTo(t, |t|, topic, pos);
    var i, j := FindId(t, id), FindId(r, id);
    assert i < |t| ==> r[i].id == id;
    assert j < |t| ==> t[j].id == id;
  }

  lemma SubscribedIff(c: Client, topic: Topic)
    requires ClientOk(c)
    ensures Subscribed(c, topic) <==> topic in Subs(c)
    ensures SubscribedSf(c, topic) <==> topic in Subs(c) && Subs(c)[topic]
  {
    TopicMiss(c, topic);
    var k := IndexOf(c.topics, topic);
    if k < |c.topics| { TopicAt(c, k); }
  }

  /** Publishing appends to a client's queue exactly when it is away and holds the topic with SF. */
  lemma OfferRefines(t: Table, topic: Topic, pos: nat, id: Id)
    requires TableOk(t)
    ensures TableOk(OfferUpTo(t, |t|, topic, pos))
    ensures Entry(Abs(OfferUpTo(t, |t|, topic, pos)), id) == match Entry(Abs(t), id)
      case None => None
      case Some(v) =>
        if v.conn.None? && topic in v.subs && v.subs[topic] then Some(v.(queue := v.queue + [pos])) else Some(v)
  {
    OfferKeeps(t, |t|, topic, pos);
    var r := OfferUpTo(t, |t|, topic, pos);
    AbsMiss(t, id);
    AbsMiss(r, id);
    OfferIds(t, topic, pos, id);
    var i := FindId(t, id);
    if i < |t| {
      AbsAt(t, i);
      AbsAt(r, i);
      SubscribedIff(t[i], topic);
    }
  }

  lemma ListeningIff(t: Table, topic: Topic, id: Id)
    requires TableOk(t)
    ensures var i := FindId(t, id); var v := Entry(Abs(t), id);
      (i < |t| && Listening(t[i], topic)) <==> (v.Some? && v.value.conn.Some? && topic in v.value.subs)
  {
    AbsMiss(t, id);
    var i := FindId(t, id);
    if i < |t| {
      AbsAt(t, i);
      SubscribedIff(t[i], topic);
    }
  }

  lemma LiveEvolves(t: Table, topic: Topic, pos: nat, failing: set<Id>, fail: bool, s: seq<Sent>, id: Id)
    requires TableOk(t)
    ensures var v := Entry(Abs(t), id);
      ToId(s + LiveUpTo(t, |t|, topic, pos, failing, fail), id) == ToId(s, id) +
        if v.Some? && v.value.conn.Some? && topic in v.value.subs && (id in failing) == fail
        then [Delivery(pos, false)] else []
  {
    ListeningIff(t, topic, id);
    ToIdLive(t, |t|, topic, pos, failing, fail, id);
    ToIdConcat(s, LiveUpTo(t, |t|, topic, pos, failing, fail), id);
  }

  lemma PublishEvolves(b: State, msg: Udp, failing: set<Id>, id: Id)
    requires TableOk(b.clients)
    ensures TableOk(StepPublish(b, msg, failing).clients)
    ensures Project(StepPublish(b, msg, failing), id) ==
      LifePublish(Project(b, id), TopicOf(msg), |b.log|, id in failing)
  {
    OfferRefines(b.clients, TopicOf(msg), |b.log|, id);
    LiveEvolves(b.clients, TopicOf(msg), |b.log|, failing, false, b.sent, id);
    LiveEvolves(b.clients, TopicOf(msg), |b.log|, failing, true, b.lost, id);
  }

  /** A successful registration leaves the descriptor with the registered client, found either way. */
  lemma RegisteredHolder(t: Table, id: Id, fd: int)
    requires Inv(t) && fd > 0 && !HasFd(t, fd) && Register(t, id, fd).0 == OK
    ensures var r := Register(t, id, fd).1; FindFd(r, fd) == FindId(r, id) < |r|
  {
    RegisterKeeps(t, id, fd);
    var r := Register(t, id, fd).1;
    var i := FindId(t, id);
    assert r[i].id == id && r[i].fd == fd;
    assert forall k :: 0 <= k < |t| && k != i ==> r[k] == t[k] && t[k].fd != fd;
  }

  lemma RetransmitEvolves(b: State, x: Id, fd: int, accepted: nat, p: Policy)
    requires TableOk(b.clients) && FindFd(b.clients, fd) == FindId(b.clients, x) < |b.clients|
    ensures var r := Retransmit(b, fd, accepted, p).1;
      && TableOk(r.clients)
      && x in Abs(b.clients)
      && var q := Abs(b.clients)[x].queue;
         var n := Min(accepted, |q|);
         && Abs(r.clients) == Abs(b.clients)[x := Abs(b.clients)[x].(queue := Remaining(q, n, p))]
         && r.sent == b.sent + Address(x, fd, NewestFirst(q, n))
         && r.lost == b.lost + Address(x, fd, Discarded(q, n, p))
  {
    var i := FindFd(b.clients, fd);
    var c := b.clients[i];
    AbsAt(b.clients, i);
    var n := Min(accepted, |c.queue|);
    var c' := c.(queue := Remaining(c.queue, n, p));
    AbsUpdate(b.clients, i, c');
  }

  lemma AddressedTo(s: seq<Sent>, x: Id, fd: int, d: seq<Delivery>, id: Id)
    ensures ToId(s + Address(x, fd, d), id) == ToId(s, id) + if x == id then d else []
  {
    ToIdConcat(s, Address(x, fd, d), id);
    ToIdAddress(x, fd, d, id);
  }

  lemma AcceptedEvolves(b: State, x: Id, fd: int, accepted: nat, p: Policy, id: Id)
    requires Inv(b.clients) && fd > 0 && !HasFd(b.clients, fd) && Register(b.clients, x, fd).0 == OK
    ensures TableOk(StepConnect(b, x, fd, accepted, p).clients)
    ensures Project(StepConnect(b, x, fd, accepted, p), id) ==
      if x == id then LifeConnect(Project(b, id), fd, accepted, p) else Project(b, id)
  {
    RegisterRefines(b.clients, x, fd);
    var t := Register(b.clients, x, fd).1;
    RegisteredHolder(b.clients, x, fd);
    RetransmitEvolves(b.(clients := t), x, fd, accepted, p);
    var q := Abs(t)[x].queue;
    var n := Min(accepted, |q|);
    AddressedTo(b.sent, x, fd, NewestFirst(q, n), id);
    AddressedTo(b.lost, x, fd, Discarded(q, n, p), id);
  }

  /** Connecting a peer, under a number that serves no client or with an id in use, which is refused. */
  lemma ConnectEvolves(b: State, x: Id, fd: int, accepted: nat, p: Policy, id: Id)
    requires Inv(b.clients) && fd > 0 && (HasFd(b.clients, fd) ==> IdConnected(b.clients, x))
    ensures TableOk(StepConnect(b, x, fd, accepted, p).clients)
    ensures Project(StepConnect(b, x, fd, accepted, p), id) ==
      if x == id then LifeConnect(Project(b, id), fd, accepted, p) else Project(b, id)
  {
    RegisterAcceptsIff(b.clients, x, fd);
    if Register(b.clients, x, fd).0 == OK {
      AcceptedEvolves(b, x, fd, accepted, p, id);
    } else {
      RegisterRefines(b.clients, x, fd);
    }
  }

  /** Each step of the broker is, for every client, one event of its life. */
  lemma StepEvolves(b: State, e: Event, p: Policy, id: Id)
    requires Inv(b.clients) && EventOk(e) && Fresh(b.clients, e)
    ensures Project(Step(b, e, p), id) == Evolve(Project(b, id), e, |b.log|, id, p)
  {
    match e
    case Connect(x, fd, accepted) => ConnectEvolves(b, x, fd, accepted, p, id);
    case Disconnect(fd) => DisconnectEvolves(b, fd, id);
    case Request(fd, cmd) => RequestEvolves(b, fd, cmd, id);
    case Publish(msg, failing) => PublishEvolves(b, msg, failing, id);
  }

  lemma LogGrows(b: State, e: Event, p: Policy)
    requires TableOk(b.clients) && EventOk(e)
    ensures Step(b, e, p).log == if e.Publish? then b.log + [e.msg] else b.log
  {
  }

  /** Over every run, legal or not, the log holds the publications. */
  lemma {:induction false} LogIsPublished(h: seq<Event>, n: nat, p: Policy)
    requires EventsOk(h) && n <= |h|
    ensures Run(h, n, p).log == Published(h, n)
  {
    hide Step;
    if n > 0 {
      LogIsPublished(h, n - 1, p);
      LogGrows(Run(h, n - 1, p), h[n - 1], p);
    }
  }

  // ---------- The trace, event by event ----------

  /** A client's life as the first n events determine it. */
  function LifeAt(h: seq<Event>, n: nat, id: Id, p: Policy): Life
    requires n <= |h|
  {
    Life(match LinkAt(h, n, id)
         case Never => None
         case Up(fd) => Some(View(Some(fd), SubsAt(h, n, id), Waiting(h, n, id, p)))
         case Down => Some(View(None, SubsAt(h, n, id), Waiting(h, n, id, p))),
         Expected(h, n, id, p), Missed(h, n, id, p))
  }

  lemma {:induction false} NeverMeansNothing(h: seq<Event>, n: nat, id: Id, p: Policy)
    requires n <= |h|
    ensures LinkAt(h, n, id).Never? ==> SubsAt(h, n, id) == map[] && Waiting(h, n, id, p) == []
  {
    if n > 0 {
      NeverMeansNothing(h, n - 1, id, p);
    }
  }

  lemma TraceEvolves(h: seq<Event>, n: nat, id: Id, p: Policy)
    requires 0 < n <= |h|
    ensures LifeAt(h, n, id, p) == Evolve(LifeAt(h, n - 1, id, p), h[n - 1], |Published(h, n - 1)|, id, p)
  {
    NeverMeansNothing(h, n - 1, id, p);
    match h[n - 1]
    case Connect(x, fd, accepted) =>
    case Disconnect(fd) =>
    case Request(fd, cmd) =>
    case Publish(msg, failing) =>
  }

  lemma LifeStarts(h: seq<Event>, id: Id, p: Policy)
    ensures Project(INIT, id) == LifeAt(h, 0, id, p)
  {
  }

  /** Over every legal run, under either policy and whatever sends fail, each client's map entry, queue,
      deliveries and losses are those the events determine, and the log holds the publications. */
  lemma {:induction false} RunIsTrace(h: seq<Event>, n: nat, id: Id, p: Policy)
    requires EventsOk(h) && n <= |h| && Legal(h, n, p)
    ensures Project(Run(h, n, p), id) == LifeAt(h, n, id, p)
    ensures Run(h, n, p).log == Published(h, n)
  {
    hide StepOf, Project, Evolve, LifeAt;
    if n == 0 {
      LifeStarts(h, id, p);
    } else {
      RunIsTrace(h, n - 1, id, p);
      LegalRunInv(h, n - 1, p);
      StepEvolves(Run(h, n - 1, p), h[n - 1], p, id);
      LogGrows(Run(h, n - 1, p), h[n - 1], p);
      TraceEvolves(h, n, id, p);
    }
  }

  // ---------- Connected clients ----------

  /** A client the events connect through a descriptor is the one that holds it in the table. */
  lemma LinkHolds(h: seq<Event>, n: nat, id: Id, fd: int, p: Policy)
    requires EventsOk(h) && n <= |h| && Legal(h, n, p) && LinkAt(h, n, id) == Up(fd)
    ensures var t := Run(h, n, p).clients; var i := FindId(t, id);
      i < |t| && t[i].id == id && t[i].status.Active? && t[i].fd == fd && HasFd(t, fd)
  {
    hide Run, Legal, LinkAt, Expected, Missed, Waiting, SubsAt;
    RunIsTrace(h, n, id, p);
    LegalRunInv(h, n, p);
    var t := Run(h, n, p).clients;
    AbsUpToAt(t, |t|, id);
    HasFdMeaning(t, fd);
  }

  /** While a client is connected, nobody else is accepted on its descriptor. */
  lemma NobodyElse(h: seq<Event>, n: nat, id: Id, fd: int, p: Policy)
    requires EventsOk(h) && n < |h| && NumbersFree(h, n + 1, p) && LinkAt(h, n, id) == Up(fd)
    ensures !(h[n].Connect? && h[n].fd == fd)
  {
    hide Run, LinkAt, HasFd;
    FreeIsLegal(h, n, p);
    LinkHolds(h, n, id, fd, p);
  }

  /** A connected client's subscriptions are those it had when it was connected, changed by the requests made on
      its connection since, in order, and by nothing else. */
  lemma {:induction false} SubsAreAsked(h: seq<Event>, n: nat, id: Id, fd: int, p: Policy)
    requires EventsOk(h) && n <= |h| && NumbersFree(h, n, p) && LinkAt(h, n, id) == Up(fd)
    ensures SubsAt(h, n, id) == AllCommanded(SubsAt(h, ConnectedAt(h, n, id), id), Asked(h, n, fd))
    ensures Introduced(h, n, fd) == Some(id)
  {
    hide Run, AllCommanded;
    if Reconnects(h, n - 1, id) {
      OnlyConnected(SubsAt(h, n - 1, id));
    } else {
      NobodyElse(h, n - 1, id, fd, p);
      SubsAreAsked(h, n - 1, id, fd, p);
      if h[n - 1].Request? && h[n - 1].fd == fd {
        OneMoreCommand(SubsAt(h, ConnectedAt(h, n, id), id), Asked(h, n - 1, fd), h[n - 1].cmd);
      }
    }
  }

  lemma OnlyConnected(m: map<Topic, bool>)
    ensures AllCommanded(m, []) == m
  {
  }

  // ---------- The sends of one connection ----------

  /** What was sent through a descriptor, from a given send on. */
  function Carried(sent: seq<Sent>, fd: int, from: nat): seq<Delivery>
    decreases |sent|
  {
    if |sent| <= from then []
    else
      var rest, last := Carried(sent[..|sent| - 1], fd, from), sent[|sent| - 1];
      if last.fd == fd then rest + [last.what] else rest
  }

  /** A send goes to a client of the table through the descriptor that connects it. */
  predicate SentFrom(t: Table, s: Sent) {
    var i := FindId(t, s.id);
    i < |t| && t[i].status.Active? && t[i].fd == s.fd
  }

  predicate AllSentFrom(t: Table, s: seq<Sent>) {
    forall k :: 0 <= k < |s| ==> SentFrom(t, s[k])
  }

  lemma {:induction false} LiveSentFrom(t: Table, n: nat, topic: Topic, pos: nat, failing: set<Id>, fail: bool)
    requires TableOk(t) && n <= |t|
    ensures AllSentFrom(t, LiveUpTo(t, n, topic, pos, failing, fail))
  {
    if n > 0 {
      LiveSentFrom(t, n - 1, topic, pos, failing, fail);
      assert FindId(t, t[n - 1].id) == n - 1;
    }
  }

  lemma SameHolders(t: Table, r: Table, s: seq<Sent>)
    requires AllSentFrom(t, s) && |r| == |t|
    requires forall i :: 0 <= i < |t| ==> r[i].id == t[i].id && r[i].fd == t[i].fd && r[i].status == t[i].status
    ensures AllSentFrom(r, s)
  {
    forall k | 0 <= k < |s|
      ensures SentFrom(r, s[k])
    {
      var i, j := FindId(t, s[k].id), FindId(r, s[k].id);
      assert SentFrom(t, s[k]) && r[i].id == s[k].id;
      assert t[j].id == s[k].id;
    }
  }

  lemma ReplaySentFrom(b: State, fd: int, accepted: nat, p: Policy)
    requires TableOk(b.clients) && fd > 0
    ensures var r := Retransmit(b, fd, accepted, p).1;
      b.sent <= r.sent && AllSentFrom(r.clients, r.sent[|b.sent|..])
  {
    var i := FindFd(b.clients, fd);
    if i < |b.clients| {
      AbsAt(b.clients, i);
      var r := Retransmit(b, fd, accepted, p).1;
      var c := b.clients[i];
      var s := Address(c.id, fd, NewestFirst(c.queue, Min(accepted, |c.queue|)));
      assert AllSentFrom(b.clients, s);
      SameHolders(b.clients, r.clients, s);
      assert r.sent[|b.sent|..] == s;
    }
  }

  lemma PublishSentFrom(b: State, msg: Udp, failing: set<Id>)
    requires TableOk(b.clients)
    ensures var r := StepPublish(b, msg, failing);
      b.sent <= r.sent && AllSentFrom(r.clients, r.sent[|b.sent|..])
  {
    var t := b.clients;
    var s := LiveUpTo(t, |t|, TopicOf(msg), |b.log|, failing, false);
    LiveSentFrom(t, |t|, TopicOf(msg), |b.log|, failing, false);
    var r := StepPublish(b, msg, failing);
    SameHolders(t, r.clients, s);
    assert r.sent[|b.sent|..] == s;
  }

  /** Every step sends only to clients, each through its own descriptor. */
  lemma StepSentFrom(b: State, e: Event, p: Policy)
    requires TableOk(b.clients) && EventOk(e)
    ensures var r := Step(b, e, p); b.sent <= r.sent && AllSentFrom(r.clients, r.sent[|b.sent|..])
  {
    hide Retransmit, StepPublish, Register, AllSentFrom;
    match e
    case Connect(id, fd, accepted) =>
      RegisterKeeps(b.clients, id, fd);
      var (err, t) := Register(b.clients, id, fd);
      if err == OK {
        ReplaySentFrom(b.(clients := t), fd, accepted, p);
      } else {
        NoneSent(b.clients, b.sent);
      }
    case Disconnect(fd) => NoneSent(Step(b, e, p).clients, b.sent);
    case Request(fd, cmd) => NoneSent(Step(b, e, p).clients, b.sent);
    case Publish(msg, failing) => PublishSentFrom(b, msg, failing);
  }

  lemma NoneSent(t: Table, s: seq<Sent>)
    ensures s[|s|..] == [] && AllSentFrom(t, s[|s|..])
  {
  }

  lemma {:induction false} CarriedConcat(a: seq<Sent>, b: seq<Sent>, fd: int, from: nat)
    requires from <= |a|
    ensures Carried(a + b, fd, from) == Carried(a, fd, from) + Carried(b, fd, 0)
  {
    if b == [] {
      assert a + b == a;
    } else {
      CarriedConcat(a, b[..|b| - 1], fd, from);
      assert (a + b)[..|a + b| - 1] == a + b[..|b| - 1];
    }
  }

  /** In a table without shared descriptors, what goes through a client's descriptor is what goes to the client. */
  lemma {:induction false} CarriedIsToId(t: Table, s: seq<Sent>, id: Id, fd: int)
    requires Inv(t) && AllSentFrom(t, s)
    requires var i := FindId(t, id); i < |t| && t[i].status.Active? && t[i].fd == fd
    ensures Carried(s, fd, 0) == ToId(s, id)
  {
    if s != [] {
      CarriedIsToId(t, s[..|s| - 1], id, fd);
      var x := s[|s| - 1];
      assert SentFrom(t, x);
      var i, j := FindId(t, id), FindId(t, x.id);
      assert t[i].id == id && t[j].id == x.id;
    }
  }
}
