/** The store-and-forward broker as a state machine over whole runs: what each event does to the client
    table, to the message log and to the messages sent. */
module Broker {
  import opened Bytes
  import opened Utils
  import opened UdpType
  import opened ClientTable

  /** What a replay interrupted by a failed send does with the messages not yet sent: the code discards
      them, the comment above the function promises to keep them for another reconnection. */
  datatype Policy = DropRest | KeepRest

  datatype Command = Subscribe(topic: Topic, sf: bool) | Unsubscribe(topic: Topic) | UnknownCommand

  /** A step of a run, with what the transport did: how many replay sends succeed before one fails, and for
      which clients the live send fails. */
  datatype Event =
    | Connect(id: Id, fd: int, accepted: nat)
    | Disconnect(fd: int)
    | Request(fd: int, cmd: Command)
    | Publish(msg: Udp, failing: set<Id>)

  /** A logged message on its way to a client, live or out of the client's queue. */
  datatype Delivery = Delivery(pos: nat, stored: bool)

  datatype Sent = Sent(id: Id, fd: int, what: Delivery)

  datatype State = State(clients: Table, log: seq<Udp>, sent: seq<Sent>, lost: seq<Sent>)

  const INIT := State([], [], [], [])

  function Min(x: nat, y: nat): nat {
    if x <= y then x else y
  }

  // ---------- Publishing ----------

  predicate Subscribed(c: Client, topic: Topic)
  {
    IndexOf(c.topics, topic) < |c.topics|
  }

  predicate SubscribedSf(c: Client, topic: Topic)
    requires Aligned(c)
  {
    Subscribed(c, topic) && c.options[IndexOf(c.topics, topic)]
  }

  function Offer(c: Client, topic: Topic, pos: nat): (r: Client)
    requires Aligned(c)
  {
    if c.status.Dead? && SubscribedSf(c, topic) then c.(queue := c.queue + [pos]) else c
  }

  /** The table once the first n clients have been offered the message at `pos`. */
  function OfferUpTo(t: Table, n: nat, topic: Topic, pos: nat): (r: Table)
    requires AllAligned(t) && n <= |t|
    ensures |r| == |t|
    ensures forall i :: 0 <= i < n ==> r[i] == Offer(t[i], topic, pos)
    ensures forall i :: n <= i < |t| ==> r[i] == t[i]
  {
    if n == 0 then t else OfferUpTo(t, n - 1, topic, pos)[n - 1 := Offer(t[n - 1], topic, pos)]
  }

  predicate Listening(c: Client, topic: Topic) {
    c.status.Active? && Subscribed(c, topic)
  }

  /** The live sends to the first n clients that succeed, or that fail. */
  function LiveUpTo(t: Table, n: nat, topic: Topic, pos: nat, failing: set<Id>, fail: bool): seq<Sent>
    requires n <= |t|
  {
    if n == 0 then []
    else
      var rest := LiveUpTo(t, n - 1, topic, pos, failing, fail);
      var c := t[n - 1];
      if Listening(c, topic) && (c.id in failing) == fail
      then rest + [Sent(c.id, c.fd, Delivery(pos, false))] else rest
  }

  /** The descriptors, among those of the first n clients, on which a live send fails. */
  function MuteUpTo(t: Table, n: nat, topic: Topic, failing: set<Id>): set<int>
    requires n <= |t|
  {
    if n == 0 then {}
    else
      var rest := MuteUpTo(t, n - 1, topic, failing);
      if Listening(t[n - 1], topic) && t[n - 1].id in failing then rest + {t[n - 1].fd} else rest
  }

  /** Just the connected subscribers whose id is among the failing ones. */
  lemma {:induction false} MuteUpToAt(t: Table, n: nat, topic: Topic, failing: set<Id>, fd: int)
    requires n <= |t|
    ensures fd in MuteUpTo(t, n, topic, failing) <==>
      exists i :: 0 <= i < n && Listening(t[i], topic) && t[i].id in failing && t[i].fd == fd
  {
    if n > 0 {
      MuteUpToAt(t, n - 1, topic, failing, fd);
    }
  }

  // ---------- Replaying ----------

  /** The n newest messages of a queue, newest first. */
  function NewestFirst(q: seq<nat>, n: nat): (r: seq<Delivery>)
    requires n <= |q|
    ensures |r| == n
  {
    if n == 0 then [] else NewestFirst(q, n - 1) + [Delivery(q[|q| - n], true)]
  }

  /** A queue's first n messages, oldest first. */
  function OldestFirst(q: seq<nat>, n: nat): (r: seq<Delivery>)
    requires n <= |q|
    ensures |r| == n
  {
    if n == 0 then [] else OldestFirst(q, n - 1) + [Delivery(q[n - 1], true)]
  }

  function Address(id: Id, fd: int, s: seq<Delivery>): (r: seq<Sent>)
    ensures |r| == |s| && forall i :: 0 <= i < |s| ==> r[i] == Sent(id, fd, s[i])
  {
    seq(|s|, i requires 0 <= i < |s| => Sent(id, fd, s[i]))
  }

  function Remaining(q: seq<nat>, n: nat, p: Policy): seq<nat>
    requires n <= |q|
  {
    if p.DropRest? then [] else q[..|q| - n]
  }

  function Discarded(q: seq<nat>, n: nat, p: Policy): seq<Delivery>
    requires n <= |q|
  {
    if p.DropRest? then OldestFirst(q, |q| - n) else []
  }

  /** The queue of the client that holds a descriptor. */
  function QueueOn(t: Table, fd: int): seq<nat> {
    var i := FindFd(t, fd);
    if i < |t| then t[i].queue else []
  }

  /** Replays to the client that holds a descriptor; `accepted` bounds the sends that succeed. */
  function Retransmit(b: State, fd: int, accepted: nat, p: Policy): (Err, State) {
    var i := FindFd(b.clients, fd);
    if i == |b.clients| then (CLIENTS_VEC_CLIENT_NOT_FOUND, b)
    else
      var c := b.clients[i];
      var n := Min(accepted, |c.queue|);
      (OK, State(b.clients[i := c.(queue := Remaining(c.queue, n, p))], b.log,
                 b.sent + Address(c.id, fd, NewestFirst(c.queue, n)),
                 b.lost + Address(c.id, fd, Discarded(c.queue, n, p))))
  }

  // ---------- Steps and runs ----------

  predicate EventOk(e: Event) {
    e.Connect? ==> e.fd > 0
  }

  function StepConnect(b: State, id: Id, fd: int, accepted: nat, p: Policy): State {
    var (err, t) := Register(b.clients, id, fd);
    if err != OK then b else Retransmit(b.(clients := t), fd, accepted, p).1
  }

  function StepRequest(t: Table, fd: int, cmd: Command): (Err, Table)
    requires AllAligned(t)
  {
    match cmd
    case Subscribe(topic, sf) => ClientTable.Subscribe(t, fd, topic, sf)
    case Unsubscribe(topic) => ClientTable.Unsubscribe(t, fd, topic)
    case UnknownCommand => (SERVER_UNKNOWN_COMMAND, t)
  }

  function StepPublish(b: State, msg: Udp, failing: set<Id>): State
    requires AllAligned(b.clients)
  {
    var t, topic, pos := b.clients, TopicOf(msg), |b.log|;
    State(OfferUpTo(t, |t|, topic, pos), b.log + [msg],
          b.sent + LiveUpTo(t, |t|, topic, pos, failing, false),
          b.lost + LiveUpTo(t, |t|, topic, pos, failing, true))
  }

  function StepOf(b: State, e: Event, p: Policy): State
    requires AllAligned(b.clients)
  {
    match e
    case Connect(id, fd, accepted) => StepConnect(b, id, fd, accepted, p)
    case Disconnect(fd) => b.(clients := Close(b.clients, fd).1)
    case Request(fd, cmd) => b.(clients := StepRequest(b.clients, fd, cmd).1)
    case Publish(msg, failing) => StepPublish(b, msg, failing)
  }

  function Step(b: State, e: Event, p: Policy): (r: State)
    requires TableOk(b.clients) && EventOk(e)
    ensures TableOk(r.clients)
  {
    StepKeeps(b, e, p);
    StepOf(b, e, p)
  }

  /** A run may continue with any event but the registration of a peer under a number that still serves a client; a
      peer whose id is in use is refused, whatever its number. */
  predicate Fresh(t: Table, e: Event) {
    e.Connect? && HasFd(t, e.fd) ==> IdConnected(t, e.id)
  }

  /** No peer, registered or refused, is accepted under a number that still serves a client. */
  predicate NumberFree(t: Table, e: Event) {
    e.Connect? ==> !HasFd(t, e.fd)
  }

  lemma StepKeeps(b: State, e: Event, p: Policy)
    requires TableOk(b.clients) && EventOk(e)
    ensures TableOk(StepOf(b, e, p).clients)
    ensures FdsDistinct(b.clients) && Fresh(b.clients, e) ==> FdsDistinct(StepOf(b, e, p).clients)
  {
    match e
    case Connect(id, fd, accepted) => ConnectKeeps(b, id, fd, accepted, p);
    case Disconnect(fd) => CloseKeeps(b.clients, fd);
    case Request(fd, cmd) => RequestKeeps(b.clients, fd, cmd);
    case Publish(msg, failing) => OfferKeeps(b.clients, |b.clients|, TopicOf(msg), |b.log|);
  }

  lemma QueueUpdateKeeps(t: Table, i: nat, q: seq<nat>)
    requires TableOk(t) && i < |t|
    ensures TableOk(t[i := t[i].(queue := q)])
    ensures FdsDistinct(t) ==> FdsDistinct(t[i := t[i].(queue := q)])
  {
    assert ClientOk(t[i].(queue := q));
  }

  lemma ConnectKeeps(b: State, id: Id, fd: int, accepted: nat, p: Policy)
    requires TableOk(b.clients) && fd > 0
    ensures TableOk(StepConnect(b, id, fd, accepted, p).clients)
    ensures FdsDistinct(b.clients) && (HasFd(b.clients, fd) ==> IdConnected(b.clients, id)) ==>
      FdsDistinct(StepConnect(b, id, fd, accepted, p).clients)
  {
    RegisterKeeps(b.clients, id, fd);
    RegisterAcceptsIff(b.clients, id, fd);
    var t := Register(b.clients, id, fd).1;
    var i := FindFd(t, fd);
    if i < |t| {
      QueueUpdateKeeps(t, i, Remaining(t[i].queue, Min(accepted, |t[i].queue|), p));
    }
  }

  lemma {:induction false} OfferKeeps(t: Table, n: nat, topic: Topic, pos: nat)
    requires TableOk(t) && n <= |t|
    ensures TableOk(OfferUpTo(t, n, topic, pos))
    ensures FdsDistinct(t) ==> FdsDistinct(OfferUpTo(t, n, topic, pos))
  {
    hide FdsDistinct, SubscribedSf, Distinct;
    if n > 0 {
      OfferKeeps(t, n - 1, topic, pos);
      var r := OfferUpTo(t, n - 1, topic, pos);
      var c := Offer(t[n - 1], topic, pos);
      assert c == r[n - 1].(queue := c.queue);
      QueueUpdateKeeps(r, n - 1, c.queue);
    }
  }

  lemma RequestKeeps(t: Table, fd: int, cmd: Command)
    requires TableOk(t)
    ensures TableOk(StepRequest(t, fd, cmd).1)
    ensures FdsDistinct(t) ==> FdsDistinct(StepRequest(t, fd, cmd).1)
  {
    match cmd
    case Subscribe(topic, sf) => SubscribeKeeps(t, fd, topic, sf);
    case Unsubscribe(topic) => UnsubscribeKeeps(t, fd, topic);
    case UnknownCommand =>
  }

  // ---------- The connected descriptors ----------

  lemma RegisterHasFd(t: Table, id: Id, fd: int, x: int)
    requires TableOk(t) && fd > 0
    ensures HasFd(Register(t, id, fd).1, x) <==> HasFd(t, x) || (x == fd && Register(t, id, fd).0 == OK)
  {
    var r := Register(t, id, fd).1;
    var i := FindId(t, id);
    if Register(t, id, fd).0 == OK {
      assert r[i].fd == fd;
      assert forall k :: 0 <= k < |t| && k != i ==> r[k] == t[k];
      var j, k := FindFd(t, x), FindFd(r, x);
      assert x >= 0 && j < |t| ==> r[j].fd == x;
      assert x >= 0 && k < |r| && k != i ==> t[k].fd == x;
    }
  }

  lemma QueueHasFd(t: Table, r: Table, x: int)
    requires |r| == |t| && forall i :: 0 <= i < |t| ==> r[i].fd == t[i].fd && r[i].status == t[i].status
    ensures HasFd(r, x) <==> HasFd(t, x)
  {
    var i, j := FindFd(t, x), FindFd(r, x);
    assert i < |t| ==> r[i].fd == x;
    assert j < |t| ==> t[j].fd == x;
  }

  lemma ConnectHasFd(b: State, id: Id, fd: int, accepted: nat, p: Policy, x: int)
    requires TableOk(b.clients) && fd > 0
    ensures HasFd(StepConnect(b, id, fd, accepted, p).clients, x) <==>
      HasFd(b.clients, x) || (x == fd && Register(b.clients, id, fd).0 == OK)
  {
    RegisterHasFd(b.clients, id, fd, x);
    QueueHasFd(Register(b.clients, id, fd).1, StepConnect(b, id, fd, accepted, p).clients, x);
  }

  lemma CloseHasFd(t: Table, fd: int, x: int)
    requires Inv(t) && HasFd(t, fd)
    ensures Close(t, fd).0 == OK
    ensures HasFd(Close(t, fd).1, x) <==> HasFd(t, x) && x != fd
  {
    var i, r := FindFd(t, fd), Close(t, fd).1;
    assert forall k :: 0 <= k < |t| && k != i ==> r[k] == t[k] && t[k].fd != fd;
    var j, k := FindFd(t, x), FindFd(r, x);
    assert x >= 0 && j < |t| && x != fd ==> r[j].fd == x;
    assert x >= 0 && k < |r| ==> k != i && t[k].fd == x;
  }

  lemma RequestHasFd(t: Table, fd: int, cmd: Command, x: int)
    requires TableOk(t)
    ensures HasFd(StepRequest(t, fd, cmd).1, x) <==> HasFd(t, x)
  {
    QueueHasFd(t, StepRequest(t, fd, cmd).1, x);
  }

  lemma PublishHasFd(b: State, msg: Udp, failing: set<Id>, x: int)
    requires TableOk(b.clients)
    ensures HasFd(StepPublish(b, msg, failing).clients, x) <==> HasFd(b.clients, x)
  {
    QueueHasFd(b.clients, StepPublish(b, msg, failing).clients, x);
  }

  // ---------- Runs ----------

  predicate EventsOk(h: seq<Event>) {
    forall k :: 0 <= k < |h| ==> EventOk(h[k])
  }

  /** The state after the first n events of a run. */
  function Run(h: seq<Event>, n: nat, p: Policy): (b: State)
    requires EventsOk(h) && n <= |h|
    ensures TableOk(b.clients)
  {
    if n == 0 then INIT else Step(Run(h, n - 1, p), h[n - 1], p)
  }

  /** Runs in which nobody is registered under a number that already serves a client. */
  predicate Legal(h: seq<Event>, n: nat, p: Policy)
    requires EventsOk(h) && n <= |h|
  {
    n == 0 ||
    (Legal(h, n - 1, p) && Fresh(Run(h, n - 1, p).clients, h[n - 1]))
  }

  /** Runs in which no number that serves a client is handed out at all. */
  predicate NumbersFree(h: seq<Event>, n: nat, p: Policy)
    requires EventsOk(h) && n <= |h|
  {
    n == 0 ||
    (NumbersFree(h, n - 1, p) && NumberFree(Run(h, n - 1, p).clients, h[n - 1]))
  }

  /** No two connected clients share a descriptor after any of the first n events. */
  predicate NeverShared(h: seq<Event>, n: nat, p: Policy)
    requires EventsOk(h) && n <= |h|
  {
    Inv(Run(h, n, p).clients) && (n == 0 || NeverShared(h, n - 1, p))
  }

  lemma {:induction false} LegalRunInv(h: seq<Event>, n: nat, p: Policy)
    requires EventsOk(h) && n <= |h| && Legal(h, n, p)
    ensures Inv(Run(h, n, p).clients)
  {
    hide StepOf;
    if n > 0 {
      LegalRunInv(h, n - 1, p);
      StepKeeps(Run(h, n - 1, p), h[n - 1], p);
    }
  }

  lemma {:induction false} RunAgrees(h: seq<Event>, h': seq<Event>, n: nat, p: Policy)
    requires EventsOk(h) && EventsOk(h') && n <= |h| && n <= |h'|
    requires forall k :: 0 <= k < n ==> h[k] == h'[k]
    ensures Run(h', n, p) == Run(h, n, p)
  {
    hide StepOf;
    if n > 0 {
      RunAgrees(h, h', n - 1, p);
    }
  }

  lemma {:induction false} LegalAgrees(h: seq<Event>, h': seq<Event>, n: nat, p: Policy)
    requires EventsOk(h) && EventsOk(h') && n <= |h| && n <= |h'|
    requires forall k :: 0 <= k < n ==> h[k] == h'[k]
    ensures Legal(h', n, p) == Legal(h, n, p)
  {
    hide StepOf;
    if n > 0 {
      LegalAgrees(h, h', n - 1, p);
      RunAgrees(h, h', n - 1, p);
    }
  }

  lemma StepHasFd(b: State, e: Event, p: Policy, x: int)
    requires Inv(b.clients) && EventOk(e) && HasFd(Step(b, e, p).clients, x)
    ensures HasFd(b.clients, x) || (e.Connect? && e.fd == x)
  {
    match e
    case Connect(id, fd, accepted) => ConnectHasFd(b, id, fd, accepted, p, x);
    case Disconnect(fd) =>
      if HasFd(b.clients, fd) {
        CloseHasFd(b.clients, fd, x);
      }
    case Request(fd, cmd) => RequestHasFd(b.clients, fd, cmd, x);
    case Publish(msg, failing) => PublishHasFd(b, msg, failing, x);
  }

  lemma {:induction false} RunHasFd(h: seq<Event>, n: nat, p: Policy, x: int)
    requires EventsOk(h) && n <= |h| && Legal(h, n, p) && HasFd(Run(h, n, p).clients, x)
    ensures exists k :: 0 <= k < n && h[k].Connect? && h[k].fd == x
  {
    hide StepOf, HasFd;
    if n == 0 {
      NoneHasFd(x);
    } else {
      LegalRunInv(h, n - 1, p);
      StepHasFd(Run(h, n - 1, p), h[n - 1], p, x);
      if HasFd(Run(h, n - 1, p).clients, x) {
        RunHasFd(h, n - 1, p, x);
      }
    }
  }

  lemma NoneHasFd(x: int)
    ensures !HasFd(INIT.clients, x)
  {
  }

  /** A run is legal in particular when no descriptor is handed out twice. */
  lemma {:induction false} DistinctFdsLegal(h: seq<Event>, n: nat, p: Policy)
    requires EventsOk(h) && n <= |h|
    requires forall i, j :: 0 <= i < j < n && h[i].Connect? && h[j].Connect? ==> h[i].fd != h[j].fd
    ensures Legal(h, n, p)
  {
    hide Run, HasFd;
    if n > 0 {
      DistinctFdsLegal(h, n - 1, p);
      if !Fresh(Run(h, n - 1, p).clients, h[n - 1]) {
        RunHasFd(h, n - 1, p, h[n - 1].fd);
      }
    }
  }

  lemma {:induction false} LegalPrefix(h: seq<Event>, m: nat, n: nat, p: Policy)
    requires EventsOk(h) && m <= n <= |h| && Legal(h, n, p)
    ensures Legal(h, m, p)
  {
    hide Run;
    if m < n {
      LegalPrefix(h, m, n - 1, p);
    }
  }

  // ---------- When descriptors are shared ----------

  /** Registering under the number of a client makes two clients share it. */
  lemma RegisteredShares(t: Table, id: Id, fd: int)
    requires Inv(t) && fd > 0 && HasFd(t, fd) && !IdConnected(t, id)
    ensures !FdsDistinct(Register(t, id, fd).1)
  {
    var j, i, r := FindFd(t, fd), FindId(t, id), Register(t, id, fd).1;
    RegisterAcceptsIff(t, id, fd);
    assert t[j].status.Active? && j != i;
    assert r[i].status.Active? && r[i].fd == fd && r[j] == t[j];
  }

  lemma ConnectShares(b: State, id: Id, fd: int, accepted: nat, p: Policy)
    requires Inv(b.clients) && fd > 0 && HasFd(b.clients, fd) && !IdConnected(b.clients, id)
    ensures !FdsDistinct(StepConnect(b, id, fd, accepted, p).clients)
  {
    hide HasFd, IdConnected, Register;
    RegisterAcceptsIff(b.clients, id, fd);
    RegisteredShares(b.clients, id, fd);
    var t := Register(b.clients, id, fd).1;
    var r := StepConnect(b, id, fd, accepted, p).clients;
    assert forall k :: 0 <= k < |t| ==> r[k].fd == t[k].fd && r[k].status == t[k].status;
    var i, j :| 0 <= i < j < |t| && t[i].status.Active? && t[j].status.Active? && t[i].fd == t[j].fd;
    assert r[i].fd == r[j].fd;
  }

  /** An event keeps connected clients apart exactly if it does not register a peer under the number of one. */
  lemma StepInvIff(b: State, e: Event, p: Policy)
    requires Inv(b.clients) && EventOk(e)
    ensures Inv(Step(b, e, p).clients) <==> Fresh(b.clients, e)
  {
    hide StepConnect, HasFd, IdConnected, FdsDistinct;
    StepKeeps(b, e, p);
    if !Fresh(b.clients, e) {
      ConnectShares(b, e.id, e.fd, e.accepted, p);
    }
  }

  /** Over every run, no two connected clients ever share a descriptor exactly if nobody is registered under a number
      that serves a client. */
  lemma {:induction false} LegalIff(h: seq<Event>, n: nat, p: Policy)
    requires EventsOk(h) && n <= |h|
    ensures Legal(h, n, p) <==> NeverShared(h, n, p)
  {
    hide StepOf, Fresh, Inv;
    if n == 0 {
      EmptyInv();
    } else {
      LegalIff(h, n - 1, p);
      if Legal(h, n - 1, p) {
        LegalRunInv(h, n - 1, p);
        StepInvIff(Run(h, n - 1, p), h[n - 1], p);
      }
    }
  }

  lemma EmptyInv()
    ensures Inv(INIT.clients)
  {
  }

  lemma {:induction false} FreeIsLegal(h: seq<Event>, n: nat, p: Policy)
    requires EventsOk(h) && n <= |h| && NumbersFree(h, n, p)
    ensures Legal(h, n, p)
  {
    hide Run, HasFd;
    if n > 0 {
      FreeIsLegal(h, n - 1, p);
    }
  }

  lemma {:induction false} FreeAgrees(h: seq<Event>, h': seq<Event>, n: nat, p: Policy)
    requires EventsOk(h) && EventsOk(h') && n <= |h| && n <= |h'|
    requires forall k :: 0 <= k < n ==> h[k] == h'[k]
    ensures NumbersFree(h', n, p) == NumbersFree(h, n, p)
  {
    hide StepOf;
    if n > 0 {
      FreeAgrees(h, h', n - 1, p);
      RunAgrees(h, h', n - 1, p);
    }
  }
}
