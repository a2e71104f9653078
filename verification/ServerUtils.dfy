/** The server: its buffers, its vectors and its message log, and the event loop over the ready descriptors. */
module ServerUtils {
  import opened Bytes
  import opened Utils
  import opened UdpType
  import opened TcpType
  import opened TopicMsg
  import opened ClientTable
  import opened Broker
  import Commands
  import PollVectors
  import ClientVectors
  import Connections
  import opened Passes
  import SS = ServerState

  const INIT_UDP_MSGS_LEN := 20

  // ---------- What the buffers hold, as values ----------

  predicate LogOk(log: seq<Udp>) {
    forall i :: 0 <= i < |log| ==> WellTyped(log[i])
  }

  predicate QueueIn(q: seq<nat>, n: nat) {
    forall k :: 0 <= k < |q| ==> q[k] < n
  }

  predicate QueuesIn(t: Table, n: nat) {
    forall i :: 0 <= i < |t| ==> QueueIn(t[i].queue, n)
  }

  /** A message sent whole shows the rendered text of a log entry. */
  predicate FrameOk(frame: (int, seq<Byte>), sent: Sent, log: seq<Udp>, fmt: FloatFormat) {
    && frame.0 == sent.fd && |frame.1| == TCP_MSG_SIZE
    && sent.what.pos < |log| && WellTyped(log[sent.what.pos])
    && Screen(frame.1) == Render(log[sent.what.pos], fmt)
  }

  /** Each recorded delivery is a message that went out whole, and the other way round. */
  predicate FramesOk(frames: seq<(int, seq<Byte>)>, sent: seq<Sent>, log: seq<Udp>, fmt: FloatFormat) {
    && |frames| == |sent|
    && forall k :: 0 <= k < |sent| ==> FrameOk(frames[k], sent[k], log, fmt)
  }

  lemma FramesOkGrows(frames: seq<(int, seq<Byte>)>, sent: seq<Sent>, log: seq<Udp>, m: Udp, fmt: FloatFormat)
    requires FramesOk(frames, sent, log, fmt)
    ensures FramesOk(frames, sent, log + [m], fmt)
  {
    hide Screen, Render, WellTyped;
    forall k | 0 <= k < |sent|
      ensures FrameOk(frames[k], sent[k], log + [m], fmt)
    {
      assert FrameOk(frames[k], sent[k], log, fmt);
      assert (log + [m])[sent[k].what.pos] == log[sent[k].what.pos];
    }
  }

  lemma SentCount(frames: seq<(int, seq<Byte>)>, sent: seq<Sent>, log: seq<Udp>, fmt: FloatFormat)
    requires FramesOk(frames, sent, log, fmt)
    ensures |frames| == |sent|
  {
  }

  lemma FramesOkAppend(frames: seq<(int, seq<Byte>)>, sent: seq<Sent>, log: seq<Udp>, fmt: FloatFormat,
                       frame: (int, seq<Byte>), s: Sent)
    requires FramesOk(frames, sent, log, fmt) && FrameOk(frame, s, log, fmt)
    ensures FramesOk(frames + [frame], sent + [s], log, fmt)
  {
  }

  /** Ids added for later clients do not change the sends to earlier ones. */
  lemma {:induction false} LiveAgrees(t: Table, n: nat, topic: Topic, pos: nat, failing: set<Id>, id: Id, fail: bool)
    requires n <= |t| && forall i :: 0 <= i < n ==> t[i].id != id
    ensures LiveUpTo(t, n, topic, pos, failing + {id}, fail) == LiveUpTo(t, n, topic, pos, failing, fail)
  {
    if n > 0 {
      LiveAgrees(t, n - 1, topic, pos, failing, id, fail);
    }
  }

  lemma {:induction false} MuteAgrees(t: Table, n: nat, topic: Topic, failing: set<Id>, id: Id)
    requires n <= |t| && forall i :: 0 <= i < n ==> t[i].id != id
    ensures MuteUpTo(t, n, topic, failing + {id}) == MuteUpTo(t, n, topic, failing)
  {
    if n > 0 {
      MuteAgrees(t, n - 1, topic, failing, id);
    }
  }

  /** The failing clients met among the first n. */
  predicate FailingAmong(failing: set<Id>, t: Table, n: nat)
    requires n <= |t|
  {
    forall x :: x in failing ==> FindId(t, x) < n
  }

  lemma LiveStep(t: Table, n: nat, topic: Topic, pos: nat, failing: set<Id>, failed: bool, fail: bool)
    requires TableOk(t) && n < |t| && FailingAmong(failing, t, n)
    ensures var failing' := if failed then failing + {t[n].id} else failing;
      && FailingAmong(failing', t, n + 1)
      && LiveUpTo(t, n + 1, topic, pos, failing', fail) ==
           LiveUpTo(t, n, topic, pos, failing, fail) +
           if Listening(t[n], topic) && failed == fail then [Sent(t[n].id, t[n].fd, Delivery(pos, false))] else []
  {
    LiveAgrees(t, n, topic, pos, failing, t[n].id, fail);
    assert FindId(t, t[n].id) == n;
  }

  lemma MuteStep(t: Table, n: nat, topic: Topic, failing: set<Id>, failed: bool)
    requires TableOk(t) && n < |t| && FailingAmong(failing, t, n) && (failed ==> Listening(t[n], topic))
    ensures MuteUpTo(t, n + 1, topic, if failed then failing + {t[n].id} else failing) ==
      MuteUpTo(t, n, topic, failing) + if failed then {t[n].fd} else {}
  {
    MuteAgrees(t, n, topic, failing, t[n].id);
    assert FindId(t, t[n].id) == n;
  }

  /** The listed descriptor at an index, found again by a scan, and the list without it. */
  lemma ListedAt(s: SS.Snapshot, items: seq<PollVectors.PollFd>, iter: nat)
    requires SS.Sound(s) && s.poll == PollVectors.FdsOf(items) && iter < |items|
    ensures items[iter].fd in s.live && IndexOf(s.poll, items[iter].fd) == iter
    ensures PollVectors.FdsOf(RemoveAt(items, iter)) == RemoveAt(s.poll, iter)
  {
    SS.PollMember(s, iter);
  }

  lemma RegisteredContent(t: Table, id: Id, fd: int, n: nat)
    requires TableOk(t) && fd > 0 && QueuesIn(t, n)
    ensures TableOk(Register(t, id, fd).1) && QueuesIn(Register(t, id, fd).1, n)
  {
    RegisterKeeps(t, id, fd);
    var r := Register(t, id, fd).1;
    forall i | 0 <= i < |r|
      ensures QueueIn(r[i].queue, n)
    {
      assert i < |t| ==> QueueIn(t[i].queue, n);
    }
  }

  lemma RequestedContent(t: Table, fd: int, cmd: Command, n: nat)
    requires TableOk(t) && QueuesIn(t, n)
    ensures AllAligned(t) && TableOk(StepRequest(t, fd, cmd).1) && QueuesIn(StepRequest(t, fd, cmd).1, n)
  {
    RequestKeeps(t, fd, cmd);
    var r := StepRequest(t, fd, cmd).1;
    forall i | 0 <= i < |r|
      ensures QueueIn(r[i].queue, n)
    {
      assert QueueIn(t[i].queue, n);
    }
  }

  lemma ClosedContent(t: Table, fd: int, n: nat)
    requires TableOk(t) && QueuesIn(t, n)
    ensures TableOk(Close(t, fd).1) && QueuesIn(Close(t, fd).1, n)
  {
    CloseKeeps(t, fd);
    var r := Close(t, fd).1;
    forall i | 0 <= i < |r|
      ensures QueueIn(r[i].queue, n)
    {
      assert QueueIn(t[i].queue, n);
    }
  }

  lemma RetransmittedContent(b: State, fd: int, accepted: nat)
    requires TableOk(b.clients) && QueuesIn(b.clients, |b.log|)
    ensures var r := Retransmit(b, fd, accepted, DropRest).1;
      TableOk(r.clients) && QueuesIn(r.clients, |b.log|) && r.log == b.log
  {
    var i := FindFd(b.clients, fd);
    if i < |b.clients| {
      QueueUpdateKeeps(b.clients, i, []);
    }
  }

  lemma ServedFd(s: SS.Snapshot, items: seq<PollVectors.PollFd>, iter: nat)
    requires SS.Sound(s) && s.poll == PollVectors.FdsOf(items) && 1 <= iter < |items|
    ensures items[iter].fd > SS.STDIN && IndexOf(s.poll, items[iter].fd) < |s.poll| && |s.buf| == MAX_SERVER_BUFLEN
    ensures items[iter].fd != s.udp && items[iter].fd != s.tcp ==> items[iter].fd in s.wire.heard
    ensures AllAligned(s.broker.clients)
  {
    ListedAt(s, items, iter);
    assert s.poll[0] != s.poll[iter];
  }

  /** Logging a parsed message keeps the log well formed; offering it keeps the queues inside the log. */
  lemma PublishedContent(log: seq<Udp>, m: Udp, t: Table, frames: seq<(int, seq<Byte>)>, sent: seq<Sent>,
                         fmt: FloatFormat, buf: seq<Byte>, addr: Addr)
    requires LogOk(log) && QueuesIn(t, |log|) && TableOk(t) && FramesOk(frames, sent, log, fmt)
    requires |buf| == MAX_SERVER_BUFLEN && Parse(buf, addr) == Some(m)
    ensures LogOk(log + [m]) && FramesOk(frames, sent, log + [m], fmt)
    ensures var r := OfferUpTo(t, |t|, TopicOf(m), |log|); QueuesIn(r, |log| + 1) && TableOk(r)
  {
    hide Parse, WellTyped, FramesOk, TopicOf, OfferUpTo, QueuesIn, TableOk, LogOk;
    ParsedIsWellTyped(buf, addr);
    LogOkAppend(log, m);
    FramesOkGrows(frames, sent, log, m, fmt);
    OfferedQueuesIn(t, |t|, TopicOf(m), |log|);
  }

  lemma LogOkAppend(log: seq<Udp>, m: Udp)
    requires LogOk(log) && WellTyped(m)
    ensures LogOk(log + [m])
  {
  }

  lemma ReplayStarts(id: Id, fd: int, q: seq<nat>)
    ensures Address(id, fd, NewestFirst(q, 0)) == []
  {
  }

  lemma ReplayStep(id: Id, fd: int, q: seq<nat>, n: nat)
    requires n < |q|
    ensures Address(id, fd, NewestFirst(q, n + 1)) ==
      Address(id, fd, NewestFirst(q, n)) + [Sent(id, fd, Delivery(q[|q| - n - 1], true))]
  {
  }

  lemma OfferStarts(t: Table, topic: Topic, pos: nat)
    requires TableOk(t)
    ensures AllAligned(t) && OfferUpTo(t, 0, topic, pos) == t && FailingAmong({}, t, 0)
    ensures MuteUpTo(t, 0, topic, {}) == {}
    ensures LiveUpTo(t, 0, topic, pos, {}, false) == LiveUpTo(t, 0, topic, pos, {}, true) == []
  {
  }

  lemma OfferStep(t: Table, n: nat, topic: Topic, pos: nat)
    requires TableOk(t) && n < |t|
    ensures var r := OfferUpTo(t, n, topic, pos);
      && |r| == |t| && AllAligned(r) && r[n] == t[n] && ClientOk(t[n])
      && OfferUpTo(t, n + 1, topic, pos) == r[n := Offer(r[n], topic, pos)]
  {
    OfferKeeps(t, n, topic, pos);
  }

  lemma OfferedQueuesIn(t: Table, n: nat, topic: Topic, pos: nat)
    requires TableOk(t) && n <= |t| && QueuesIn(t, pos)
    ensures QueuesIn(OfferUpTo(t, n, topic, pos), pos + 1) && TableOk(OfferUpTo(t, n, topic, pos))
  {
    OfferKeeps(t, n, topic, pos);
    var r := OfferUpTo(t, n, topic, pos);
    forall i | 0 <= i < |r|
      ensures QueueIn(r[i].queue, pos + 1)
    {
      assert QueueIn(t[i].queue, pos);
    }
  }

  /** Lists stdin and the server's own sockets. */
  method InitServerPollVec(udp: int, tcp: int) returns (v: PollVectors.PollVec)
    ensures v.Valid() && fresh(v) && fresh(v.pfds)
    ensures PollVectors.FdsOf(v.items) == [SS.STDIN, udp, tcp]
  {
    v := new PollVectors.PollVec(PollVectors.INIT_NFDS);
    v.AddFd(SS.STDIN);
    v.AddFd(udp);
    v.AddFd(tcp);
  }

  /** Three byte buffers of the server's sizes, apart from one another and from two other arrays. */
  predicate AreBuffers(b: (array<Byte>, array<Byte>, array<Byte>), pfds: array<PollVectors.PollFd>, store: array<Udp>) {
    && b.0 != b.1 && b.0 != b.2 && b.1 != b.2
    && b.0.Length == MAX_SERVER_BUFLEN && b.1.Length == TCP_MSG_SIZE && b.2.Length == TCP_MSG_SIZE
    && pfds as object != b.0 && pfds as object != b.1 && pfds as object != b.2
    && store as object != b.0 && store as object != b.1 && store as object != b.2
    && store as object != pfds
  }

  class Server {
    const udpSocket: int
    const tcpSocket: int
    const net: Network
    const pollVec: PollVectors.PollVec
    const clients: ClientVectors.ClientVec
    const buf: array<Byte>
    const sendMsg: array<Byte>
    const recvMsg: array<Byte>
    const cmd: array<Byte>
    const fmt: FloatFormat
    var udpMsgs: array<Udp>
    var udpMsgsLen: nat
    var udpMsgsCapacity: nat
    /** The stored messages, the sends that succeeded and failed, and the broker events so far. */
    ghost var log: seq<Udp>
    ghost var sent: seq<Sent>
    ghost var lost: seq<Sent>
    ghost var hist: seq<Event>

    /** The parts are separate objects of the right sizes, each valid. */
    ghost predicate Shape()
      reads this, pollVec, pollVec.pfds, clients, clients.Repr, net, udpMsgs
    {
      && AreBuffers((buf, sendMsg, recvMsg), pollVec.pfds, udpMsgs)
      && clients.Repr !! {this, net, pollVec, pollVec.pfds, buf, sendMsg, recvMsg, cmd, udpMsgs}
      && cmd.Length == Commands.MAX_CMD_LEN && cmd != buf
      && pollVec.Valid() && clients.Valid() && net.Valid()
      && FormatOk(fmt)
      && udpMsgsLen <= udpMsgsCapacity == udpMsgs.Length && 1 <= udpMsgsCapacity
      && log == udpMsgs[..udpMsgsLen]
    }

    /** The log holds well-formed messages, the queues point into it, and what went out shows them. */
    ghost predicate Content()
      reads this, clients, net
    {
      && LogOk(log) && QueuesIn(clients.table, |log|) && TableOk(clients.table)
      && FramesOk(net.frames, sent, log, fmt)
    }

    ghost function Brokerage(): State
      reads this, clients
    {
      State(clients.table, log, sent, lost)
    }

    ghost function Value(): SS.Snapshot
      reads this, pollVec, clients, net, buf
    {
      SS.Snapshot(udpSocket, tcpSocket, PollVectors.FdsOf(pollVec.items), Brokerage(), buf[..],
                  net.live, net.opens, net.closes, hist, net.Wired())
    }

    ghost predicate Valid()
      reads this, pollVec, pollVec.pfds, clients, clients.Repr, net, udpMsgs, buf
    {
      Shape() && Content() && SS.Sound(Value())
    }

    /** A server made of given parts that nothing else uses, with an empty log and no clients. */
    constructor (udp: int, tcp: int, fmt: FloatFormat, net: Network, pollVec: PollVectors.PollVec,
                 clients: ClientVectors.ClientVec, buffers: (array<Byte>, array<Byte>, array<Byte>), cmd: array<Byte>,
                 store: array<Udp>)
      requires FormatOk(fmt) && net.Valid() && pollVec.Valid() && clients.Valid()
      requires AreBuffers(buffers, pollVec.pfds, store) && store.Length == INIT_UDP_MSGS_LEN
      requires clients.Repr !! {net, pollVec, pollVec.pfds, buffers.0, buffers.1, buffers.2, cmd, store}
      requires cmd.Length == Commands.MAX_CMD_LEN && cmd != buffers.0
      ensures Shape() && log == [] && sent == [] && lost == [] && hist == []
      ensures udpSocket == udp && tcpSocket == tcp && this.net == net && this.pollVec == pollVec
      ensures this.clients == clients && (buf, sendMsg, recvMsg) == buffers && udpMsgs == store
      ensures this.cmd == cmd && this.fmt == fmt
    {
      udpSocket, tcpSocket, this.fmt, this.net, this.pollVec, this.clients := udp, tcp, fmt, net, pollVec, clients;
      buf, sendMsg, recvMsg, this.cmd, udpMsgs := buffers.0, buffers.1, buffers.2, cmd, store;
      udpMsgsLen, udpMsgsCapacity := 0, INIT_UDP_MSGS_LEN;
      log, sent, lost, hist := [], [], [], [];
      new;
      hide FormatOk, PollVectors.PollVec.Valid, ClientVectors.ClientVec.Valid, Network.Valid;
    }

    /** The send buffer shows a log entry. */
    ghost predicate Packed(pos: nat)
      reads this, sendMsg
    {
      && sendMsg.Length == TCP_MSG_SIZE && pos < |log| && WellTyped(log[pos])
      && Screen(sendMsg[..]) == Render(log[pos], fmt)
    }

    /** Sends the packed log entry to a client, and records the delivery if it went out whole. */
    method SendPacked(fd: int, pos: nat, ghost id: Id, ghost what: Delivery) returns (err: Err)
      requires Shape() && Packed(pos) && what.pos == pos && fd >= 0
      requires FramesOk(net.frames, sent, log, fmt)
      modifies net`out, net`frames, this`sent
      ensures Shape() && Packed(pos)
      ensures sent == if err == OK then old(sent) + [Sent(id, fd, what)] else old(sent)
      ensures FramesOk(net.frames, sent, log, fmt)
      ensures Mute(net.out) == if err == OK then Mute(old(net.out)) else Mute(old(net.out)) + {fd}
    {
      hide Render, Screen, WellTyped, FormatOk, PollVectors.PollVec.Valid, ClientVectors.ClientVec.Valid, Network.Valid;
      hide Mute;
      err := SendTcpMsg(net, fd, sendMsg);
      if err == OK {
        FramesOkAppend(old(net.frames), sent, log, fmt, (fd, sendMsg[..]), Sent(id, fd, what));
        sent := sent + [Sent(id, fd, what)];
      }
    }

    method PackMessage(pos: nat) returns (err: Err)
      requires Shape() && LogOk(log) && pos < |log|
      modifies sendMsg
      ensures Shape() && err == OK && Packed(pos)
    {
      assert udpMsgs[pos] == log[pos];
      err := PackTopicToTcpMsg(sendMsg, udpMsgs[pos], fmt);
    }

    /** The body of the transmission loop for one client: a live send, a stored reference, or nothing. */
    method OfferTo(iter: nat, pos: nat) returns (ghost failed: bool)
      requires Shape() && Packed(pos) && iter < |clients.table| && AllAligned(clients.table)
      requires ClientOk(clients.table[iter])
      requires FramesOk(net.frames, sent, log, fmt)
      modifies clients.Repr, net`out, net`frames, this`sent, this`lost
      ensures Shape() && Packed(pos) && fresh(clients.Repr - old(clients.Repr))
      ensures FramesOk(net.frames, sent, log, fmt)
      ensures var c := old(clients.table)[iter]; var topic := TopicOf(log[pos]);
        var live := [Sent(c.id, c.fd, Delivery(pos, false))];
        && clients.table == old(clients.table)[iter := Offer(c, topic, pos)]
        && sent == old(sent) + (if Listening(c, topic) && !failed then live else [])
        && lost == old(lost) + (if Listening(c, topic) && failed then live else [])
        && Mute(net.out) == Mute(old(net.out)) + (if failed then {c.fd} else {})
        && (failed ==> Listening(c, topic))
    {
      hide Mute;
      hide Render, Screen, WellTyped, FormatOk, PollVectors.PollVec.Valid, ClientVectors.ClientVec.Valid, Network.Valid;
      hide FramesOk, IndexOf, TopicOf;
      failed := false;
      ghost var c := clients.table[iter];
      assert udpMsgs[pos] == log[pos];
      var j := clients.FindTopic(iter, TopicOf(udpMsgs[pos]));
      if j < clients.TopicsLenAt(iter) {
        if clients.StatusAt(iter) == Active {
          var fd := clients.FdAt(iter);
          var err := SendPacked(fd, pos, c.id, Delivery(pos, false));
          if err != OK {
            failed := true;
            lost := lost + [Sent(c.id, c.fd, Delivery(pos, false))];
          }
        } else if clients.OptionAt(iter, j) {
          StoreFor(iter, pos);
        }
      }
    }

    /** Stacks a reference to a log entry for a client that is away. */
    method StoreFor(iter: nat, pos: nat)
      requires Shape() && iter < |clients.table|
      modifies clients.Repr
      ensures Shape() && fresh(clients.Repr - old(clients.Repr))
      ensures clients.table == old(clients.table)[iter :=
        old(clients.table)[iter].(queue := old(clients.table)[iter].queue + [pos])]
    {
      hide FormatOk, PollVectors.PollVec.Valid, ClientVectors.ClientVec.Valid, Network.Valid;
      var err := clients.AddTopicMsgForClient(pos, iter);
    }

    /** transmit_topic_to_clients: offers the last logged message to every client, in table order. */
    method TransmitTopicToClients() returns (err: Err, ghost failing: set<Id>)
      requires Shape() && LogOk(log) && |log| > 0 && TableOk(clients.table)
      requires FramesOk(net.frames, sent, log, fmt)
      modifies clients.Repr, sendMsg, net`out, net`frames, this`sent, this`lost
      ensures Shape() && fresh(clients.Repr - old(clients.Repr)) && err == OK
      ensures FramesOk(net.frames, sent, log, fmt)
      ensures var t, topic, pos := old(clients.table), TopicOf(log[|log| - 1]), |log| - 1;
        && clients.table == OfferUpTo(t, |t|, topic, pos)
        && sent == old(sent) + LiveUpTo(t, |t|, topic, pos, failing, false)
        && lost == old(lost) + LiveUpTo(t, |t|, topic, pos, failing, true)
        && Mute(net.out) == Mute(old(net.out)) + MuteUpTo(t, |t|, topic, failing)
    {
      hide Shape, Packed, FramesOk, Offer, TopicOf, Listening, LogOk, TableOk, OfferUpTo, LiveUpTo, FailingAmong;
      hide Mute, MuteUpTo, ClientOk;
      failing := {};
      var pos := LastPos();
      err := PackMessage(pos);
      ghost var t, topic := clients.table, TopicOf(log[pos]);
      OfferStarts(t, topic, pos);
      var count := ClientCount();
      var iter := 0;
      while iter < count
        invariant 0 <= iter <= |t| == count
        invariant Shape() && Packed(pos) && fresh(clients.Repr - old(clients.Repr))
        invariant FramesOk(net.frames, sent, log, fmt)
        invariant clients.table == OfferUpTo(t, iter, topic, pos) && FailingAmong(failing, t, iter)
        invariant Mute(net.out) == Mute(old(net.out)) + MuteUpTo(t, iter, topic, failing)
        invariant sent == old(sent) + LiveUpTo(t, iter, topic, pos, failing, false)
        invariant lost == old(lost) + LiveUpTo(t, iter, topic, pos, failing, true)
      {
        OfferStep(t, iter, topic, pos);
        ghost var failed := OfferTo(iter, pos);
        MuteStep(t, iter, topic, failing, failed);
        LiveStep(t, iter, topic, pos, failing, failed, false);
        LiveStep(t, iter, topic, pos, failing, failed, true);
        failing := if failed then failing + {t[iter].id} else failing;
        iter := iter + 1;
      }
    }

    /** The replay loop: newest first, until the queue is empty or a send fails. Packing a logged message never
        fails, so the loop has no other way out. */
    method Replay(i: nat, fd: int) returns (remaining: nat)
      requires Shape() && LogOk(log) && QueuesIn(clients.table, |log|) && i < |clients.table|
      requires FramesOk(net.frames, sent, log, fmt) && fd >= 0
      modifies sendMsg, net`out, net`frames, this`sent
      ensures Shape() && FramesOk(net.frames, sent, log, fmt)
      ensures var c := clients.table[i];
        && remaining <= |c.queue|
        && sent == old(sent) + Address(c.id, fd, NewestFirst(c.queue, |c.queue| - remaining))
      ensures Mute(net.out) == Mute(old(net.out)) + if remaining > 0 then {fd} else {}
    {
      hide Mute;
      hide Shape, Packed, FramesOk, LogOk, NewestFirst, Address;
      ghost var c := clients.table[i];
      assert QueueIn(c.queue, |log|);
      remaining := ReadyLen(i);
      ReplayStarts(c.id, fd, c.queue);
      while remaining > 0
        invariant remaining <= |c.queue| && Mute(net.out) == Mute(old(net.out))
        invariant Shape() && FramesOk(net.frames, sent, log, fmt)
        invariant sent == old(sent) + Address(c.id, fd, NewestFirst(c.queue, |c.queue| - remaining))
      {
        var pos := Ready(i, remaining - 1);
        var err := PackMessage(pos);
        err := SendPacked(fd, pos, c.id, Delivery(pos, true));
        if err != OK {
          return;
        }
        ReplayStep(c.id, fd, c.queue, |c.queue| - remaining);
        remaining := remaining - 1;
      }
    }

    method ReadyLen(i: nat) returns (n: nat)
      requires Shape() && i < |clients.table|
      ensures n == |clients.table[i].queue|
    {
      return clients.ReadyLenAt(i);
    }

    method Ready(i: nat, k: nat) returns (pos: nat)
      requires Shape() && i < |clients.table| && k < |clients.table[i].queue|
      ensures pos == clients.table[i].queue[k]
    {
      return clients.ReadyAt(i, k);
    }

    /** ready_msgs_len = n */
    method SetReadyLen(i: nat, n: nat)
      requires Shape() && i < |clients.table| && n <= |clients.table[i].queue|
      modifies clients.Repr
      ensures Shape() && clients.Repr == old(clients.Repr)
      ensures clients.table == old(clients.table)[i :=
        old(clients.table)[i].(queue := old(clients.table)[i].queue[..n])]
    {
      hide FormatOk, PollVectors.PollVec.Valid, ClientVectors.ClientVec.Valid, Network.Valid;
      clients.Truncate(i, n);
    }

    method ScanFd(fd: int) returns (i: nat)
      requires Shape()
      ensures i == FindFd(clients.table, fd)
    {
      i := clients.ScanFd(fd);
    }

    /** retransmit_topics_to_client: replays the queue of the client that holds a descriptor, and empties it,
        even after a failed send. */
    method RetransmitTopicsToClient(fd: int) returns (err: Err, ghost accepted: nat)
      requires Shape() && LogOk(log) && QueuesIn(clients.table, |log|)
      requires FramesOk(net.frames, sent, log, fmt) && fd >= 0
      modifies clients.Repr, sendMsg, net`out, net`frames, this`sent, this`lost
      ensures Shape() && fresh(clients.Repr - old(clients.Repr)) && FramesOk(net.frames, sent, log, fmt)
      ensures (err, Brokerage()) == Retransmit(old(Brokerage()), fd, accepted, DropRest)
      ensures Mute(net.out) == Mute(old(net.out)) +
        if accepted < |QueueOn(old(clients.table), fd)| then {fd} else {}
    {
      hide Mute;
      hide Packed, FramesOk, LogOk, NewestFirst, Address, OldestFirst, FindFd;
      hide FormatOk, AreBuffers, PollVectors.PollVec.Valid, ClientVectors.ClientVec.Valid, Network.Valid;
      accepted := 0;
      var i := ScanFd(fd);
      var count := ClientCount();
      if i == count {
        return CLIENTS_VEC_CLIENT_NOT_FOUND, accepted;
      }
      ghost var c := clients.table[i];
      var remaining := Replay(i, fd);
      if remaining > 0 {
        SetReadyLen(i, remaining);
      }
      SetReadyLen(i, 0);
      assert clients.table[i] == c.(queue := []);
      assert clients.table == old(clients.table)[i := c.(queue := [])];
      accepted := |c.queue| - remaining;
      lost := lost + Address(c.id, fd, Discarded(c.queue, accepted, DropRest));
      assert Min(accepted, |c.queue|) == accepted;
      assert log == old(log);
      assert sent == old(sent) + Address(c.id, fd, NewestFirst(c.queue, accepted));
      return OK, accepted;
    }

    method ClientCount() returns (n: nat)
      requires Shape()
      ensures n == |clients.table|
    {
      return clients.Count();
    }

    method LastPos() returns (pos: nat)
      requires Shape() && |log| > 0
      ensures pos == |log| - 1
    {
      return udpMsgsLen - 1;
    }

    method GrowStore()
      requires Shape()
      modifies this`udpMsgs, this`udpMsgsCapacity
      ensures Shape() && udpMsgsLen < udpMsgsCapacity
      ensures udpMsgs == old(udpMsgs) || fresh(udpMsgs)
    {
      hide FormatOk, PollVectors.PollVec.Valid, ClientVectors.ClientVec.Valid, Network.Valid;
      if udpMsgsLen == udpMsgsCapacity {
        udpMsgs := ClientVectors.Grow(udpMsgs, udpMsgsCapacity, CLEARED);
        udpMsgsCapacity := udpMsgsCapacity * REALLOC_FACTOR;
      }
    }

    /** add_server_udp_msg: logs the datagram in the receive buffer if its type is known. */
    method AddServerUdpMsg(addr: Addr) returns (err: Err)
      requires Shape()
      modifies this`udpMsgs, this`udpMsgsCapacity, this`udpMsgsLen, this`log, udpMsgs
      ensures Shape() && (udpMsgs == old(udpMsgs) || fresh(udpMsgs))
      ensures buf[..] == old(buf[..])
      ensures match Parse(old(buf[..]), addr)
        case None => err == UDP_UNKNOWN_DATA_TYPE && log == old(log)
        case Some(m) => err == OK && log == old(log) + [m]
    {
      hide FormatOk, PollVectors.PollVec.Valid, ClientVectors.ClientVec.Valid, Network.Valid, Parse;
      GrowStore();
      udpMsgs[udpMsgsLen] := CLEARED;
      err := ParseUdpTypeFrom(udpMsgs, udpMsgsLen, addr, buf);
      assert udpMsgs[..udpMsgsLen] == log;
      if err != OK {
        return;
      }
      udpMsgsLen := udpMsgsLen + 1;
      log := log + [udpMsgs[udpMsgsLen - 1]];
    }

    /** Logs the received datagram and transmits it, or refuses its type. */
    method PublishReceived(addr: Addr) returns (err: Err, ghost failing: set<Id>)
      requires Shape() && Content()
      modifies this`udpMsgs, this`udpMsgsCapacity, this`udpMsgsLen, this`log, udpMsgs
      modifies clients.Repr, sendMsg, net`out, net`frames, this`sent, this`lost
      ensures Shape() && Content() && (udpMsgs == old(udpMsgs) || fresh(udpMsgs))
      ensures fresh(clients.Repr - old(clients.Repr)) && buf[..] == old(buf[..])
      ensures match Parse(old(buf[..]), addr)
        case None => err == UDP_UNKNOWN_DATA_TYPE && Brokerage() == old(Brokerage())
        case Some(m) => err == OK && log == old(log) + [m] && Brokerage() == StepPublish(old(Brokerage()), m, failing)
      ensures match Parse(old(buf[..]), addr)
        case None => Mute(net.out) == Mute(old(net.out))
        case Some(m) => var t := old(clients.table);
          Mute(net.out) == Mute(old(net.out)) + MuteUpTo(t, |t|, TopicOf(m), failing)
    {
      hide Mute, MuteUpTo;
      hide FormatOk, PollVectors.PollVec.Valid, ClientVectors.ClientVec.Valid, Network.Valid;
      hide Parse, FramesOk, LogOk, QueuesIn, TableOk, WellTyped, TopicOf, OfferUpTo, LiveUpTo;
      failing := {};
      err := AddServerUdpMsg(addr);
      if err != OK {
        return;
      }
      PublishedContent(old(log), log[|log| - 1], clients.table, net.frames, sent, fmt, buf[..], addr);
      err, failing := TransmitTopicToClients();
    }

    /** Closes and unlists the descriptor at an index. */
    method RemoveFromPoll(iter: nat)
      requires Valid() && iter < |pollVec.items|
      modifies net`live, net`closes, pollVec, pollVec.pfds
      ensures Shape() && Content() && pollVec.pfds == old(pollVec.pfds)
      ensures pollVec.items == RemoveAt(old(pollVec.items), iter)
      ensures Value() == SS.Drop(old(Value()), old(pollVec.items)[iter].fd)
    {
      hide FormatOk, Network.Valid, ClientVectors.ClientVec.Valid, PollVectors.PollVec.Valid, PollVectors.FdsOf;
      hide FramesOk, LogOk, QueuesIn, TableOk;
      ghost var s := Value();
      ListedAt(s, pollVec.items, iter);
      assert pollVec.items[iter].fd in net.live;
      var err := pollVec.RemoveFd(net, iter);
    }

    method AddToPoll(fd: int)
      requires Shape() && Content()
      modifies pollVec, pollVec.pfds
      ensures Shape() && Content() && (pollVec.pfds == old(pollVec.pfds) || fresh(pollVec.pfds))
      ensures pollVec.items == old(pollVec.items) + [PollVectors.PollFd(fd, false)]
    {
      hide FormatOk, Network.Valid, ClientVectors.ClientVec.Valid, PollVectors.PollVec.Valid;
      hide FramesOk, LogOk, QueuesIn, TableOk;
      pollVec.AddFd(fd);
    }

    method ReceiveDatagram() returns (count: int, addr: Addr, ghost bytes: seq<Byte>)
      requires Valid()
      modifies buf
      ensures Valid() && |bytes| <= MAX_SERVER_BUFLEN && (count > 0 ==> |bytes| == count)
      ensures Value() == old(Value()).(buf := if count > 0 then Receive(old(buf[..]), bytes) else old(buf[..]))
    {
      hide FormatOk, Network.Valid, ClientVectors.ClientVec.Valid, PollVectors.PollVec.Valid, PollVectors.FdsOf;
      hide FramesOk, LogOk, QueuesIn, TableOk;
      count, addr, bytes := net.RecvFrom(buf);
    }

    /** Logs the received datagram, transmits it and records the event, or refuses its type. */
    method PublishDatagram(addr: Addr) returns (err: Err, ghost failing: set<Id>)
      requires Valid()
      modifies this`udpMsgs, this`udpMsgsCapacity, this`udpMsgsLen, this`log, udpMsgs, this`hist
      modifies clients.Repr, sendMsg, net`out, net`frames, this`sent, this`lost
      ensures Shape() && Content() && fresh(clients.Repr - old(clients.Repr))
      ensures udpMsgs == old(udpMsgs) || fresh(udpMsgs)
      ensures (err, Value()) == SS.Publishes(old(Value()), addr, failing)
    {
      hide FormatOk, Network.Valid, ClientVectors.ClientVec.Valid, PollVectors.PollVec.Valid, PollVectors.FdsOf;
      hide FramesOk, LogOk, QueuesIn, TableOk, Parse, StepPublish, Mute, MuteUpTo, Heard, Deaf;
      err, failing := PublishReceived(addr);
      if err == OK {
        ghost var m := log[|log| - 1];
        hist := hist + [Publish(m, failing)];
      }
    }

    /** The branch of the event loop for the datagram socket. */
    method HandleDatagram(iter: nat) returns (err: Err, removed: bool, ghost input: SS.Input)
      requires Valid() && iter < |pollVec.items| && pollVec.items[iter].fd == udpSocket
      modifies this`udpMsgs, this`udpMsgsCapacity, this`udpMsgsLen, this`log, udpMsgs, this`hist
      modifies clients.Repr, sendMsg, net, this`sent, this`lost, buf, pollVec, pollVec.pfds
      ensures Shape() && Content() && fresh(clients.Repr - old(clients.Repr))
      ensures (udpMsgs == old(udpMsgs) || fresh(udpMsgs)) && pollVec.pfds == old(pollVec.pfds)
      ensures pollVec.items == if removed then RemoveAt(old(pollVec.items), iter) else old(pollVec.items)
      ensures removed ==> err == OK
      ensures input.Datagram? && |input.bytes| <= MAX_SERVER_BUFLEN
      ensures input.count > 0 ==> |input.bytes| == input.count
      ensures (err, Value()) == SS.HandleDatagram(old(Value()), udpSocket, input)
    {
      hide FormatOk, Network.Valid, ClientVectors.ClientVec.Valid, PollVectors.PollVec.Valid, PollVectors.FdsOf;
      hide FramesOk, LogOk, QueuesIn, TableOk, Receive, SS.Publishes, SS.Sound, Network.Wired, SS.Drop;
      var count, addr, bytes := ReceiveDatagram();
      ghost var failing: set<Id> := {};
      removed := count == 0;
      if removed {
        RemoveFromPoll(iter);
        err := OK;
      } else {
        err, failing := PublishDatagram(addr);
      }
      input := SS.Datagram(count, bytes, addr, failing);
    }

    method RegisterClient(id: Id, fd: int) returns (err: Err)
      requires Shape() && Content() && fd > 0
      modifies clients.Repr
      ensures Shape() && Content() && fresh(clients.Repr - old(clients.Repr))
      ensures (err, clients.table) == Register(old(clients.table), id, fd)
    {
      hide FormatOk, Network.Valid, ClientVectors.ClientVec.Valid, PollVectors.PollVec.Valid;
      hide FramesOk, LogOk, QueuesIn, TableOk, Register;
      RegisteredContent(clients.table, id, fd, |log|);
      err := clients.RegisterNewClient(id, fd);
    }

    /** Registers a client under its id and, unless that is refused, replays its queue. */
    method RegisterAndReplay(id: Id, fd: int) returns (err: Err, ghost accepted: nat)
      requires Shape() && Content() && fd > 0
      modifies clients.Repr, sendMsg, net`out, net`frames, this`sent, this`lost
      ensures Shape() && Content() && fresh(clients.Repr - old(clients.Repr))
      ensures err == Register(old(clients.table), id, fd).0
      ensures Brokerage() == StepConnect(old(Brokerage()), id, fd, accepted, DropRest)
      ensures Mute(net.out) == Mute(old(net.out)) + SS.CutShort(old(clients.table), id, fd, accepted)
    {
      hide Mute, QueueOn;
      hide FormatOk, AreBuffers, Network.Valid, ClientVectors.ClientVec.Valid, PollVectors.PollVec.Valid;
      hide FramesOk, LogOk, QueuesIn, TableOk, Retransmit;
      accepted := 0;
      err := RegisterClient(id, fd);
      if err == OK {
        ghost var b := Brokerage();
        var err2: Err;
        err2, accepted := RetransmitTopicsToClient(fd);
        RetransmittedContent(b, fd, accepted);
      }
    }

    /** Accepts a connection and lists its descriptor, not ready. */
    method AcceptClient() returns (fd: int)
      requires Valid()
      modifies net, pollVec, pollVec.pfds
      ensures Valid() && (pollVec.pfds == old(pollVec.pfds) || fresh(pollVec.pfds))
      ensures fd <= 0 ==> Value() == old(Value()) && pollVec.items == old(pollVec.items)
      ensures fd > 0 ==> fd !in old(net.live) && Value() == SS.Add(old(Value()), fd)
      ensures fd > 0 ==> pollVec.items == old(pollVec.items) + [PollVectors.PollFd(fd, false)]
      ensures fd > 0 ==> fd in net.inn
    {
      hide FormatOk, Network.Valid, ClientVectors.ClientVec.Valid, PollVectors.PollVec.Valid, SS.Sound, Network.Wired;
      hide Accepted;
      SentCount(net.frames, sent, log, fmt);
      hide FramesOk, LogOk, QueuesIn, TableOk;
      ghost var s := Value();
      fd := net.Accept();
      if fd > 0 {
        AddToPoll(fd);
        SS.AddSound(s, fd);
        assert PollVectors.FdsOf(pollVec.items) == s.poll + [fd];
      }
    }

    /** Receives a connection's next message, or fails. */
    method ReceiveMsg(fd: int) returns (err: Err, ghost frame: Option<seq<Byte>>)
      requires Valid() && fd in net.inn && fd >= 0
      modifies recvMsg, net`inn
      ensures Valid() && Value() == SS.Receives(old(Value()), fd, frame)
      ensures SS.WholeFrame(frame) && frame == if err == OK then Some(recvMsg[..]) else None
      ensures frame.Some? ==> fd !in old(Value()).wire.deaf
      ensures err == OK || err == TCP_FAILED_SEND_RECV
    {
      hide FormatOk, Network.Valid, ClientVectors.ClientVec.Valid, PollVectors.PollVec.Valid, SS.Sound, Heard, Received;
      hide FramesOk, LogOk, QueuesIn, TableOk, Mute;
      ghost var inn, s := net.inn, Value();
      err := RecvTcpMsg(net, fd, recvMsg);
      frame := if err == OK then Some(recvMsg[..]) else None;
      ReceivedWire(inn, net.inn, fd, net.In(fd), frame, Mute(net.out), net.since);
      SS.ReceivesSound(s, fd, frame);
    }

    /** Closes and unlists the descriptor listed last. */
    method DropNewest()
      requires Valid() && |pollVec.items| > 0
      modifies net, pollVec, pollVec.pfds
      ensures Shape() && Content() && pollVec.pfds == old(pollVec.pfds)
      ensures pollVec.items == old(pollVec.items)[..|old(pollVec.items)| - 1]
      ensures Value() == SS.Drop(old(Value()), old(pollVec.items)[|old(pollVec.items)| - 1].fd)
    {
      hide Shape, Content, SS.Sound;
      var n := ListedCount();
      RemoveFromPoll(n - 1);
    }

    method ListedCount() returns (n: nat)
      requires Shape()
      ensures n == |pollVec.items|
    {
      return pollVec.nfds;
    }

    /** The branch of the event loop for the listening socket. */
    method HandleArrival() returns (err: Err, ghost input: SS.Input)
      requires Valid()
      modifies clients.Repr, sendMsg, recvMsg, net, this`sent, this`lost, this`hist, pollVec, pollVec.pfds
      ensures Shape() && Content() && fresh(clients.Repr - old(clients.Repr))
      ensures pollVec.pfds == old(pollVec.pfds) || fresh(pollVec.pfds)
      ensures pollVec.items == old(pollVec.items) ||
        (exists fd :: pollVec.items == old(pollVec.items) + [PollVectors.PollFd(fd, false)])
      ensures input.Arrival? && SS.WholeFrame(input.first) && (input.fd > 0 ==> input.fd !in old(net.live))
      ensures (err, Value()) == SS.HandleArrival(old(Value()), input)
    {
      hide FormatOk, Network.Valid, ClientVectors.ClientVec.Valid, PollVectors.PollVec.Valid, PollVectors.FdsOf;
      hide FramesOk, LogOk, QueuesIn, TableOk, Register, StepConnect;
      hide SS.Sound, SS.HandleArrival, SS.Add, SS.Receives, SS.Welcomed, Network.Wired;
      ghost var s := Value();
      ghost var first: Option<seq<Byte>> := None;
      var newFd := AcceptClient();
      if newFd <= 0 {
        ArrivalCases(s, SS.Arrival(newFd, None, 0));
        return SERVER_FAILED_ACCEPT_TCP, SS.Arrival(newFd, None, 0);
      }
      err, first := ReceiveMsg(newFd);
      if err != OK {
        ArrivalCases(s, SS.Arrival(newFd, None, 0));
        return SERVER_COULD_NOT_CONNECT_NEW_CLIENT, SS.Arrival(newFd, None, 0);
      }
      ghost var accepted: nat;
      err, accepted := Welcome(newFd);
      input := SS.Arrival(newFd, first, accepted);
      ArrivalCases(s, input);
    }

    /** Drops the connection accepted last, whose id is taken. */
    method Refuse(ghost s: SS.Snapshot, ghost e: Event)
      requires Shape() && Content() && SS.Sound(s) && Value() == SS.Apply(s, Brokerage(), e)
      requires |pollVec.items| > 0
      modifies net, pollVec, pollVec.pfds
      ensures Shape() && Content() && pollVec.pfds == old(pollVec.pfds)
      ensures pollVec.items == old(pollVec.items)[..|old(pollVec.items)| - 1]
      ensures Value() == SS.Drop(old(Value()), old(pollVec.items)[|old(pollVec.items)| - 1].fd)
    {
      hide Shape, Content, SS.Sound, SS.Drop, SS.Apply;
      assert TableOk(clients.table) by {
        ContentTable();
      }
      SS.ApplySound(s, Brokerage(), e);
      DropNewest();
    }

    lemma ContentTable()
      requires Content()
      ensures TableOk(clients.table)
    {
    }

    /** Registers the peer that identified itself, replays its queue, or drops the connection if its id is taken. */
    method Welcome(fd: int) returns (err: Err, ghost accepted: nat)
      requires Valid() && fd > 0
      requires |pollVec.items| > 0 && pollVec.items[|pollVec.items| - 1] == PollVectors.PollFd(fd, false)
      modifies clients.Repr, sendMsg, net, this`sent, this`lost, this`hist, pollVec, pollVec.pfds
      ensures Shape() && Content() && fresh(clients.Repr - old(clients.Repr)) && err == OK
      ensures pollVec.pfds == old(pollVec.pfds)
      ensures pollVec.items == old(pollVec.items) || pollVec.items == old(pollVec.items)[..|old(pollVec.items)| - 1]
      ensures Value() == SS.Welcomed(old(Value()), fd, Screen(recvMsg[..]), accepted)
    {
      hide FormatOk, Network.Valid, ClientVectors.ClientVec.Valid, PollVectors.PollVec.Valid, PollVectors.FdsOf;
      hide FramesOk, LogOk, QueuesIn, TableOk, Register, StepConnect, SS.Sound, SS.Drop, Mute, QueueOn, Heard, Deaf;
      var id := CStr(DataOf(recvMsg[..]));
      ghost var s := Value();
      err, accepted := RegisterAndReplay(id, fd);
      hist := hist + [Connect(id, fd, accepted)];
      if err != OK {
        assert Mute(net.out) + {} == Mute(net.out);
        Refuse(s, Connect(id, fd, accepted));
        err := OK;
      }
    }

    /** process_server_tcp_msg: applies the request in the receive buffer to the sender's subscriptions. */
    method ProcessServerTcpMsg(fd: int) returns (err: Err)
      requires Shape() && Content()
      modifies clients.Repr
      ensures Shape() && Content() && fresh(clients.Repr - old(clients.Repr))
      ensures (err, clients.table) == StepRequest(old(clients.table), fd, Commands.Decode(recvMsg[..]))
    {
      hide FormatOk, Network.Valid, ClientVectors.ClientVec.Valid, PollVectors.PollVec.Valid;
      hide FramesOk, LogOk, QueuesIn, ClientOk, CStr, Commands.TopicField, Commands.OptionByte;
      RequestedContent(clients.table, fd, Commands.Decode(recvMsg[..]), |log|);
      var cmd, topic := CStr(DataOf(recvMsg[..])), Commands.TopicField(DataOf(recvMsg[..]));
      if cmd == Commands.SUBSCRIBE {
        err := clients.SubscribeClientToTopic(fd, topic, Commands.OptionByte(recvMsg[..]) != 0);
      } else if cmd == Commands.UNSUBSCRIBE {
        err := clients.UnsubscribeClientFromTopic(fd, topic);
      } else {
        err := SERVER_UNKNOWN_COMMAND;
      }
    }

    method CloseClient(fd: int) returns (err: Err)
      requires Shape() && Content()
      modifies clients.Repr
      ensures Shape() && Content() && fresh(clients.Repr - old(clients.Repr))
      ensures (err, clients.table) == Close(old(clients.table), fd)
    {
      hide FormatOk, Network.Valid, ClientVectors.ClientVec.Valid, PollVectors.PollVec.Valid;
      hide FramesOk, LogOk, QueuesIn, TableOk, Close;
      ClosedContent(clients.table, fd, |log|);
      var clientIdx: nat;
      err, clientIdx := clients.CloseActiveClient(fd);
    }

    /** Marks the client at an index absent, and closes and unlists its descriptor. */
    method HangUp(iter: nat) returns (removed: bool)
      requires Valid() && iter < |pollVec.items|
      modifies clients.Repr, net`live, net`closes, this`hist, pollVec, pollVec.pfds
      ensures Shape() && Content() && fresh(clients.Repr - old(clients.Repr)) && pollVec.pfds == old(pollVec.pfds)
      ensures pollVec.items == if removed then RemoveAt(old(pollVec.items), iter) else old(pollVec.items)
      ensures Value() == SS.HangUp(old(Value()), old(pollVec.items)[iter].fd)
    {
      hide FormatOk, Network.Valid, ClientVectors.ClientVec.Valid, PollVectors.PollVec.Valid, PollVectors.FdsOf;
      hide FramesOk, LogOk, QueuesIn, TableOk, Close, SS.Sound, SS.Drop, Network.Wired;
      ghost var s := Value();
      var fd := ListedFd(iter);
      var err := CloseClient(fd);
      hist := hist + [Disconnect(fd)];
      SS.ApplySound(s, Brokerage(), Disconnect(fd));
      removed := err == OK;
      if removed {
        RemoveFromPoll(iter);
      }
    }

    /** Applies the request in the receive buffer. */
    method Answer(fd: int)
      requires Valid()
      modifies clients.Repr, this`hist
      ensures Shape() && Content() && fresh(clients.Repr - old(clients.Repr))
      ensures Value() == SS.Answer(old(Value()), fd, Commands.Decode(recvMsg[..]))
    {
      hide FormatOk, Network.Valid, ClientVectors.ClientVec.Valid, PollVectors.PollVec.Valid, PollVectors.FdsOf;
      hide FramesOk, LogOk, QueuesIn, TableOk, StepRequest, SS.Sound, Commands.Decode, Network.Wired;
      var err := ProcessServerTcpMsg(fd);
      hist := hist + [Request(fd, Commands.Decode(recvMsg[..]))];
    }

    /** The branch of the event loop for a client's descriptor. */
    method HandleMessage(iter: nat) returns (err: Err, removed: bool, ghost input: SS.Input)
      requires Valid() && iter < |pollVec.items| && pollVec.items[iter].fd in net.inn && pollVec.items[iter].fd >= 0
      modifies clients.Repr, recvMsg, net, this`hist, pollVec, pollVec.pfds
      ensures Shape() && Content() && fresh(clients.Repr - old(clients.Repr))
      ensures pollVec.pfds == old(pollVec.pfds) && err == OK
      ensures pollVec.items == if removed then RemoveAt(old(pollVec.items), iter) else old(pollVec.items)
      ensures input.Message? && SS.WholeFrame(input.frame)
      ensures input.frame.Some? ==> old(pollVec.items)[iter].fd !in old(Value()).wire.deaf
      ensures (err, Value()) == SS.HandleMessage(old(Value()), old(pollVec.items)[iter].fd, input)
    {
      hide FormatOk, Network.Valid, ClientVectors.ClientVec.Valid, PollVectors.PollVec.Valid, SS.Sound;
      hide Content, Value, SS.HangUp, SS.Answer, Commands.Decode, SS.Receives;
      removed := false;
      var fd := FdAt(iter);
      ghost var frame: Option<seq<Byte>>;
      err, frame := ReceiveMsg(fd);
      input := SS.Message(frame);
      if err != OK {
        removed := HangUp(iter);
      } else {
        Answer(fd);
      }
      err := OK;
    }

    method FdAt(iter: nat) returns (fd: int)
      requires Valid() && iter < |pollVec.items|
      ensures fd == pollVec.items[iter].fd
    {
      fd := ListedFd(iter);
    }

    method ListedFd(iter: nat) returns (fd: int)
      requires Shape() && iter < |pollVec.items|
      ensures fd == pollVec.items[iter].fd
    {
      return pollVec.pfds[iter].fd;
    }

    /** One turn of the event loop: the listed descriptor at an index is served by the branch it selects. */
    method Serve(iter: nat) returns (err: Err, removed: bool, ghost input: SS.Input)
      requires Valid() && 1 <= iter < |pollVec.items|
      modifies this, net, pollVec, pollVec.pfds, clients.Repr, buf, sendMsg, recvMsg, udpMsgs
      ensures Valid() && fresh(clients.Repr - old(clients.Repr))
      ensures udpMsgs == old(udpMsgs) || fresh(udpMsgs)
      ensures pollVec.pfds == old(pollVec.pfds) || fresh(pollVec.pfds)
      ensures removed ==> pollVec.items == RemoveAt(old(pollVec.items), iter)
      ensures !removed ==> (pollVec.items == old(pollVec.items) ||
        (exists fd :: pollVec.items == old(pollVec.items) + [PollVectors.PollFd(fd, false)]))
      ensures SS.Fits(old(Value()), old(pollVec.items)[iter].fd, input) && old(pollVec.items)[iter].fd != SS.STDIN
      ensures (err, Value()) == SS.Handle(old(Value()), old(pollVec.items)[iter].fd, input)
    {
      hide FormatOk, Network.Valid, ClientVectors.ClientVec.Valid, PollVectors.PollVec.Valid, PollVectors.FdsOf;
      hide FramesOk, LogOk, QueuesIn, TableOk, SS.HandleDatagram, SS.HandleArrival, SS.HandleMessage, SS.Sound;
      ghost var s := Value();
      ServedFd(s, pollVec.items, iter);
      removed := false;
      var fd := ListedFd(iter);
      if fd == udpSocket {
        err, removed, input := HandleDatagram(iter);
      } else if fd == tcpSocket {
        err, input := HandleArrival();
      } else {
        err, removed, input := HandleMessage(iter);
      }
      SS.HandleSound(s, fd, input);
    }

    /** The state of a pass begun in state `s` with the list `orig`: the turns made served the ready descriptors
        listed before entry k, and the index has still to see the entries from k on. */
    ghost predicate InPass(s: SS.Snapshot, turns: seq<SS.Turn>, orig: seq<PollVectors.PollFd>, k: nat, iter: nat)
      reads this, pollVec, pollVec.pfds, clients, clients.Repr, net, udpMsgs, buf
    {
      && Valid() && SS.Sound(s)
      && 1 <= iter <= |pollVec.items| && 1 <= k <= |orig|
      && Unserved(pollVec.items, iter, orig, k) && Served(turns, orig, k)
      && SS.Possible(s, turns, |turns|) && SS.After(s, turns, |turns|) == (OK, Value())
    }

    /** What a pass has done when it ends, with or without an error. */
    ghost predicate PassDone(s: SS.Snapshot, turns: seq<SS.Turn>, orig: seq<PollVectors.PollFd>, err: Err)
      reads this, pollVec, pollVec.pfds, clients, clients.Repr, net, udpMsgs, buf
    {
      && Valid() && SS.Sound(s) && |orig| > 0
      && SS.Possible(s, turns, |turns|) && SS.After(s, turns, |turns|) == (err, Value())
      && (Connections.Faithful(s) ==> Connections.Faithful(Value()))
      && TurnFds(turns) <= ReadyFrom(orig, 1)
      && (err == OK ==> TurnFds(turns) == ReadyFrom(orig, 1))
    }

    lemma PassStarts()
      requires Valid()
      ensures |pollVec.items| >= 1
      ensures SS.Sound(Value()) && SS.Possible(Value(), [], 0) && SS.After(Value(), [], 0) == (OK, Value())
      ensures InPass(Value(), [], pollVec.items, 1, 1)
    {
      assert |PollVectors.FdsOf(pollVec.items)| > 0;
      SS.NoTurns(Value());
      PassBegins(pollVec.items);
    }

    lemma PassStops(s: SS.Snapshot, turns: seq<SS.Turn>, orig: seq<PollVectors.PollFd>, k: nat, iter: nat)
      requires InPass(s, turns, orig, k, iter) && iter == |pollVec.items|
      ensures PassDone(s, turns, orig, OK)
    {
      hide Valid, Value, SS.Sound, SS.Possible, SS.After, Unserved, ReadyFrom, TurnFds, Served;
      hide Connections.Faithful;
      PassEnds(turns, pollVec.items, iter, orig, k);
      StaysFaithful(s, turns);
    }

    /** One turn of a pass, for an entry that is ready. */
    method ServeNext(iter: nat, ghost s: SS.Snapshot, ghost turns: seq<SS.Turn>,
                     ghost orig: seq<PollVectors.PollFd>, ghost k: nat)
      returns (err: Err, removed: bool, ghost turns': seq<SS.Turn>)
      requires InPass(s, turns, orig, k, iter) && iter < |pollVec.items| && pollVec.items[iter].ready
      modifies this, net, pollVec, pollVec.pfds, clients.Repr, buf, sendMsg, recvMsg, udpMsgs
      ensures fresh(clients.Repr - old(clients.Repr)) && (udpMsgs == old(udpMsgs) || fresh(udpMsgs))
      ensures pollVec.pfds == old(pollVec.pfds) || fresh(pollVec.pfds)
      ensures err == OK ==> k < |orig| && InPass(s, turns', orig, k + 1, if removed then iter else iter + 1)
      ensures err != OK ==> PassDone(s, turns', orig, err)
    {
      hide Valid, Value, SS.Sound, SS.Handle, SS.Fits, SS.Possible, SS.After, Unserved, ReadyFrom, Served, TurnFds;
      ghost var items := pollVec.items;
      ghost var input: SS.Input;
      err, removed, input := Serve(iter);
      ghost var turn := SS.Turn(items[iter].fd, input);
      SS.TurnsExtend(s, turns, turn);
      UnservedStep(items, iter, orig, k, pollVec.items, removed);
      UnservedBound(pollVec.items, if removed then iter else iter + 1, orig, k + 1);
      PassStep(turns, turn, orig, k);
      turns' := turns + [turn];
      hide Connections.Faithful;
      StaysFaithful(s, turns');
    }

    /** The body of the loop at an index: an entry that is ready is served, and the index steps back if the entry
        is gone. Entry k is then behind the pass. */
    method Visit(at: nat, ghost s: SS.Snapshot, ghost turns: seq<SS.Turn>,
                 ghost orig: seq<PollVectors.PollFd>, ghost k: nat)
      returns (err: Err, iter: nat, ghost turns': seq<SS.Turn>, ghost k': nat)
      requires InPass(s, turns, orig, k, at) && at < |pollVec.items|
      modifies this, net, pollVec, pollVec.pfds, clients.Repr, buf, sendMsg, recvMsg, udpMsgs
      ensures fresh(clients.Repr - old(clients.Repr)) && (udpMsgs == old(udpMsgs) || fresh(udpMsgs))
      ensures pollVec.pfds == old(pollVec.pfds) || fresh(pollVec.pfds)
      ensures err == OK ==> InPass(s, turns', orig, k', iter + 1)
      ensures err == OK ==> k < k' <= |orig| || (k == k' && iter == at && pollVec.items == old(pollVec.items))
      ensures err != OK ==> PassDone(s, turns', orig, err)
    {
      hide Valid, InPass, PassDone;
      err, iter, turns' := OK, at, turns;
      PassGoesOn(s, turns, orig, k, at);
      k' := if k < |orig| then k + 1 else k;
      var ready := ListedReady(iter);
      if ready {
        var removed: bool;
        err, removed, turns' := ServeNext(iter, s, turns, orig, k);
        iter := if err == OK && removed then iter - 1 else iter;
      } else {
        PassSkips(s, turns, orig, k, iter);
      }
    }

    /** process_ready_fds: serves, in ascending order and once each, exactly the descriptors that were ready at
        entry, stdin apart; entries may be removed under the index and appended meanwhile. After an error the
        turns made are a first part of those. */
    method ProcessReadyFds() returns (err: Err, ghost turns: seq<SS.Turn>)
      requires Valid()
      modifies this, net, pollVec, pollVec.pfds, clients.Repr, buf, sendMsg, recvMsg, udpMsgs
      ensures PassDone(old(Value()), turns, old(pollVec.items), err)
      ensures fresh(clients.Repr - old(clients.Repr)) && (udpMsgs == old(udpMsgs) || fresh(udpMsgs))
      ensures pollVec.pfds == old(pollVec.pfds) || fresh(pollVec.pfds)
    {
      hide *;
      err, turns := OK, [];
      ghost var s, orig, k := Value(), pollVec.items, 1;
      PassStarts();
      var iter := 1;
      var count := EntryCount();
      while iter < count
        invariant InPass(s, turns, orig, k, iter) && fresh(clients.Repr - old(clients.Repr))
        invariant udpMsgs == old(udpMsgs) || fresh(udpMsgs)
        invariant pollVec.pfds == old(pollVec.pfds) || fresh(pollVec.pfds)
        invariant count == |pollVec.items| && err == OK
        decreases |orig| - k, |pollVec.items| - iter
      {
        err, iter, turns, k := Visit(iter, s, turns, orig, k);
        if err != OK {
          return;
        }
        iter := iter + 1;
        PassGoesOn(s, turns, orig, k, iter);
        count := EntryCount();
      }
      PassGoesOn(s, turns, orig, k, iter);
      PassStops(s, turns, orig, k, iter);
    }

    lemma PassGoesOn(s: SS.Snapshot, turns: seq<SS.Turn>, orig: seq<PollVectors.PollFd>, k: nat, iter: nat)
      requires InPass(s, turns, orig, k, iter)
      ensures Valid() && 1 <= iter <= |pollVec.items| && k <= |orig|
    {
    }

    lemma PassSkips(s: SS.Snapshot, turns: seq<SS.Turn>, orig: seq<PollVectors.PollFd>, k: nat, iter: nat)
      requires InPass(s, turns, orig, k, iter) && iter < |pollVec.items| && !pollVec.items[iter].ready
      ensures InPass(s, turns, orig, if k < |orig| then k + 1 else k, iter + 1)
    {
      hide Valid, Value, SS.Sound, SS.Possible, SS.After, Unserved, ReadyFrom, TurnFds, Served;
      UnservedSkip(turns, pollVec.items, iter, orig, k);
    }

    /** wait_for_ready_fds: marks the descriptors that the system reports ready. */
    method WaitForReadyFds(round: Round) returns (err: Err)
      requires Valid()
      modifies pollVec`items, pollVec.pfds
      ensures Valid() && Value() == old(Value())
      ensures forall i :: 0 <= i < |pollVec.items| ==> (pollVec.items[i].ready <==> pollVec.items[i].fd in round.ready)
      ensures err == if round.count <= 0 then POLL_FAILED_TIMED_OUT else OK
    {
      hide FormatOk, Network.Valid, ClientVectors.ClientVec.Valid, PollVectors.PollVec.Valid, PollVectors.FdsOf;
      hide SS.Sound;
      hide FramesOk, LogOk, QueuesIn, TableOk;
      pollVec.Poll(round.ready);
      err := if round.count <= 0 then POLL_FAILED_TIMED_OUT else OK;
    }

    /** check_if_exit: the server is told to stop exactly by typing something that begins with the exit command,
        however long it is. */
    method CheckIfExit(typed: Option<seq<Byte>>) returns (exit: bool)
      requires Valid()
      modifies cmd
      ensures Valid() && Value() == old(Value()) && |pollVec.items| > 0
      ensures exit <==> pollVec.items[0].ready && typed.Some? && Commands.EXIT <= typed.value
      ensures pollVec.items == old(pollVec.items)
    {
      hide FormatOk, Network.Valid, ClientVectors.ClientVec.Valid, PollVectors.PollVec.Valid, SS.Sound;
      hide FramesOk, LogOk, QueuesIn, TableOk, Commands.Line, TextAt, StringAt;
      exit := false;
      var listed := FirstReady();
      if listed && typed.Some? {
        Commands.Fgets(cmd, typed.value);
        Commands.LineBegins(typed.value, Commands.MAX_CMD_LEN, Commands.EXIT);
        exit := Commands.HasPrefix(cmd, Commands.EXIT);
      }
    }

    /** Whether the first entry is the standard input, as it always is, and ready. */
    method FirstReady() returns (ready: bool)
      requires Valid()
      ensures |pollVec.items| > 0 && ready == pollVec.items[0].ready
    {
      PassStarts();
      assert PollVectors.FdsOf(pollVec.items)[0] == SS.STDIN;
      ready := pollVec.pfds[0].fd == SS.STDIN && pollVec.pfds[0].ready;
    }

    /** One round of the main loop: it stops the server, or leads to a pass. */
    method OneRound(round: Round) returns (err: Err, stop: bool, ghost p: Pass)
      requires Valid()
      modifies this, net, pollVec, pollVec.pfds, clients.Repr, buf, sendMsg, recvMsg, cmd, udpMsgs
      ensures Valid() && fresh(clients.Repr - old(clients.Repr)) && (udpMsgs == old(udpMsgs) || fresh(udpMsgs))
      ensures pollVec.pfds == old(pollVec.pfds) || fresh(pollVec.pfds)
      ensures stop <==> Stops(round)
      ensures stop ==> Value() == old(Value())
      ensures !stop ==> PassOk(old(Value()), round, p) && p.err == err && p.end == Value()
      ensures Connections.Faithful(old(Value())) ==> Connections.Faithful(Value())
    {
      hide Valid, Value, SS.Sound, SS.Possible, SS.After, ReadyFrom, ReadyOf, TurnFds, Connections.Faithful;
      ghost var s := Value();
      p := Pass([], OK, s);
      err := WaitForReadyFds(round);
      if err != OK {
        return err, true, p;
      }
      StdinFirst();
      stop := CheckIfExit(round.typed);
      if stop {
        return;
      }
      PassStarts();
      ListedReadies(pollVec.items, round.ready);
      ghost var turns: seq<SS.Turn>;
      err, turns := ProcessReadyFds();
      p := Pass(turns, err, Value());
    }

    lemma StdinFirst()
      requires Valid()
      ensures |pollVec.items| > 0 && pollVec.items[0].fd == SS.STDIN
      ensures Value().poll == PollVectors.FdsOf(pollVec.items)
    {
      assert PollVectors.FdsOf(pollVec.items)[0] == SS.STDIN;
    }

    /** The server's main loop over any rounds: one pass for each round that does not stop it, until a pass fails or the
        rounds end. What it did is one run of turns. */
    method ServeUntil(rounds: seq<Round>) returns (ghost passes: seq<Pass>)
      requires Valid()
      modifies this, net, pollVec, pollVec.pfds, clients.Repr, buf, sendMsg, recvMsg, cmd, udpMsgs
      ensures Valid() && Serves(old(Value()), rounds, passes) && Over(rounds, passes)
      ensures StartOf(old(Value()), passes, |passes|) == Value()
      ensures Connections.Faithful(old(Value())) ==> Connections.Faithful(Value())
      ensures pollVec.pfds == old(pollVec.pfds) || fresh(pollVec.pfds)
    {
      hide Valid, Value, PassOk, Serves, Connections.Faithful;
      passes := [];
      ghost var s := Value();
      NothingServed(s, rounds);
      var k := 0;
      while k < |rounds|
        invariant 0 <= k == |passes| <= |rounds|
        invariant Valid() && fresh(clients.Repr - old(clients.Repr))
        invariant udpMsgs == old(udpMsgs) || fresh(udpMsgs)
        invariant pollVec.pfds == old(pollVec.pfds) || fresh(pollVec.pfds)
        invariant Serves(s, rounds, passes) && ErrOf(passes) == OK && StartOf(s, passes, k) == Value()
        invariant Connections.Faithful(s) ==> Connections.Faithful(Value())
      {
        var err, stop, p := OneRound(rounds[k]);
        if stop {
          return;
        }
        ServesMore(s, rounds, passes, p);
        passes := passes + [p];
        if err != OK {
          return;
        }
        k := k + 1;
      }
    }

    /** free_server: closes every listed descriptor. */
    method FreeServer()
      requires Valid()
      modifies net, pollVec
      ensures Value() == SS.CloseAll(old(Value()))
      ensures net.Valid() && FramesOk(net.frames, sent, log, fmt)
    {
      pollVec.Free(net);
    }

    method ListedReady(iter: nat) returns (ready: bool)
      requires Valid() && iter < |pollVec.items|
      ensures ready == pollVec.items[iter].ready
    {
      return pollVec.pfds[iter].ready;
    }

    lemma NothingYet()
      requires log == [] && sent == [] && clients.table == [] && net.frames == []
      ensures Content()
    {
    }

    method EntryCount() returns (n: nat)
      requires Valid()
      ensures n == |pollVec.items|
    {
      return pollVec.nfds;
    }
  }

  /** The descriptors ready at or after an index, in order. */
  function ReadyFrom(items: seq<PollVectors.PollFd>, i: nat): seq<int>
    requires i <= |items|
    decreases |items| - i
  {
    if i == |items| then []
    else if items[i].ready then [items[i].fd] + ReadyFrom(items, i + 1)
    else ReadyFrom(items, i + 1)
  }

  lemma NothingServed(s: SS.Snapshot, rounds: seq<Round>)
    ensures Serves(s, rounds, [])
  {
  }

  /** Marked as poll reports them, the ready entries are the ready ones of the listed descriptors. */
  lemma {:induction false} ReadyFromIs(items: seq<PollVectors.PollFd>, ready: set<int>, i: nat)
    requires i <= |items| && forall k :: 0 <= k < |items| ==> (items[k].ready <==> items[k].fd in ready)
    ensures ReadyFrom(items, i) == ReadyOf(PollVectors.FdsOf(items), ready, i)
    decreases |items| - i
  {
    if i < |items| {
      ReadyFromIs(items, ready, i + 1);
    }
  }

  lemma ListedReadies(items: seq<PollVectors.PollFd>, ready: set<int>)
    requires |items| > 0 && forall k :: 0 <= k < |items| ==> (items[k].ready <==> items[k].fd in ready)
    ensures |PollVectors.FdsOf(items)| > 0
    ensures ReadyFrom(items, 1) == ReadyOf(PollVectors.FdsOf(items), ready, 1)
  {
    ReadyFromIs(items, ready, 1);
  }

  /** From `iter` on, the list is what was listed at entry from `k` on, and then entries that are not ready. */
  predicate Unserved(items: seq<PollVectors.PollFd>, iter: nat, orig: seq<PollVectors.PollFd>, k: nat)
    requires k <= |orig|
  {
    && iter + |orig| - k <= |items|
    && (forall j :: iter <= j < iter + |orig| - k ==> items[j] == orig[j - iter + k])
    && (forall j :: iter + |orig| - k <= j < |items| ==> !items[j].ready)
  }

  /** What the turns record is true to what the connections carried. */
  lemma StaysFaithful(s: SS.Snapshot, turns: seq<SS.Turn>)
    requires SS.Sound(s) && SS.Possible(s, turns, |turns|)
    ensures Connections.Faithful(s) ==> Connections.Faithful(SS.After(s, turns, |turns|).1)
  {
    hide SS.Sound, SS.Possible, SS.After, Connections.Faithful;
    if Connections.Faithful(s) {
      Connections.RunFaithful(s, turns, |turns|);
    }
  }

  /** The turns made so far are for the ready descriptors listed before entry k. */
  predicate Served(turns: seq<SS.Turn>, orig: seq<PollVectors.PollFd>, k: nat)
    requires 1 <= k <= |orig|
  {
    TurnFds(turns) + ReadyFrom(orig, k) == ReadyFrom(orig, 1)
  }

  lemma PassBegins(items: seq<PollVectors.PollFd>)
    requires |items| >= 1
    ensures Unserved(items, 1, items, 1) && Served([], items, 1)
  {
  }

  lemma PassStep(turns: seq<SS.Turn>, turn: SS.Turn, orig: seq<PollVectors.PollFd>, k: nat)
    requires 1 <= k < |orig| && Served(turns, orig, k)
    requires ReadyFrom(orig, k) == [turn.fd] + ReadyFrom(orig, k + 1)
    ensures Served(turns + [turn], orig, k + 1)
    ensures TurnFds(turns + [turn]) <= ReadyFrom(orig, 1)
  {
    hide ReadyFrom;
    assert TurnFds(turns + [turn]) == TurnFds(turns) + [turn.fd];
  }

  lemma UnservedStep(items: seq<PollVectors.PollFd>, iter: nat, orig: seq<PollVectors.PollFd>, k: nat,
                     items': seq<PollVectors.PollFd>, removed: bool)
    requires 1 <= iter < |items| && 1 <= k <= |orig| && Unserved(items, iter, orig, k) && items[iter].ready
    requires removed ==> items' == RemoveAt(items, iter)
    requires !removed ==> (items' == items || exists fd :: items' == items + [PollVectors.PollFd(fd, false)])
    ensures k < |orig| && items[iter] == orig[k]
    ensures ReadyFrom(orig, k) == [items[iter].fd] + ReadyFrom(orig, k + 1)
    ensures Unserved(items', if removed then iter else iter + 1, orig, k + 1)
  {
  }

  lemma UnservedSkip(turns: seq<SS.Turn>, items: seq<PollVectors.PollFd>, iter: nat, orig: seq<PollVectors.PollFd>,
                     k: nat)
    requires 1 <= iter < |items| && 1 <= k <= |orig| && Unserved(items, iter, orig, k) && !items[iter].ready
    requires Served(turns, orig, k)
    ensures k < |orig| ==> Served(turns, orig, k + 1) && Unserved(items, iter + 1, orig, k + 1)
    ensures k == |orig| ==> Unserved(items, iter + 1, orig, k)
  {
  }

  lemma UnservedBound(items: seq<PollVectors.PollFd>, iter: nat, orig: seq<PollVectors.PollFd>, k: nat)
    requires k <= |orig| && Unserved(items, iter, orig, k)
    ensures iter <= |items|
  {
  }

  lemma PassEnds(turns: seq<SS.Turn>, items: seq<PollVectors.PollFd>, iter: nat, orig: seq<PollVectors.PollFd>, k: nat)
    requires iter == |items| && 1 <= k <= |orig| && Unserved(items, iter, orig, k) && Served(turns, orig, k)
    ensures TurnFds(turns) == ReadyFrom(orig, 1)
  {
  }

  lemma ArrivalCases(s: SS.Snapshot, input: SS.Input)
    requires input.Arrival? && SS.WholeFrame(input.first)
    ensures SS.HandleArrival(s, input) ==
      if input.fd <= 0 then (SERVER_FAILED_ACCEPT_TCP, s)
      else
        var r := SS.Receives(SS.Add(s, input.fd), input.fd, input.first);
        match input.first
        case None => (SERVER_COULD_NOT_CONNECT_NEW_CLIENT, r)
        case Some(m) => (OK, SS.Welcomed(r, input.fd, Screen(m), input.accepted))
  {
  }

  /** init_server_buffers, zeroed */
  method InitServerBuffers() returns (b: (array<Byte>, array<Byte>, array<Byte>))
    ensures fresh(b.0) && fresh(b.1) && fresh(b.2) && b.0 != b.1 && b.0 != b.2 && b.1 != b.2
    ensures b.0.Length == MAX_SERVER_BUFLEN && b.1.Length == TCP_MSG_SIZE && b.2.Length == TCP_MSG_SIZE
    ensures b.0[..] == Zeros(MAX_SERVER_BUFLEN)
  {
    var buf := new Byte[MAX_SERVER_BUFLEN](_ => NUL);
    var sendMsg := new Byte[TCP_MSG_SIZE](_ => NUL);
    var recvMsg := new Byte[TCP_MSG_SIZE](_ => NUL);
    b := (buf, sendMsg, recvMsg);
    assert buf[..] == Zeros(MAX_SERVER_BUFLEN);
  }

  /** init_server, with the sockets the system hands out. */
  method InitServer(udp: int, tcp: int, fmt: FloatFormat) returns (s: Server)
    requires 0 < udp && 0 < tcp && udp != tcp && FormatOk(fmt)
    ensures s.Valid() && s.Value() == SS.Init(udp, tcp) && s.fmt == fmt
    ensures fresh({s, s.net, s.pollVec, s.pollVec.pfds, s.buf, s.sendMsg, s.recvMsg, s.cmd, s.udpMsgs}
                  + s.clients.Repr)
  {
    hide SS.Sound, SS.Matched, FormatOk, PollVectors.PollVec.Valid, ClientVectors.ClientVec.Valid, Network.Valid;
    hide PollVectors.FdsOf;
    hide Server.Shape, Server.Content, Zeros;
    var buffers := InitServerBuffers();
    var store := new Udp[INIT_UDP_MSGS_LEN](_ => CLEARED);
    var net := new Network({SS.STDIN, udp, tcp}, multiset{SS.STDIN, udp, tcp});
    var pollVec := InitServerPollVec(udp, tcp);
    var clients := new ClientVectors.ClientVec(ClientVectors.INIT_CLIENTS);
    var cmd := new Byte[Commands.MAX_CMD_LEN](_ => NUL);
    s := new Server(udp, tcp, fmt, net, pollVec, clients, buffers, cmd, store);
    SS.InitSound(udp, tcp);
    s.NothingYet();
  }

  /** The whole program over any rounds: its passes are those of the rounds, until one fails or something stops it;
      together they are one run of turns from the initial server; and once it ends, however it ends, every descriptor
      the system handed out has been closed as often as it was handed out. */
  method RunServer(udp: int, tcp: int, fmt: FloatFormat, rounds: seq<Round>)
    returns (s: Server, ghost passes: seq<Pass>)
    requires 0 < udp && 0 < tcp && udp != tcp && FormatOk(fmt)
    ensures Serves(SS.Init(udp, tcp), rounds, passes) && Over(rounds, passes)
    ensures SS.Sound(SS.Init(udp, tcp))
    ensures var turns := AllTurns(passes, |passes|);
      && SS.Possible(SS.Init(udp, tcp), turns, |turns|)
      && SS.After(SS.Init(udp, tcp), turns, |turns|).0 == ErrOf(passes)
      && s.Value() == SS.CloseAll(SS.After(SS.Init(udp, tcp), turns, |turns|).1)
    ensures s.net.Valid() && FramesOk(s.net.frames, s.sent, s.log, s.fmt) && s.fmt == fmt
    ensures Connections.Faithful(s.Value())
    ensures s.net.live == {} && s.net.closes == s.net.opens
  {
    hide SS.Sound, SS.Possible, SS.After, SS.Init, SS.CloseAll, SS.Matched, FormatOk, FramesOk;
    hide Server.Valid, Network.Valid, Connections.Faithful, Serves, Over;
    Connections.InitFaithful(udp, tcp);
    s := InitServer(udp, tcp, fmt);
    SS.InitSound(udp, tcp);
    passes := s.ServeUntil(rounds);
    ServesIsRun(SS.Init(udp, tcp), rounds, passes, |passes|);
    ghost var turns := AllTurns(passes, |passes|);
    SS.EveryDescriptorClosedOnce(SS.Init(udp, tcp), turns, |turns|);
    Connections.ClosedFaithful(s.Value());
    s.FreeServer();
  }
}
