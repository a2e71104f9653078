/** The network as the server's process sees it, and exact-length messages over byte streams that the
    transport cuts into arbitrary pieces. */
module TcpType {
  import opened Bytes
  import opened Utils
  import opened UdpType

  const MAX_TCP_MSG_BUF_LEN := 2048
  const TCP_MSG_SIZE := 2050

  /** The writing end of a connection: the bytes the transport took, and the messages sent whole. */
  datatype Outflow = Outflow(bytes: seq<Byte>, sent: seq<seq<Byte>>, broken: bool)

  /** The reading end: all the bytes the peer ever writes, how many were taken, and the messages read whole. */
  datatype Inflow = Inflow(bytes: seq<Byte>, taken: nat, got: seq<seq<Byte>>, broken: bool)

  const NO_OUTFLOW := Outflow([], [], true)
  const NO_INFLOW := Inflow([], 0, [], true)

  /** Message k of a stream of fixed-size messages. */
  function Piece(bytes: seq<Byte>, k: nat): (m: seq<Byte>)
    requires (k + 1) * TCP_MSG_SIZE <= |bytes|
  {
    bytes[k * TCP_MSG_SIZE..(k + 1) * TCP_MSG_SIZE]
  }

  /** The stream is the messages sent whole, followed, only once a send has failed, by part of another one. */
  predicate OutOk(o: Outflow) {
    && |o.sent| * TCP_MSG_SIZE <= |o.bytes| < (|o.sent| + 1) * TCP_MSG_SIZE
    && (!o.broken ==> |o.bytes| == |o.sent| * TCP_MSG_SIZE)
    && forall k :: 0 <= k < |o.sent| ==> o.sent[k] == Piece(o.bytes, k)
  }

  predicate InOk(i: Inflow) {
    && |i.got| * TCP_MSG_SIZE <= i.taken <= |i.bytes|
    && (!i.broken ==> i.taken == |i.got| * TCP_MSG_SIZE)
    && forall k :: 0 <= k < |i.got| ==> i.got[k] == Piece(i.bytes, k)
  }

  /** Whatever the pieces on either side, a reader of any part of a writer's stream gets the writer's messages,
      in order and unaltered, and all of them once it has taken the whole stream of an unbroken writer. */
  lemma Framing(o: Outflow, i: Inflow)
    requires OutOk(o) && InOk(i) && i.bytes <= o.bytes
    ensures i.got <= o.sent
    ensures i.taken == |o.bytes| && !i.broken ==> i.got == o.sent
  {
    forall k | 0 <= k < |i.got|
      ensures k < |o.sent| && i.got[k] == o.sent[k]
    {
      assert i.bytes == o.bytes[..|i.bytes|];
      assert Piece(i.bytes, k) == Piece(o.bytes, k);
    }
  }

  lemma OutWhole(o: Outflow, m: seq<Byte>)
    requires OutOk(o) && !o.broken && |m| == TCP_MSG_SIZE
    ensures OutOk(Outflow(o.bytes + m, o.sent + [m], false))
  {
    var r := Outflow(o.bytes + m, o.sent + [m], false);
    forall k | 0 <= k < |r.sent|
      ensures r.sent[k] == Piece(r.bytes, k)
    {
      if k < |o.sent| {
        assert o.sent[k] == Piece(o.bytes, k);
      }
    }
  }

  lemma OutPart(o: Outflow, part: seq<Byte>)
    requires OutOk(o) && |part| < TCP_MSG_SIZE && (o.broken ==> part == [])
    ensures OutOk(Outflow(o.bytes + part, o.sent, true))
  {
    var r := Outflow(o.bytes + part, o.sent, true);
    forall k | 0 <= k < |r.sent|
      ensures r.sent[k] == Piece(r.bytes, k)
    {
      assert o.sent[k] == Piece(o.bytes, k);
    }
  }

  lemma InWhole(i: Inflow)
    requires InOk(i) && !i.broken && i.taken + TCP_MSG_SIZE <= |i.bytes|
    ensures InOk(Inflow(i.bytes, i.taken + TCP_MSG_SIZE, i.got + [i.bytes[i.taken..i.taken + TCP_MSG_SIZE]], false))
  {
  }

  // ---------- What a process can tell about its connections ----------

  /** The whole messages each connection has delivered so far. */
  function Heard(inn: map<int, Inflow>): map<int, seq<seq<Byte>>> {
    map fd | fd in inn :: inn[fd].got
  }

  /** The connections on which a receive has failed. */
  function Deaf(inn: map<int, Inflow>): set<int> {
    set fd | fd in inn && inn[fd].broken
  }

  /** The connections on which a send has failed. */
  function Mute(out: map<int, Outflow>): set<int> {
    set fd | fd in out && out[fd].broken
  }

  lemma HeardUpdate(inn: map<int, Inflow>, fd: int, i: Inflow)
    ensures Heard(inn[fd := i]) == Heard(inn)[fd := i.got]
    ensures fd in inn && i.got == inn[fd].got ==> Heard(inn[fd := i]) == Heard(inn)
    ensures Deaf(inn[fd := i]) == if i.broken then Deaf(inn) + {fd} else Deaf(inn) - {fd}
    ensures fd !in Deaf(inn) && !i.broken ==> Deaf(inn[fd := i]) == Deaf(inn)
  {
  }

  lemma MuteUpdate(out: map<int, Outflow>, fd: int, o: Outflow)
    ensures Mute(out[fd := o]) == if o.broken then Mute(out) + {fd} else Mute(out) - {fd}
    ensures fd !in Mute(out) && !o.broken ==> Mute(out[fd := o]) == Mute(out)
  {
  }

  /** Besides, how many messages had been sent whole, through any descriptor, when each was accepted. */
  datatype Wire = Wire(heard: map<int, seq<seq<Byte>>>, deaf: set<int>, mute: set<int>, since: map<int, nat>)

  /** A new connection through a descriptor, whatever the number was used for before. */
  function Accepted(w: Wire, fd: int, sent: nat): Wire {
    Wire(w.heard[fd := []], w.deaf - {fd}, w.mute - {fd}, w.since[fd := sent])
  }

  /** A receive that delivers a whole message, or fails. */
  function Received(w: Wire, fd: int, frame: Option<seq<Byte>>): Wire {
    match frame
    case Some(m) => w.(heard := w.heard[fd := (if fd in w.heard then w.heard[fd] else []) + [m]])
    case None => w.(deaf := w.deaf + {fd})
  }

  /** The messages sent whole through a descriptor, from a given one on. */
  function Through(frames: seq<(int, seq<Byte>)>, fd: int, from: nat): seq<seq<Byte>>
    decreases |frames|
  {
    if |frames| <= from then []
    else
      var rest, last := Through(frames[..|frames| - 1], fd, from), frames[|frames| - 1];
      if last.0 == fd then rest + [last.1] else rest
  }

  lemma ThroughAppend(frames: seq<(int, seq<Byte>)>, fd: int, from: nat, x: int, m: seq<Byte>)
    requires from <= |frames|
    ensures Through(frames + [(x, m)], fd, from) == Through(frames, fd, from) + if x == fd then [m] else []
  {
    assert (frames + [(x, m)])[..|frames|] == frames;
  }

  /** A connection's stream carries what was sent through its descriptor since it was accepted. */
  predicate Traced(o: Outflow, fd: int, frames: seq<(int, seq<Byte>)>, since: map<int, nat>) {
    if fd in since then since[fd] <= |frames| && o.sent == Through(frames, fd, since[fd])
    else o.broken && o.sent == []
  }

  lemma TracedAppend(o: Outflow, fd: int, frames: seq<(int, seq<Byte>)>, since: map<int, nat>, x: int, m: seq<Byte>)
    requires Traced(o, fd, frames, since) && (x == fd ==> !o.broken)
    ensures Traced(if x == fd then o.(sent := o.sent + [m]) else o, fd, frames + [(x, m)], since)
  {
    if fd in since {
      ThroughAppend(frames, fd, since[fd], x, m);
    }
  }

  /** The system's side of the server process. */
  class Network {
    var live: set<int>
    var opens: multiset<int>
    var closes: multiset<int>
    var out: map<int, Outflow>
    var inn: map<int, Inflow>
    /** Every message sent whole, with the descriptor it was sent to. */
    ghost var frames: seq<(int, seq<Byte>)>
    /** How many there were when each connection was accepted. */
    ghost var since: map<int, nat>

    ghost predicate Valid()
      reads this`out, this`inn, this`frames, this`since
    {
      && OutValid(out, frames)
      && (forall fd :: fd in inn ==> InOk(inn[fd]))
    }

    constructor (fds: set<int>, counts: multiset<int>)
      ensures Valid() && live == fds && opens == counts && closes == multiset{} && frames == []
      ensures Wired() == Wire(map[], {}, {}, map[])
    {
      live, opens, closes, out, inn, frames, since := fds, counts, multiset{}, map[], map[], [], map[];
    }

    function Out(fd: int): Outflow
      reads this
    {
      if fd in out then out[fd] else NO_OUTFLOW
    }

    function In(fd: int): Inflow
      reads this
    {
      if fd in inn then inn[fd] else NO_INFLOW
    }

    ghost function Wired(): Wire
      reads this`out, this`inn, this`since
    {
      Wire(Heard(inn), Deaf(inn), Mute(out), since)
    }

    lemma OnlyOutChanged(before: map<int, Outflow>, fd: int)
      requires out == before[fd := Out(fd)] && (fd in out ==> OutOk(out[fd]))
      requires forall x :: x in before ==> OutOk(before[x])
      ensures forall x :: x in out ==> OutOk(out[x])
    {
      forall x | x in out
        ensures OutOk(out[x])
      {
        if x != fd {
          assert x in before;
        }
      }
    }

    lemma StillTraced(before: map<int, Outflow>, fd: int)
      requires out == before[fd := Out(fd)] && (fd in out ==> Traced(out[fd], fd, frames, since))
      requires forall x :: x in before ==> Traced(before[x], x, frames, since)
      requires fd in out && forall x :: x in since ==> x in before
      ensures forall x :: x in out ==> Traced(out[x], x, frames, since)
      ensures forall x :: x in since ==> x in out
    {
      hide Traced;
      forall x | x in since
        ensures x in out
      {
        assert x != fd ==> x in before - {fd};
      }
      forall x | x in out
        ensures Traced(out[x], x, frames, since)
      {
        if x != fd {
          assert x in before;
        }
      }
    }

    lemma OneMoreTraced(before: map<int, Outflow>, earlier: seq<(int, seq<Byte>)>, fd: int, m: seq<Byte>)
      requires out == before[fd := Out(fd)] && frames == earlier + [(fd, m)]
      requires fd in before && fd in out && !before[fd].broken && out[fd].sent == before[fd].sent + [m]
      requires !out[fd].broken
      requires forall x :: x in before ==> Traced(before[x], x, earlier, since)
      requires forall x :: x in since ==> x in before
      ensures forall x :: x in out ==> Traced(out[x], x, frames, since)
      ensures forall x :: x in since ==> x in out
    {
      forall x | x in since
        ensures x in out
      {
        assert x != fd ==> x in before - {fd};
      }
      forall x | x in out
        ensures Traced(out[x], x, frames, since)
      {
        if x != fd {
          assert x in before;
        }
        TracedAppend(before[x], x, earlier, since, fd, m);
      }
    }

    /** What holds of the outgoing streams. */
    ghost predicate OutValid(o: map<int, Outflow>, f: seq<(int, seq<Byte>)>)
      reads this`since
    {
      && (forall x :: x in o ==> OutOk(o[x]))
      && (forall x :: x in o ==> Traced(o[x], x, f, since))
      && (forall x :: x in since ==> x in o)
    }

    lemma SendFailed(before: map<int, Outflow>, fd: int, part: seq<Byte>)
      requires OutValid(before, frames) && |part| < TCP_MSG_SIZE
      requires var o := if fd in before then before[fd] else NO_OUTFLOW;
        (o.broken ==> part == []) && out == before[fd := Outflow(o.bytes + part, o.sent, true)]
      ensures OutValid(out, frames)
    {
      OutPart(if fd in before then before[fd] else NO_OUTFLOW, part);
      OnlyOutChanged(before, fd);
      StillTraced(before, fd);
    }

    lemma SendDone(before: map<int, Outflow>, earlier: seq<(int, seq<Byte>)>, fd: int, m: seq<Byte>)
      requires OutValid(before, earlier) && |m| == TCP_MSG_SIZE && frames == earlier + [(fd, m)]
      requires fd in before && !before[fd].broken
      requires out == before[fd := Outflow(before[fd].bytes + m, before[fd].sent + [m], false)]
      ensures OutValid(out, frames)
    {
      OutWhole(before[fd], m);
      OnlyOutChanged(before, fd);
      OneMoreTraced(before, earlier, fd, m);
    }

    lemma OnlyInChanged(before: map<int, Inflow>, fd: int)
      requires inn == before[fd := In(fd)] && (fd in inn ==> InOk(inn[fd]))
      requires forall x :: x in before ==> InOk(before[x])
      ensures forall x :: x in inn ==> InOk(inn[x])
    {
      forall x | x in inn
        ensures InOk(inn[x])
      {
        if x != fd {
          assert x in before;
        }
      }
    }

    /** send(2): takes some leading bytes, or fails; a connection that failed once keeps failing. */
    method Send(fd: int, data: seq<Byte>) returns (n: int)
      requires |data| > 0
      modifies this`out
      ensures n <= |data|
      ensures out == old(out)[fd := Out(fd)]
      ensures n <= 0 ==> Out(fd) == old(Out(fd)).(broken := true)
      ensures n > 0 ==> fd in live && !old(Out(fd)).broken
      ensures n > 0 ==> Out(fd) == old(Out(fd)).(bytes := old(Out(fd)).bytes + data[..n])
    {
      n := *;
      var o := Out(fd);
      if n > |data| || o.broken || fd !in live {
        n := -1;
      }
      out := out[fd := if n <= 0 then o.(broken := true) else o.(bytes := o.bytes + data[..n])];
    }

    /** recv(2): hands over some of the bytes that follow, or fails, and then keeps failing. */
    method Recv(fd: int, room: nat) returns (n: int, data: seq<Byte>)
      requires room > 0
      modifies this`inn
      ensures n <= room && |data| == if n > 0 then n else 0
      ensures inn == old(inn)[fd := In(fd)]
      ensures n <= 0 ==> In(fd) == old(In(fd)).(broken := true)
      ensures n > 0 ==> fd in live && !old(In(fd)).broken && old(In(fd)).taken + n <= |old(In(fd)).bytes|
      ensures n > 0 ==> data == old(In(fd)).bytes[old(In(fd)).taken..old(In(fd)).taken + n]
      ensures n > 0 ==> In(fd) == old(In(fd)).(taken := old(In(fd)).taken + n)
    {
      n := *;
      var i := In(fd);
      if n > room || i.broken || i.taken + n > |i.bytes| || fd !in live {
        n := -1;
      }
      if n <= 0 {
        data := [];
        inn := inn[fd := i.(broken := true)];
      } else {
        data := i.bytes[i.taken..i.taken + n];
        inn := inn[fd := i.(taken := i.taken + n)];
      }
    }

    /** accept(2): a descriptor that is not open, for a peer that will write any bytes it likes; or a failure. */
    method Accept() returns (fd: int)
      requires Valid()
      modifies this
      ensures Valid()
      ensures frames == old(frames)
      ensures fd <= 0 ==> live == old(live) && opens == old(opens) && closes == old(closes)
      ensures fd <= 0 ==> Wired() == old(Wired())
      ensures fd > 0 ==> fd !in old(live) && live == old(live) + {fd}
      ensures fd > 0 ==> opens == old(opens) + multiset{fd} && closes == old(closes)
      ensures fd > 0 ==> fd in inn && Wired() == Accepted(old(Wired()), fd, |frames|)
      ensures fd > 0 ==> out == old(out)[fd := Outflow([], [], false)]
      ensures fd > 0 ==> inn == old(inn)[fd := Inflow(In(fd).bytes, 0, [], false)]
    {
      fd := *;
      var bytes: seq<Byte> := *;
      if fd in live {
        fd := -1;
      }
      if fd > 0 {
        live := live + {fd};
        opens := opens + multiset{fd};
        HeardUpdate(inn, fd, Inflow(bytes, 0, [], false));
        MuteUpdate(out, fd, Outflow([], [], false));
        out := out[fd := Outflow([], [], false)];
        inn := inn[fd := Inflow(bytes, 0, [], false)];
        since := since[fd := |frames|];
      }
    }

    /** close(2): the descriptor is free again, and nothing passes through it until it is handed out anew. */
    method Close(fd: int)
      requires fd in live
      modifies this`live, this`closes
      ensures live == old(live) - {fd} && closes == old(closes) + multiset{fd}
    {
      live := live - {fd};
      closes := closes + multiset{fd};
    }

    /** recvfrom(2): overwrites the head of the buffer with a datagram, or reports none, or fails. */
    method RecvFrom(buf: array<Byte>) returns (n: int, addr: Addr, ghost bytes: seq<Byte>)
      modifies buf
      ensures n <= buf.Length && |bytes| <= buf.Length
      ensures n > 0 ==> |bytes| == n && buf[..] == Patch(old(buf[..]), 0, bytes)
      ensures n <= 0 ==> buf[..] == old(buf[..])
    {
      n := *;
      addr := *;
      var datagram: seq<Byte> := *;
      if n > buf.Length || n != |datagram| {
        n := if |datagram| == 0 then 0 else -1;
      }
      bytes := if n > 0 then datagram else [];
      if n > 0 {
        forall k | 0 <= k < n {
          buf[k] := datagram[k];
        }
        assert buf[..n] == datagram;
        assert buf[n..] == old(buf[..])[n..];
      }
    }
  }

  /** Sends the whole buffer, in as many pieces as the transport takes. A failure leaves part of it behind. */
  method SendTcpMsg(net: Network, fd: int, buf: array<Byte>) returns (err: Err)
    requires net.Valid() && buf.Length == TCP_MSG_SIZE
    modifies net`out, net`frames
    ensures net.Valid()
    ensures fd < 0 ==> err == TCP_INPUT_SOCKET_INVALID && net.out == old(net.out)
    ensures fd >= 0 ==> err == OK || err == TCP_FAILED_SEND_RECV
    ensures fd >= 0 ==> net.out == old(net.out)[fd := net.Out(fd)]
    ensures err == OK ==> fd in net.live && !old(net.Out(fd)).broken
    ensures err == OK ==>
      net.Out(fd) == Outflow(old(net.Out(fd)).bytes + buf[..], old(net.Out(fd)).sent + [buf[..]], false)
    ensures err == TCP_FAILED_SEND_RECV ==> net.Out(fd).broken && net.Out(fd).sent == old(net.Out(fd)).sent
    ensures err == TCP_FAILED_SEND_RECV ==>
      exists k :: 0 <= k < buf.Length && net.Out(fd).bytes == old(net.Out(fd)).bytes + buf[..k]
    ensures net.frames == if err == OK then old(net.frames) + [(fd, buf[..])] else old(net.frames)
    ensures Mute(net.out) == if err == TCP_FAILED_SEND_RECV then Mute(old(net.out)) + {fd} else Mute(old(net.out))
  {
    hide Mute, OutOk, InOk, Traced, Piece;
    if fd < 0 {
      return TCP_INPUT_SOCKET_INVALID;
    }
    if buf.Length == 0 {
      return TCP_INPUT_BUF_LEN_IS_ZERO;
    }
    var o := net.Out(fd);
    var bytesSend := 0;
    while bytesSend < buf.Length
      invariant 0 <= bytesSend <= buf.Length
      invariant bytesSend > 0 ==> fd in net.live && !o.broken
      invariant net.Out(fd) == o.(bytes := o.bytes + buf[..bytesSend])
      invariant net.out == old(net.out) || net.out == old(net.out)[fd := net.Out(fd)]
      invariant net.frames == old(net.frames)
    {
      var tcpBytes := net.Send(fd, buf[bytesSend..]);
      if tcpBytes <= 0 {
        net.SendFailed(old(net.out), fd, buf[..bytesSend]);
        MuteUpdate(old(net.out), fd, net.Out(fd));
        return TCP_FAILED_SEND_RECV;
      }
      assert o.bytes + buf[..bytesSend] + buf[bytesSend..][..tcpBytes] == o.bytes + buf[..bytesSend + tcpBytes];
      bytesSend := bytesSend + tcpBytes;
    }
    assert buf[..bytesSend] == buf[..];
    net.out := net.out[fd := Outflow(o.bytes + buf[..], o.sent + [buf[..]], false)];
    net.frames := net.frames + [(fd, buf[..])];
    net.SendDone(old(net.out), old(net.frames), fd, buf[..]);
    StillSpeaks(old(net.out), fd, net.Out(fd));
    return OK;
  }

  lemma StillSpeaks(out: map<int, Outflow>, fd: int, o: Outflow)
    requires fd in out && !out[fd].broken && !o.broken
    ensures Mute(out[fd := o]) == Mute(out)
  {
  }

  /** Receives until the buffer is full, in whatever pieces the transport delivers. */
  method RecvTcpMsg(net: Network, fd: int, buf: array<Byte>) returns (err: Err)
    requires net.Valid() && buf.Length == TCP_MSG_SIZE
    modifies net`inn, buf
    ensures net.Valid()
    ensures fd < 0 ==> err == TCP_INPUT_SOCKET_INVALID && net.inn == old(net.inn)
    ensures fd >= 0 ==> err == OK || err == TCP_FAILED_SEND_RECV
    ensures fd >= 0 ==> net.inn == old(net.inn)[fd := net.In(fd)]
    ensures err == OK ==> var i := old(net.In(fd));
      fd in net.live && !i.broken
      && i.taken + buf.Length <= |i.bytes| && buf[..] == i.bytes[i.taken..i.taken + buf.Length]
      && net.In(fd) == Inflow(i.bytes, i.taken + buf.Length, i.got + [buf[..]], false)
    ensures err == TCP_FAILED_SEND_RECV ==>
      net.In(fd).broken && net.In(fd).bytes == old(net.In(fd)).bytes && net.In(fd).got == old(net.In(fd)).got
  {
    if fd < 0 {
      return TCP_INPUT_SOCKET_INVALID;
    }
    if buf.Length == 0 {
      return TCP_INPUT_BUF_LEN_IS_ZERO;
    }
    var i := net.In(fd);
    var bytesRecv := 0;
    while bytesRecv < buf.Length
      invariant 0 <= bytesRecv <= buf.Length
      invariant bytesRecv > 0 ==> fd in net.live && !i.broken
      invariant i.taken + bytesRecv <= |i.bytes|
      invariant net.In(fd) == i.(taken := i.taken + bytesRecv)
      invariant net.inn == old(net.inn) || net.inn == old(net.inn)[fd := net.In(fd)]
      invariant forall k :: 0 <= k < bytesRecv ==> buf[k] == i.bytes[i.taken + k]
    {
      var n, data := net.Recv(fd, buf.Length - bytesRecv);
      if n <= 0 {
        net.OnlyInChanged(old(net.inn), fd);
        return TCP_FAILED_SEND_RECV;
      }
      forall k | 0 <= k < n {
        buf[bytesRecv + k] := data[k];
      }
      bytesRecv := bytesRecv + n;
    }
    assert buf[..] == i.bytes[i.taken..i.taken + buf.Length];
    net.inn := net.inn[fd := Inflow(i.bytes, i.taken + buf.Length, i.got + [buf[..]], false)];
    InWhole(i);
    net.OnlyInChanged(old(net.inn), fd);
    return OK;
  }

  /** What a receive does to the picture of the connections. */
  lemma ReceivedWire(before: map<int, Inflow>, after: map<int, Inflow>, fd: int, i: Inflow, frame: Option<seq<Byte>>,
                     mute: set<int>, since: map<int, nat>)
    requires fd in before && after == before[fd := i]
    requires frame.Some? ==> !before[fd].broken && !i.broken && i.got == before[fd].got + [frame.value]
    requires frame.None? ==> i.broken && i.got == before[fd].got
    ensures Wire(Heard(after), Deaf(after), mute, since) ==
      Received(Wire(Heard(before), Deaf(before), mute, since), fd, frame)
  {
    HeardUpdate(before, fd, i);
  }
}
