/** From a command typed at a subscriber to the text shown on another one's screen: what the layers together
    promise over a whole run of the server. */
module EndToEnd {
  import opened Bytes
  import opened Utils
  import opened UdpType
  import opened TcpType
  import opened TopicMsg
  import opened ClientTable
  import opened Broker
  import opened Trace
  import opened Guarantees
  import opened Commands
  import opened SubscriberUtils
  import opened Connections
  import opened Passes
  import opened Reception
  import ServerUtils
  import SS = ServerState

  // ---------- Commands ----------

  /** A subscriber's k-th message, however its connection is cut into pieces, changes at the server its own entry of
      the map and nothing else, to the topic and option that the words of the line typed give; a longer first word
      is understood by nobody. */
  lemma SubscriptionApplied(t: Table, fd: int, o: Outflow, i: Inflow, k: nat, w: seq<seq<Byte>>)
    requires Inv(t) && HasFd(t, fd)
    requires OutOk(o) && InOk(i) && i.bytes <= o.bytes && k < |i.got|
    requires |w| >= 2 && k < |o.sent| && |o.sent[k]| == TCP_MSG_SIZE && IsSubscription(o.sent[k], w)
    ensures |i.got[k]| == TCP_MSG_SIZE
    ensures var (err, r) := StepRequest(t, fd, Decode(i.got[k]));
      if w[0] == SUBSCRIBE
      then err == OK && TableOk(r) && Abs(r) == MapSubscribe(Abs(t), fd, w[1], SfOf(w))
      else err == SERVER_UNKNOWN_COMMAND && r == t
  {
    hide Decode, Abs, SfOf, OutOk, InOk;
    Framing(o, i);
    assert i.got[k] == o.sent[k];
    SubscribeRefines(t, fd, w[1], SfOf(w));
  }

  lemma UnsubscriptionApplied(t: Table, fd: int, o: Outflow, i: Inflow, k: nat, w: seq<seq<Byte>>)
    requires Inv(t) && HasFd(t, fd)
    requires OutOk(o) && InOk(i) && i.bytes <= o.bytes && k < |i.got|
    requires |w| >= 2 && k < |o.sent| && |o.sent[k]| == TCP_MSG_SIZE && IsUnsubscription(o.sent[k], w)
    ensures |i.got[k]| == TCP_MSG_SIZE
    ensures var (err, r) := StepRequest(t, fd, Decode(i.got[k]));
      if w[0] == UNSUBSCRIBE
      then TableOk(r) && Abs(r) == MapUnsubscribe(Abs(t), fd, w[1])
        && err == if Subscribed(t[FindFd(t, fd)], w[1]) then OK else CLIENTS_VEC_COUND_NOT_FIND_TOPIC
      else err == SERVER_UNKNOWN_COMMAND && r == t
  {
    hide Decode, Abs, OutOk, InOk;
    Framing(o, i);
    assert i.got[k] == o.sent[k];
    UnsubscribeRefines(t, fd, w[1]);
  }

  function AllMeant(lines: seq<seq<Byte>>): (r: seq<Command>)
    ensures |r| == |lines| && forall k :: 0 <= k < |r| ==> r[k] == Meant(lines[k])
  {
    seq(|lines|, k requires 0 <= k < |lines| => Meant(lines[k]))
  }

  /** What a server has read of a subscriber's messages is its id and what its first lines meant. */
  lemma HeardIsMeant(o: Outflow, i: Inflow, name: seq<Byte>, lines: seq<seq<Byte>>)
    requires OutOk(o) && InOk(i) && i.bytes <= o.bytes && Spoken(o.sent, Some(name), lines) && i.got != []
    ensures WholeFrames(i.got) && WholeFrames(i.got[1..]) && |i.got| - 1 <= |lines|
    ensures Screen(i.got[0]) == name && Requests(i.got[1..]) == AllMeant(lines[..|i.got| - 1])
  {
    hide Meant, Decode, Encodes, Screen, OutOk, InOk;
    Framing(o, i);
    var n := |i.got| - 1;
    assert i.got[0] == o.sent[0];
    forall k | 0 < k <= n
      ensures |i.got[k]| == TCP_MSG_SIZE && Decode(i.got[k]) == Meant(lines[k - 1])
    {
      assert i.got[k] == o.sent[(k - 1) + 1] && Encodes(o.sent[(k - 1) + 1], lines[k - 1]);
      SizeOfEncoding(o.sent[k], lines[k - 1]);
      EncodesMeant(o.sent[k], lines[k - 1]);
    }
    forall k | 0 <= k < n
      ensures Requests(i.got[1..])[k] == AllMeant(lines[..n])[k]
    {
      assert i.got[1..][k] == i.got[k + 1];
    }
  }

  lemma SizeOfEncoding(frame: seq<Byte>, line: seq<Byte>)
    requires Encodes(frame, line)
    ensures |frame| == TCP_MSG_SIZE
  {
  }

  /** Typed lines to subscriptions, over a whole run of the server: the subscriptions of a connected client are those
      it had when it was connected, changed in order by what the lines typed at its subscriber since meant, as far
      as their messages have been read; and the client is registered under the subscriber's id. */
  lemma TypedLinesApplied(udp: int, tcp: int, turns: seq<SS.Turn>, id: Id, fd: int,
                          o: Outflow, i: Inflow, name: seq<Byte>, lines: seq<seq<Byte>>)
    requires SS.Sound(SS.Init(udp, tcp)) && SS.Possible(SS.Init(udp, tcp), turns, |turns|)
    requires SS.NeverTakesHeldNumber(SS.Init(udp, tcp), turns, |turns|)
    requires var r := SS.After(SS.Init(udp, tcp), turns, |turns|).1;
      LinkAt(r.hist, |r.hist|, id) == Up(fd) && (fd in r.wire.heard ==> r.wire.heard[fd] == i.got)
    requires OutOk(o) && InOk(i) && i.bytes <= o.bytes && Spoken(o.sent, Some(name), lines)
    ensures var r := SS.After(SS.Init(udp, tcp), turns, |turns|).1;
      var h := r.hist; var before := SubsAt(h, ConnectedAt(h, |h|, id), id);
      && id == name && 0 < |i.got| <= |lines| + 1
      && var v := Project(r.broker, id).view;
         && v.Some? && v.value.conn == Some(fd)
         && v.value.subs == AllCommanded(before, AllMeant(lines[..|i.got| - 1]))
  {
    hide SS.Sound, SS.Init, SS.Possible, SS.After, SS.NeverTakesHeldNumber, SS.History, SS.Matched;
    hide SS.Recorded, SS.FreeSoFar, SS.Apart, Faithful, OutOk, InOk, Spoken, Project, AllCommanded, Requests;
    hide AllMeant, Carried, SinceConnect;
    var s, n := SS.Init(udp, tcp), |turns|;
    InitCarried(udp, tcp, id);
    StartsEmpty(udp, tcp);
    InitFaithful(udp, tcp);
    SS.RunFree(s, turns, n);
    RunCarried(udp, tcp, turns, n, id);
    RunFaithful(s, turns, n);
    HeardIsMeant(o, i, name, lines);
    SubscriptionsAreHeard(SS.After(s, turns, n).1, id, fd);
  }

  // ---------- Screens ----------

  /** The texts of the messages sent whole to a client, in order. */
  function TextsTo(frames: seq<(int, seq<Byte>)>, sent: seq<Sent>, id: Id, n: nat): seq<seq<Byte>>
    requires n <= |sent| == |frames|
  {
    if n == 0 then []
    else
      var rest := TextsTo(frames, sent, id, n - 1);
      if sent[n - 1].id == id && |frames[n - 1].1| == TCP_MSG_SIZE then rest + [Screen(frames[n - 1].1)] else rest
  }

  /** The texts that deliveries out of a log should show. */
  function Texts(got: seq<Delivery>, log: seq<Udp>, fmt: FloatFormat): seq<seq<Byte>> {
    if got == [] then []
    else
      var rest, pos := Texts(got[..|got| - 1], log, fmt), got[|got| - 1].pos;
      if pos < |log| && WellTyped(log[pos]) then rest + [Render(log[pos], fmt)] else rest
  }

  lemma TextsAppend(got: seq<Delivery>, d: Delivery, log: seq<Udp>, fmt: FloatFormat)
    requires d.pos < |log| && WellTyped(log[d.pos])
    ensures Texts(got + [d], log, fmt) == Texts(got, log, fmt) + [Render(log[d.pos], fmt)]
  {
    assert (got + [d])[..|got|] == got;
  }

  lemma {:induction false} TextsAreRendered(frames: seq<(int, seq<Byte>)>, sent: seq<Sent>, id: Id, n: nat,
                                            log: seq<Udp>, fmt: FloatFormat)
    requires ServerUtils.FramesOk(frames, sent, log, fmt) && n <= |sent|
    ensures TextsTo(frames, sent, id, n) == Texts(ToId(sent[..n], id), log, fmt)
  {
    hide Screen, Render, WellTyped;
    if n > 0 {
      TextsAreRendered(frames, sent, id, n - 1, log, fmt);
      assert ServerUtils.FrameOk(frames[n - 1], sent[n - 1], log, fmt);
      assert sent[..n][..n - 1] == sent[..n - 1];
      if sent[n - 1].id == id {
        TextsAppend(ToId(sent[..n - 1], id), sent[n - 1].what, log, fmt);
      }
    }
  }

  predicate Shows(frame: seq<Byte>, pos: nat, log: seq<Udp>, fmt: FloatFormat) {
    |frame| == TCP_MSG_SIZE && pos < |log| && WellTyped(log[pos]) && Screen(frame) == Render(log[pos], fmt)
  }

  predicate StreamShows(frames: seq<seq<Byte>>, what: seq<Delivery>, log: seq<Udp>, fmt: FloatFormat) {
    |frames| == |what| && forall k :: 0 <= k < |frames| ==> Shows(frames[k], what[k].pos, log, fmt)
  }

  lemma PrefixOk(frames: seq<(int, seq<Byte>)>, sent: seq<Sent>, log: seq<Udp>, fmt: FloatFormat)
    requires ServerUtils.FramesOk(frames, sent, log, fmt) && frames != []
    ensures var n := |frames| - 1;
      && ServerUtils.FramesOk(frames[..n], sent[..n], log, fmt)
      && frames[n].0 == sent[n].fd && Shows(frames[n].1, sent[n].what.pos, log, fmt)
  {
    hide Screen, Render, WellTyped;
    var n := |frames| - 1;
    assert forall k :: 0 <= k < n ==> ServerUtils.FrameOk(frames[k], sent[k], log, fmt);
    assert ServerUtils.FrameOk(frames[n], sent[n], log, fmt);
  }

  /** What went through a descriptor is, message by message, what was sent to it. */
  lemma {:induction false} ThroughShows(frames: seq<(int, seq<Byte>)>, sent: seq<Sent>, log: seq<Udp>,
                                        fmt: FloatFormat, fd: int, from: nat)
    requires ServerUtils.FramesOk(frames, sent, log, fmt)
    ensures StreamShows(Through(frames, fd, from), Carried(sent, fd, from), log, fmt)
    decreases |frames|
  {
    hide Shows;
    if |frames| > from {
      var n := |frames| - 1;
      PrefixOk(frames, sent, log, fmt);
      hide ServerUtils.FramesOk;
      ThroughShows(frames[..n], sent[..n], log, fmt, fd, from);
    }
  }

  /** A screen shows, in order, the rendered texts of the first of some deliveries out of a log. */
  predicate ScreenOf(screen: seq<seq<Byte>>, what: seq<Delivery>, log: seq<Udp>, fmt: FloatFormat) {
    && |screen| <= |what|
    && forall k :: 0 <= k < |screen| ==>
         what[k].pos < |log| && WellTyped(log[what[k].pos]) && screen[k] == Render(log[what[k].pos], fmt)
  }

  /** What a subscriber shows, however its connection was cut into pieces: the rendered texts of the logged
      messages delivered through that connection since it was accepted, in order, and all of them once it has
      read everything. */
  lemma ScreenShows(o: Outflow, fd: int, frames: seq<(int, seq<Byte>)>, since: map<int, nat>, sent: seq<Sent>,
                    log: seq<Udp>, fmt: FloatFormat, i: Inflow, screen: seq<seq<Byte>>)
    requires OutOk(o) && Traced(o, fd, frames, since) && fd in since && ServerUtils.FramesOk(frames, sent, log, fmt)
    requires InOk(i) && i.bytes <= o.bytes && |screen| == |i.got|
    requires forall k :: 0 <= k < |screen| ==> |i.got[k]| == TCP_MSG_SIZE && screen[k] == Screen(i.got[k])
    ensures var what := Carried(sent, fd, since[fd]);
      ScreenOf(screen, what, log, fmt) && (i.taken == |o.bytes| && !i.broken ==> |screen| == |what|)
  {
    hide Screen, Render, WellTyped, OutOk, InOk, ServerUtils.FramesOk;
    ThroughShows(frames, sent, log, fmt, fd, since[fd]);
    ShowsWhatWasSent(o, i, screen);
    assert forall k :: 0 <= k < |o.sent| ==> Shows(o.sent[k], Carried(sent, fd, since[fd])[k].pos, log, fmt);
  }

  /** Whatever a user does at a subscriber, its screen shows just that, one text for each read that succeeded, and what
      it has sent is its id and the lines typed as commands that could be sent. */
  method Watch(sub: Subscriber, moments: seq<Moment>, ghost o: Outflow, ghost fd: int,
               ghost frames: seq<(int, seq<Byte>)>, ghost since: map<int, nat>, ghost sent: seq<Sent>,
               ghost log: seq<Udp>, ghost fmt: FloatFormat) returns (ghost errs: seq<Err>)
    requires sub.Valid() && sub.id.Some? && sub.net.In(sub.tcpSocket).bytes <= o.bytes
    requires OutOk(o) && Traced(o, fd, frames, since) && fd in since && ServerUtils.FramesOk(frames, sent, log, fmt)
    modifies sub`screen, sub`lines, sub.cmd, sub.sendMsg, sub.recvMsg, sub.net`out, sub.net`inn, sub.net`frames
    ensures sub.Valid() && ScreenOf(sub.screen, Carried(sent, fd, since[fd]), log, fmt)
    ensures Lived(moments, errs) && Done(moments, errs)
    ensures |sub.screen| == |old(sub.screen)| + Printed(moments, errs, |errs|)
    ensures Spoken(sub.net.Out(sub.tcpSocket).sent, old(sub.id), old(sub.lines) + Taken(moments, errs, |errs|))
  {
    hide Screen, Render, WellTyped, OutOk, Traced, ServerUtils.FramesOk, ScreenOf, Spoken, Lived, Done;
    errs := sub.Interact(moments);
    InflowOk(sub);
    ScreenShows(o, fd, frames, since, sent, log, fmt, sub.net.In(sub.tcpSocket), sub.screen);
  }

  lemma InflowOk(sub: Subscriber)
    requires sub.Valid()
    ensures InOk(sub.net.In(sub.tcpSocket))
  {
    hide Spoken;
  }

  // ---------- Whole runs ----------

  lemma HistoryShows(h: seq<Event>, b: State, frames: seq<(int, seq<Byte>)>, fmt: FloatFormat, id: Id)
    requires SS.History(h, b) && ServerUtils.FramesOk(frames, b.sent, b.log, fmt)
    ensures var shown, n := TextsTo(frames, b.sent, id, |b.sent|), |h|;
      && shown == Texts(Expected(h, n, id, DropRest), Published(h, n), fmt)
      && (NoLiveFailure(h, n, id) && NoReplayFailure(h, n, id, DropRest) ==>
            shown == Texts(Intended(h, n, id), Published(h, n), fmt))
  {
    hide ServerUtils.FramesOk, Texts, TextsTo, ToId, Published, Expected, Intended, NoLiveFailure, NoReplayFailure;
    hide LinkAt, SubsAt, Waiting, Missed, Run, Legal;
    RunIsTrace(h, |h|, id, DropRest);
    TextsAreRendered(frames, b.sent, id, |b.sent|, b.log, fmt);
    assert b.sent[..|b.sent|] == b.sent;
    if NoLiveFailure(h, |h|, id) && NoReplayFailure(h, |h|, id, DropRest) {
      TraceOrder(h, |h|, id, DropRest);
    }
  }

  /** Over every run of the server in which no peer is registered under the number of a client: the messages sent whole
      to a client read, in order, exactly as the events of the run say: the texts of its live messages as published
      and, at each reconnection, those of the stored ones newest first. */
  lemma RunShows(udp: int, tcp: int, turns: seq<SS.Turn>, frames: seq<(int, seq<Byte>)>, fmt: FloatFormat, id: Id)
    requires SS.Sound(SS.Init(udp, tcp)) && SS.Possible(SS.Init(udp, tcp), turns, |turns|)
    requires SS.NeverRegistersHeldNumber(SS.Init(udp, tcp), turns, |turns|)
    requires var b := SS.After(SS.Init(udp, tcp), turns, |turns|).1.broker;
      ServerUtils.FramesOk(frames, b.sent, b.log, fmt)
    ensures var r := SS.After(SS.Init(udp, tcp), turns, |turns|).1;
      var shown, h := TextsTo(frames, r.broker.sent, id, |r.broker.sent|), r.hist;
      && EventsOk(h) && Legal(h, |h|, DropRest) && r.broker == Run(h, |h|, DropRest)
      && shown == Texts(Expected(h, |h|, id, DropRest), Published(h, |h|), fmt)
      && (NoLiveFailure(h, |h|, id) && NoReplayFailure(h, |h|, id, DropRest) ==>
            shown == Texts(Intended(h, |h|, id), Published(h, |h|), fmt))
  {
    hide SS.Sound, SS.Matched, SS.Init, SS.Possible, SS.After, SS.NeverRegistersHeldNumber, ServerUtils.FramesOk;
    hide Texts, TextsTo, Published, Expected, Intended, NoLiveFailure, NoReplayFailure, Run, Legal, CarriedIn;
    hide SS.Recorded, SS.FreeSoFar, SS.Apart;
    InitCarried(udp, tcp, id);
    StartsEmpty(udp, tcp);
    SS.RunApartIff(SS.Init(udp, tcp), turns, |turns|);
    var r := SS.After(SS.Init(udp, tcp), turns, |turns|).1;
    HistoryShows(r.hist, r.broker, frames, fmt, id);
  }

  /** And as long as no send on any connection has failed, those are the intended texts. */
  lemma UnbrokenRunShows(udp: int, tcp: int, turns: seq<SS.Turn>, frames: seq<(int, seq<Byte>)>, fmt: FloatFormat,
                         id: Id)
    requires SS.Sound(SS.Init(udp, tcp)) && SS.Possible(SS.Init(udp, tcp), turns, |turns|)
    requires SS.NeverRegistersHeldNumber(SS.Init(udp, tcp), turns, |turns|)
    requires NeverMute(SS.Init(udp, tcp), turns, |turns|)
    requires var b := SS.After(SS.Init(udp, tcp), turns, |turns|).1.broker;
      ServerUtils.FramesOk(frames, b.sent, b.log, fmt)
    ensures var r := SS.After(SS.Init(udp, tcp), turns, |turns|).1;
      TextsTo(frames, r.broker.sent, id, |r.broker.sent|) ==
        Texts(Intended(r.hist, |r.hist|, id), Published(r.hist, |r.hist|), fmt)
  {
    hide SS.Sound, SS.Init, SS.Possible, SS.After, SS.NeverRegistersHeldNumber, ServerUtils.FramesOk, NeverMute;
    hide Texts, TextsTo, Published, Expected, Intended, NoLiveFailure, NoReplayFailure, Run, Legal;
    RunShows(udp, tcp, turns, frames, fmt, id);
    RunUnbroken(udp, tcp, turns, |turns|, id);
  }

  /** One screen, one connection, one client: what a subscriber's screen shows is, in order, the rendered texts of
      the messages the events say were sent to its client since it was connected, and all of them once it has read
      everything. */
  lemma ClientScreen(udp: int, tcp: int, turns: seq<SS.Turn>, frames: seq<(int, seq<Byte>)>, fmt: FloatFormat,
                     id: Id, fd: int, o: Outflow, i: Inflow, screen: seq<seq<Byte>>)
    requires SS.Sound(SS.Init(udp, tcp)) && SS.Possible(SS.Init(udp, tcp), turns, |turns|)
    requires SS.NeverTakesHeldNumber(SS.Init(udp, tcp), turns, |turns|)
    requires var r := SS.After(SS.Init(udp, tcp), turns, |turns|).1;
      && LinkAt(r.hist, |r.hist|, id) == Up(fd)
      && ServerUtils.FramesOk(frames, r.broker.sent, r.broker.log, fmt)
      && Traced(o, fd, frames, r.wire.since)
    requires OutOk(o) && InOk(i) && i.bytes <= o.bytes && |screen| == |i.got|
    requires forall k :: 0 <= k < |screen| ==> |i.got[k]| == TCP_MSG_SIZE && screen[k] == Screen(i.got[k])
    ensures var r := SS.After(SS.Init(udp, tcp), turns, |turns|).1; var h := r.hist;
      && r.broker.log == Published(h, |h|)
      && Expected(h, |h|, id, DropRest) ==
           Expected(h, ConnectedAt(h, |h|, id), id, DropRest) + SinceConnect(h, |h|, id, DropRest)
      && ScreenOf(screen, SinceConnect(h, |h|, id, DropRest), Published(h, |h|), fmt)
      && (i.taken == |o.bytes| && !i.broken ==> |screen| == |SinceConnect(h, |h|, id, DropRest)|)
  {
    hide SS.Sound, SS.Init, SS.Possible, SS.After, SS.NeverTakesHeldNumber, ServerUtils.FramesOk, SS.Matched;
    hide SS.Recorded, SS.FreeSoFar, SS.Apart, SS.NeverRegistersHeldNumber;
    hide OutOk, InOk, Traced, ScreenOf, Screen, Carried, SinceConnect, Expected, Published, Run, Legal;
    InitCarried(udp, tcp, id);
    StartsEmpty(udp, tcp);
    SS.NeverTakesNeverRegisters(SS.Init(udp, tcp), turns, |turns|);
    SS.RunApartIff(SS.Init(udp, tcp), turns, |turns|);
    RunCarried(udp, tcp, turns, |turns|, id);
    var r := SS.After(SS.Init(udp, tcp), turns, |turns|).1;
    RunIsTrace(r.hist, |r.hist|, id, DropRest);
    ExpectedSplits(r.hist, |r.hist|, id, DropRest);
    ScreenShows(o, fd, frames, r.wire.since, r.broker.sent, r.broker.log, fmt, i, screen);
  }

  // ---------- The whole program ----------

  /** The texts sent to a client are those its events determine, and the intended ones if none of its sends failed. */
  ghost predicate TextsDetermined(h: seq<Event>, b: State, frames: seq<(int, seq<Byte>)>, fmt: FloatFormat, id: Id) {
    && |frames| == |b.sent|
    && var shown, n := TextsTo(frames, b.sent, id, |b.sent|), |h|;
       && shown == Texts(Expected(h, n, id, DropRest), Published(h, n), fmt)
       && (NoFailure(h, n, id) ==> shown == Texts(Intended(h, n, id), Published(h, n), fmt))
  }

  /** A screen fed by some reader of a connection. */
  predicate ScreenFrom(o: Outflow, i: Inflow, screen: seq<seq<Byte>>) {
    && InOk(i) && i.bytes <= o.bytes && |screen| == |i.got|
    && forall k :: 0 <= k < |screen| ==> |i.got[k]| == TCP_MSG_SIZE && screen[k] == Screen(i.got[k])
  }

  /** Any screen at the other end of a connected client's connection shows what was sent to the client since it was
      connected, and all of it once everything is read. */
  ghost predicate ScreensTrue(h: seq<Event>, out: map<int, Outflow>, fmt: FloatFormat, id: Id) {
    match LinkAt(h, |h|, id)
    case Up(fd) =>
      && fd in out
      && var what := SinceConnect(h, |h|, id, DropRest);
         forall i, screen :: ScreenFrom(out[fd], i, screen) ==>
           ScreenOf(screen, what, Published(h, |h|), fmt)
           && (i.taken == |out[fd].bytes| && !i.broken ==> |screen| == |what|)
    case _ => true
  }

  /** A subscriber whose messages the server reads on a connection. */
  predicate SpeaksInto(o: Outflow, i: Inflow, name: seq<Byte>, lines: seq<seq<Byte>>) {
    OutOk(o) && i.bytes <= o.bytes && Spoken(o.sent, Some(name), lines)
  }

  /** The subscriber has the client's id, and the client's subscriptions are those it had, changed by what was typed
      and has been read. */
  predicate LineTrue(h: seq<Event>, b: State, i: Inflow, id: Id, fd: int, name: seq<Byte>, lines: seq<seq<Byte>>)
    requires TableOk(b.clients)
  {
    var v, before, n := Project(b, id).view, SubsAt(h, ConnectedAt(h, |h|, id), id), |i.got| - 1;
    && id == name && 0 <= n <= |lines|
    && v.Some? && v.value.conn == Some(fd) && v.value.subs == AllCommanded(before, AllMeant(lines[..n]))
  }

  /** So it is with any subscriber at the other end of a connected client's connection. */
  ghost predicate LinesTrue(h: seq<Event>, b: State, inn: map<int, Inflow>, id: Id)
    requires TableOk(b.clients)
  {
    match LinkAt(h, |h|, id)
    case Up(fd) =>
      fd in inn &&
      forall o, name, lines :: SpeaksInto(o, inn[fd], name, lines) ==> LineTrue(h, b, inn[fd], id, fd, name, lines)
    case _ => true
  }

  /** A logged text is that of the last datagram received before it was logged, under the sender delivered. */
  ghost predicate TextLogged(m: Udp, src: Source, run: seq<seq<Byte>>) {
    && m.addr == src.sender && 0 < src.count <= |run|
    && m.data.StringData? && |run[src.count - 1]| >= MAX_TOPIC_LEN
    && TextKept(m.data.bytes, run[src.count - 1], run[..src.count - 1])
  }

  predicate Sized(run: seq<seq<Byte>>) {
    forall d :: d in run ==> MAX_TOPIC_LEN <= |d| <= 1551
  }

  ghost predicate Ended(udp: int, tcp: int, turns: seq<SS.Turn>, v: SS.Snapshot) {
    && 0 < udp && 0 < tcp && udp != tcp && SS.Sound(SS.Init(udp, tcp))
    && SS.Possible(SS.Init(udp, tcp), turns, |turns|)
    && v == SS.CloseAll(SS.After(SS.Init(udp, tcp), turns, |turns|).1)
  }

  lemma EndedTexts(udp: int, tcp: int, turns: seq<SS.Turn>, v: SS.Snapshot, frames: seq<(int, seq<Byte>)>,
                   fmt: FloatFormat, id: Id)
    requires Ended(udp, tcp, turns, v) && SS.NeverRegistersHeldNumber(SS.Init(udp, tcp), turns, |turns|)
    requires ServerUtils.FramesOk(frames, v.broker.sent, v.broker.log, fmt)
    ensures TextsDetermined(v.hist, v.broker, frames, fmt, id)
  {
    hide SS.Sound, SS.Init, SS.Possible, SS.After, SS.NeverRegistersHeldNumber, ServerUtils.FramesOk;
    hide Texts, TextsTo, Published, Expected, Intended, NoLiveFailure, NoReplayFailure, Run, Legal;
    ServerUtils.SentCount(frames, v.broker.sent, v.broker.log, fmt);
    RunShows(udp, tcp, turns, frames, fmt, id);
  }

  lemma EndedScreens(udp: int, tcp: int, turns: seq<SS.Turn>, v: SS.Snapshot, frames: seq<(int, seq<Byte>)>,
                     out: map<int, Outflow>, fmt: FloatFormat, id: Id)
    requires Ended(udp, tcp, turns, v) && SS.NeverTakesHeldNumber(SS.Init(udp, tcp), turns, |turns|)
    requires ServerUtils.FramesOk(frames, v.broker.sent, v.broker.log, fmt)
    requires forall fd :: fd in out ==> OutOk(out[fd]) && Traced(out[fd], fd, frames, v.wire.since)
    requires forall fd :: fd in v.wire.since ==> fd in out
    ensures ScreensTrue(v.hist, out, fmt, id)
  {
    hide SS.Sound, SS.Init, SS.Possible, SS.After, SS.NeverTakesHeldNumber, ServerUtils.FramesOk, OutOk, InOk, Traced;
    hide Published, SinceConnect, ScreenOf, Screen, Carried, Expected;
    var h := v.hist;
    if LinkAt(h, |h|, id).Up? {
      var fd := LinkAt(h, |h|, id).fd;
      RunCarried(udp, tcp, turns, |turns|, id);
      forall i, screen | ScreenFrom(out[fd], i, screen)
        ensures ScreenOf(screen, SinceConnect(h, |h|, id, DropRest), Published(h, |h|), fmt)
        ensures i.taken == |out[fd].bytes| && !i.broken ==> |screen| == |SinceConnect(h, |h|, id, DropRest)|
      {
        ClientScreen(udp, tcp, turns, frames, fmt, id, fd, out[fd], i, screen);
      }
    }
  }

  lemma EndedLines(udp: int, tcp: int, turns: seq<SS.Turn>, v: SS.Snapshot, inn: map<int, Inflow>, id: Id)
    requires Ended(udp, tcp, turns, v) && SS.NeverTakesHeldNumber(SS.Init(udp, tcp), turns, |turns|)
    requires v.wire.heard == Heard(inn) && forall fd :: fd in inn ==> InOk(inn[fd])
    ensures TableOk(v.broker.clients) && LinesTrue(v.hist, v.broker, inn, id)
  {
    EndedTable(udp, tcp, turns, v);
    hide SS.Sound, SS.Init, SS.Possible, SS.After, SS.NeverTakesHeldNumber, Ended, LineTrue, SpeaksInto, InOk, LinkAt;
    hide Heard;
    var h := v.hist;
    if LinkAt(h, |h|, id).Up? {
      var fd := LinkAt(h, |h|, id).fd;
      EndedConnection(udp, tcp, turns, v, id, fd);
      HeardAt(inn, fd);
      forall o, name, lines | SpeaksInto(o, inn[fd], name, lines)
        ensures LineTrue(h, v.broker, inn[fd], id, fd, name, lines)
      {
        EndedLine(udp, tcp, turns, v, inn[fd], id, fd, o, name, lines);
      }
    }
  }

  lemma HeardAt(inn: map<int, Inflow>, fd: int)
    requires fd in Heard(inn)
    ensures fd in inn && Heard(inn)[fd] == inn[fd].got
  {
  }

  lemma EndedConnection(udp: int, tcp: int, turns: seq<SS.Turn>, v: SS.Snapshot, id: Id, fd: int)
    requires Ended(udp, tcp, turns, v) && SS.NeverTakesHeldNumber(SS.Init(udp, tcp), turns, |turns|)
    requires LinkAt(v.hist, |v.hist|, id) == Up(fd)
    ensures fd in v.wire.heard && v.wire.heard[fd] != []
  {
    hide SS.Sound, SS.Init, SS.Possible, SS.After, SS.NeverTakesHeldNumber, LinkAt, SinceConnect, Carried;
    RunCarried(udp, tcp, turns, |turns|, id);
  }

  lemma EndedLine(udp: int, tcp: int, turns: seq<SS.Turn>, v: SS.Snapshot, i: Inflow, id: Id, fd: int,
                  o: Outflow, name: seq<Byte>, lines: seq<seq<Byte>>)
    requires Ended(udp, tcp, turns, v) && SS.NeverTakesHeldNumber(SS.Init(udp, tcp), turns, |turns|)
    requires LinkAt(v.hist, |v.hist|, id) == Up(fd) && fd in v.wire.heard && v.wire.heard[fd] == i.got
    requires InOk(i) && SpeaksInto(o, i, name, lines) && TableOk(v.broker.clients)
    ensures LineTrue(v.hist, v.broker, i, id, fd, name, lines)
  {
    hide SS.Sound, SS.Init, SS.Possible, SS.After, SS.NeverTakesHeldNumber, OutOk, InOk, Project, AllCommanded;
    hide AllMeant;
    hide SubsAt, Spoken, LinkAt;
    TypedLinesApplied(udp, tcp, turns, id, fd, o, i, name, lines);
  }

  lemma EndedTable(udp: int, tcp: int, turns: seq<SS.Turn>, v: SS.Snapshot)
    requires Ended(udp, tcp, turns, v)
    ensures TableOk(v.broker.clients)
  {
    hide SS.Possible, SS.Init;
  }

  lemma EndedLog(udp: int, tcp: int, turns: seq<SS.Turn>, v: SS.Snapshot, p: nat)
    requires Ended(udp, tcp, turns, v) && Sized(Datagrams(turns, |turns|))
    requires p < |v.broker.log| && v.broker.log[p].kind == STRING
    ensures p < |Sources(SS.Init(udp, tcp), turns, |turns|)|
    ensures TextLogged(v.broker.log[p], Sources(SS.Init(udp, tcp), turns, |turns|)[p], Datagrams(turns, |turns|))
  {
    hide SS.Sound, SS.Init, SS.Possible, SS.After, Datagrams, Sources, TextKept;
    LoggedTexts(udp, tcp, turns, |turns|, p);
  }

  lemma EndedPublications(udp: int, tcp: int, turns: seq<SS.Turn>, v: SS.Snapshot)
    requires Ended(udp, tcp, turns, v)
    ensures v.broker.log == LogOf(turns, |turns|) && Published(v.hist, |v.hist|) == LogOf(turns, |turns|)
  {
    hide SS.Sound, SS.Init, SS.Possible, SS.After, LogOf, Published;
    EveryDatagramPublished(udp, tcp, turns, |turns|);
  }

  /** The program, from its start to its end, in whatever world: it makes the passes that the rounds call for, until one
      fails or something stops it, and closes every descriptor as often as it was handed out; every datagram of a known
      type is logged and published once, in order. If no peer was registered
      under the number of a client, the texts sent to each client are those its events determine; if no such number
      was handed out at all, every screen and every typed line is true to the client it belongs to; and if the
      datagrams have the sizes of the format, every text in the log is that of its datagram. */
  method Program(udp: int, tcp: int, fmt: FloatFormat, rounds: seq<Round>)
    returns (s: ServerUtils.Server, ghost passes: seq<Pass>)
    requires 0 < udp && 0 < tcp && udp != tcp && FormatOk(fmt)
    ensures Serves(SS.Init(udp, tcp), rounds, passes) && Over(rounds, passes)
    ensures Ended(udp, tcp, AllTurns(passes, |passes|), s.Value()) && TableOk(s.clients.table)
    ensures s.net.live == {} && s.net.closes == s.net.opens && Faithful(s.Value())
    ensures s.log == Published(s.hist, |s.hist|) == LogOf(AllTurns(passes, |passes|), |AllTurns(passes, |passes|)|)
    ensures var turns := AllTurns(passes, |passes|);
      SS.NeverRegistersHeldNumber(SS.Init(udp, tcp), turns, |turns|) ==>
        forall id :: TextsDetermined(s.hist, s.Brokerage(), s.net.frames, fmt, id)
    ensures var turns := AllTurns(passes, |passes|);
      SS.NeverTakesHeldNumber(SS.Init(udp, tcp), turns, |turns|) ==>
        forall id :: ScreensTrue(s.hist, s.net.out, fmt, id) && LinesTrue(s.hist, s.Brokerage(), s.net.inn, id)
    ensures var turns := AllTurns(passes, |passes|);
      Sized(Datagrams(turns, |turns|)) ==>
        forall p :: 0 <= p < |s.log| && s.log[p].kind == STRING ==>
          p < |Sources(SS.Init(udp, tcp), turns, |turns|)|
          && TextLogged(s.log[p], Sources(SS.Init(udp, tcp), turns, |turns|)[p], Datagrams(turns, |turns|))
  {
    s, passes := ServerUtils.RunServer(udp, tcp, fmt, rounds);
    hide *;
    ghost var turns := AllTurns(passes, |passes|);
    ProgramEnds(udp, tcp, fmt, turns, s);
  }

  lemma ProgramEnds(udp: int, tcp: int, fmt: FloatFormat, turns: seq<SS.Turn>, s: ServerUtils.Server)
    requires Ended(udp, tcp, turns, s.Value())
    requires s.net.Valid() && ServerUtils.FramesOk(s.net.frames, s.sent, s.log, s.fmt) && s.fmt == fmt
    ensures TableOk(s.clients.table) && s.log == Published(s.hist, |s.hist|) == LogOf(turns, |turns|)
    ensures SS.NeverRegistersHeldNumber(SS.Init(udp, tcp), turns, |turns|) ==>
      forall id :: TextsDetermined(s.hist, s.Brokerage(), s.net.frames, fmt, id)
    ensures SS.NeverTakesHeldNumber(SS.Init(udp, tcp), turns, |turns|) ==>
      forall id :: ScreensTrue(s.hist, s.net.out, fmt, id) && LinesTrue(s.hist, s.Brokerage(), s.net.inn, id)
    ensures Sized(Datagrams(turns, |turns|)) ==>
      forall p :: 0 <= p < |s.log| && s.log[p].kind == STRING ==>
        p < |Sources(SS.Init(udp, tcp), turns, |turns|)|
        && TextLogged(s.log[p], Sources(SS.Init(udp, tcp), turns, |turns|)[p], Datagrams(turns, |turns|))
  {
    hide SS.Sound, SS.Init, SS.Possible, SS.After, SS.NeverTakesHeldNumber, SS.NeverRegistersHeldNumber, Datagrams;
    hide Sources;
    hide ServerUtils.FramesOk, OutOk, InOk, Traced, TextsDetermined, ScreensTrue, LinesTrue, TextLogged, Heard, Sized;
    var v := s.Value();
    EndedTable(udp, tcp, turns, v);
    EndedPublications(udp, tcp, turns, v);
    if SS.NeverRegistersHeldNumber(SS.Init(udp, tcp), turns, |turns|) {
      forall id
        ensures TextsDetermined(s.hist, s.Brokerage(), s.net.frames, fmt, id)
      {
        EndedTexts(udp, tcp, turns, v, s.net.frames, fmt, id);
      }
    }
    if SS.NeverTakesHeldNumber(SS.Init(udp, tcp), turns, |turns|) {
      forall id
        ensures ScreensTrue(s.hist, s.net.out, fmt, id) && LinesTrue(s.hist, s.Brokerage(), s.net.inn, id)
      {
        EndedScreens(udp, tcp, turns, v, s.net.frames, s.net.out, fmt, id);
        EndedLines(udp, tcp, turns, v, s.net.inn, id);
      }
    }
    if Sized(Datagrams(turns, |turns|)) {
      forall p | 0 <= p < |s.log| && s.log[p].kind == STRING
        ensures p < |Sources(SS.Init(udp, tcp), turns, |turns|)|
        ensures TextLogged(s.log[p], Sources(SS.Init(udp, tcp), turns, |turns|)[p], Datagrams(turns, |turns|))
      {
        EndedLog(udp, tcp, turns, v, p);
      }
    }
  }
}
