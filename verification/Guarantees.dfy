/** What the broker guarantees to one client over every run: conservation of messages, exactly-once delivery,
    delivery order, and what a failed send costs. */
module Guarantees {
  import opened Bytes
  import opened Utils
  import opened UdpType
  import opened ClientTable
  import opened Broker
  import opened Trace

  function AsStored(w: seq<nat>): seq<Delivery> {
    OldestFirst(w, |w|)
  }

  /** Event k publishes a message to the connected client and the send fails. */
  predicate LiveFails(h: seq<Event>, k: nat, id: Id)
    requires k < |h|
  {
    OwesLive(h, k, id) && id in h[k].failing
  }

  /** Event k reconnects the client and a replay send fails before the queue is empty. */
  predicate ReplayFails(h: seq<Event>, k: nat, id: Id, p: Policy)
    requires k < |h|
  {
    Reconnects(h, k, id) && h[k].accepted < |Waiting(h, k, id, p)|
  }

  predicate NoLiveFailure(h: seq<Event>, n: nat, id: Id)
    requires n <= |h|
  {
    forall k :: 0 <= k < n ==> !LiveFails(h, k, id)
  }

  predicate NoReplayFailure(h: seq<Event>, n: nat, id: Id, p: Policy)
    requires n <= |h|
  {
    forall k :: 0 <= k < n ==> !ReplayFails(h, k, id, p)
  }

  // ---------- Conservation ----------

  /** How often a delivery occurs in a sequence. */
  function Count(s: seq<Delivery>, d: Delivery): nat {
    if s == [] then 0 else Count(s[..|s| - 1], d) + if s[|s| - 1] == d then 1 else 0
  }

  lemma CountAppend(s: seq<Delivery>, x: Delivery, d: Delivery)
    ensures Count(s + [x], d) == Count(s, d) + if x == d then 1 else 0
  {
    assert (s + [x])[..|s|] == s;
  }

  lemma {:induction false} CountConcat(a: seq<Delivery>, b: seq<Delivery>, d: Delivery)
    ensures Count(a + b, d) == Count(a, d) + Count(b, d)
  {
    if b == [] {
      assert a + b == a;
    } else {
      CountConcat(a, b[..|b| - 1], d);
      assert (a + b)[..|a + b| - 1] == a + b[..|b| - 1];
    }
  }

  lemma {:induction false} CountPositive(s: seq<Delivery>, d: Delivery)
    ensures Count(s, d) > 0 <==> d in s
  {
    if s != [] {
      CountPositive(s[..|s| - 1], d);
      assert s == s[..|s| - 1] + [s[|s| - 1]];
    }
  }

  lemma {:induction false} OldestOfPrefix(q: seq<nat>, m: nat, n: nat)
    requires n <= m <= |q|
    ensures OldestFirst(q[..m], n) == OldestFirst(q, n)
  {
    if n > 0 {
      OldestOfPrefix(q, m, n - 1);
    }
  }

  /** A replay splits a queue into the part sent, newest first, and the part not sent. */
  lemma {:induction false} ReplaySplits(q: seq<nat>, n: nat, d: Delivery)
    requires n <= |q|
    ensures Count(NewestFirst(q, n), d) + Count(OldestFirst(q, |q| - n), d) == Count(AsStored(q), d)
  {
    if n > 0 {
      ReplaySplits(q, n - 1, d);
      var x := Delivery(q[|q| - n], true);
      CountAppend(NewestFirst(q, n - 1), x, d);
      CountAppend(OldestFirst(q, |q| - n), x, d);
    }
  }

  lemma ReplayConserves(q: seq<nat>, n: nat, p: Policy, d: Delivery)
    requires n <= |q|
    ensures Count(NewestFirst(q, n), d) + Count(Discarded(q, n, p), d) + Count(AsStored(Remaining(q, n, p)), d)
      == Count(AsStored(q), d)
  {
    ReplaySplits(q, n, d);
    OldestOfPrefix(q, |q| - n, |q| - n);
  }

  lemma QueueAppends(w: seq<nat>, pos: nat, d: Delivery)
    ensures Count(AsStored(w + [pos]), d) == Count(AsStored(w), d) + if Delivery(pos, true) == d then 1 else 0
  {
    var q := w + [pos];
    assert q[..|w|] == w;
    OldestOfPrefix(q, |w|, |w|);
    CountAppend(AsStored(w), Delivery(pos, true), d);
  }

  predicate Conserved(got: seq<Delivery>, missed: seq<Delivery>, queue: seq<nat>, due: seq<Delivery>, d: Delivery) {
    Count(got, d) + Count(missed, d) + Count(AsStored(queue), d) == Count(due, d)
  }

  lemma PublishConserves(got: seq<Delivery>, missed: seq<Delivery>, queue: seq<nat>, due: seq<Delivery>,
                         x: Delivery, d: Delivery)
    requires Conserved(got, missed, queue, due, d)
    ensures Conserved(got + [x], missed, queue, due + [x], d)
    ensures Conserved(got, missed + [x], queue, due + [x], d)
    ensures x.stored ==> Conserved(got, missed, queue + [x.pos], due + [x], d)
  {
    CountAppend(due, x, d);
    CountAppend(got, x, d);
    CountAppend(missed, x, d);
    QueueAppends(queue, x.pos, d);
  }

  lemma ReconnectConserves(got: seq<Delivery>, missed: seq<Delivery>, queue: seq<nat>, due: seq<Delivery>,
                           n: nat, p: Policy, d: Delivery)
    requires n <= |queue| && Conserved(got, missed, queue, due, d)
    ensures Conserved(got + NewestFirst(queue, n), missed + Discarded(queue, n, p), Remaining(queue, n, p), due, d)
  {
    CountConcat(got, NewestFirst(queue, n), d);
    CountConcat(missed, Discarded(queue, n, p), d);
    ReplayConserves(queue, n, p, d);
  }

  /** Every message due to a client is delivered, waiting or missed, and as often as it is due, under either
      policy and whatever sends fail. */
  lemma {:induction false} Conservation(h: seq<Event>, n: nat, id: Id, p: Policy, d: Delivery)
    requires n <= |h|
    ensures Conserved(Expected(h, n, id, p), Missed(h, n, id, p), Waiting(h, n, id, p), Due(h, n, id), d)
  {
    if n > 0 {
      Conservation(h, n - 1, id, p, d);
      var s, m, w := Expected(h, n - 1, id, p), Missed(h, n - 1, id, p), Waiting(h, n - 1, id, p);
      if DueAt(h, n - 1, id).Some? {
        PublishConserves(s, m, w, Due(h, n - 1, id), DueAt(h, n - 1, id).value, d);
      } else if Reconnects(h, n - 1, id) {
        ReconnectConserves(s, m, w, Due(h, n - 1, id), Min(h[n - 1].accepted, |w|), p, d);
      }
    }
  }

  predicate Increasing(s: seq<Delivery>) {
    forall i, j :: 0 <= i < j < |s| ==> s[i].pos < s[j].pos
  }

  /** No message is due twice. */
  lemma {:induction false} DueIncreasing(h: seq<Event>, n: nat, id: Id)
    requires n <= |h|
    ensures Increasing(Due(h, n, id))
    ensures forall i :: 0 <= i < |Due(h, n, id)| ==> Due(h, n, id)[i].pos < |Published(h, n)|
  {
    if n > 0 {
      DueIncreasing(h, n - 1, id);
    }
  }

  lemma {:induction false} IncreasingOnce(s: seq<Delivery>, d: Delivery)
    requires Increasing(s)
    ensures Count(s, d) <= 1
  {
    if s != [] {
      var r := s[..|s| - 1];
      IncreasingOnce(r, d);
      CountPositive(r, d);
      assert d == s[|s| - 1] ==> d !in r;
    }
  }

  /** Nothing is missed exactly when no send to the client fails; keeping the rest never misses a stored one. */
  lemma {:induction false} MissedIff(h: seq<Event>, n: nat, id: Id, p: Policy)
    requires n <= |h|
    ensures Missed(h, n, id, p) == [] <==>
      NoLiveFailure(h, n, id) && (p.DropRest? ==> NoReplayFailure(h, n, id, p))
  {
    if n > 0 {
      MissedIff(h, n - 1, id, p);
      var live, replay := LiveFails(h, n - 1, id), ReplayFails(h, n - 1, id, p);
      assert NoLiveFailure(h, n, id) <==> NoLiveFailure(h, n - 1, id) && !live;
      assert NoReplayFailure(h, n, id, p) <==> NoReplayFailure(h, n - 1, id, p) && !replay;
    }
  }

  /** Each message counted in `got` or in `queue` as often as it is due. */
  ghost predicate Accounts(got: seq<Delivery>, queue: seq<Delivery>, due: seq<Delivery>) {
    forall d :: Count(got, d) + Count(queue, d) == Count(due, d)
  }

  ghost predicate NoneTwice(got: seq<Delivery>, queue: seq<Delivery>, due: seq<Delivery>) {
    forall d :: Count(got, d) + Count(queue, d) <= Count(due, d) <= 1
  }

  lemma TraceExactlyOnce(h: seq<Event>, n: nat, id: Id, p: Policy)
    requires n <= |h|
    ensures var got, queue, due := Expected(h, n, id, p), AsStored(Waiting(h, n, id, p)), Due(h, n, id);
      && NoneTwice(got, queue, due)
      && (Accounts(got, queue, due) <==> Missed(h, n, id, p) == [])
  {
    var missed := Missed(h, n, id, p);
    var got, queue, due := Expected(h, n, id, p), AsStored(Waiting(h, n, id, p)), Due(h, n, id);
    forall d
      ensures Count(got, d) + Count(missed, d) + Count(queue, d) == Count(due, d) <= 1
    {
      Conservation(h, n, id, p, d);
      DueIncreasing(h, n, id);
      IncreasingOnce(due, d);
    }
    if missed != [] {
      CountPositive(missed, missed[0]);
    }
  }

  function QueueOf(l: Life): seq<Delivery> {
    if l.view.Some? then AsStored(l.view.value.queue) else []
  }

  /** Exactly once: over every legal run of the code, what was sent to a client and what is queued for it make
      up exactly what was due, if and only if no send to that client ever failed; and never more than once. */
  lemma ExactlyOnceIff(h: seq<Event>, n: nat, id: Id)
    requires EventsOk(h) && n <= |h| && Legal(h, n, DropRest)
    ensures var l := Project(Run(h, n, DropRest), id);
      && NoneTwice(l.got, QueueOf(l), Due(h, n, id))
      && (Accounts(l.got, QueueOf(l), Due(h, n, id)) <==>
          NoLiveFailure(h, n, id) && NoReplayFailure(h, n, id, DropRest))
  {
    RunIsTrace(h, n, id, DropRest);
    NeverMeansNothing(h, n, id, DropRest);
    TraceExactlyOnce(h, n, id, DropRest);
    MissedIff(h, n, id, DropRest);
  }

  // ---------- Stored messages when a replay is interrupted ----------

  predicate NoneStored(s: seq<Delivery>) {
    forall i :: 0 <= i < |s| ==> !s[i].stored
  }

  predicate IncreasingNats(q: seq<nat>) {
    forall i, j :: 0 <= i < j < |q| ==> q[i] < q[j]
  }

  lemma {:induction false} MissedStoredIff(h: seq<Event>, n: nat, id: Id, p: Policy)
    requires n <= |h|
    ensures NoneStored(Missed(h, n, id, p)) <==> p.KeepRest? || NoReplayFailure(h, n, id, p)
  {
    if n > 0 {
      MissedStoredIff(h, n - 1, id, p);
      var s, w := Missed(h, n - 1, id, p), Waiting(h, n - 1, id, p);
      var replay := ReplayFails(h, n - 1, id, p);
      assert NoReplayFailure(h, n, id, p) <==> NoReplayFailure(h, n - 1, id, p) && !replay;
      assert Missed(h, n, id, p)[..|s|] == s;
      assert forall i :: 0 <= i < |s| ==> Missed(h, n, id, p)[i] == s[i];
      if replay && p.DropRest? {
        var k := |w| - h[n - 1].accepted;
        assert OldestFirst(w, k) == OldestFirst(w, k - 1) + [Delivery(w[k - 1], true)];
        assert Missed(h, n, id, p)[|s| + k - 1].stored;
      }
    }
  }

  /** The queue keeps publication order, under either policy and whatever replays fail. */
  lemma {:induction false} WaitingIncreasing(h: seq<Event>, n: nat, id: Id, p: Policy)
    requires n <= |h|
    ensures IncreasingNats(Waiting(h, n, id, p))
    ensures forall i :: 0 <= i < |Waiting(h, n, id, p)| ==> Waiting(h, n, id, p)[i] < |Published(h, n)|
  {
    if n > 0 {
      WaitingIncreasing(h, n - 1, id, p);
    }
  }

  /** Every stored message counted in `got` or in `queue` as often as it is due. */
  ghost predicate AccountsStored(got: seq<Delivery>, queue: seq<Delivery>, due: seq<Delivery>) {
    forall d: Delivery :: d.stored ==> Count(got, d) + Count(queue, d) == Count(due, d)
  }

  lemma TraceStoredConserved(h: seq<Event>, n: nat, id: Id, p: Policy)
    requires n <= |h|
    ensures AccountsStored(Expected(h, n, id, p), AsStored(Waiting(h, n, id, p)), Due(h, n, id)) <==>
      NoneStored(Missed(h, n, id, p))
  {
    var missed := Missed(h, n, id, p);
    var got, queue, due := Expected(h, n, id, p), AsStored(Waiting(h, n, id, p)), Due(h, n, id);
    forall d: Delivery
      ensures Count(got, d) + Count(missed, d) + Count(queue, d) == Count(due, d)
      ensures Count(missed, d) > 0 <==> d in missed
    {
      Conservation(h, n, id, p, d);
      CountPositive(missed, d);
    }
    if !NoneStored(missed) {
      var i :| 0 <= i < |missed| && missed[i].stored;
      assert missed[i] in missed;
    }
  }

  /** The documented promise about replays: each stored message is sent once or still queued, in order. Keeping
      the rest meets it on every run; the code, which discards the rest, meets it exactly on the runs in which
      no replay send fails. */
  lemma StoredConservedIff(h: seq<Event>, n: nat, id: Id, p: Policy)
    requires EventsOk(h) && n <= |h| && Legal(h, n, p)
    ensures var l := Project(Run(h, n, p), id);
      && (AccountsStored(l.got, QueueOf(l), Due(h, n, id)) <==> p.KeepRest? || NoReplayFailure(h, n, id, p))
      && (l.view.Some? ==> IncreasingNats(l.view.value.queue))
  {
    RunIsTrace(h, n, id, p);
    NeverMeansNothing(h, n, id, p);
    TraceStoredConserved(h, n, id, p);
    MissedStoredIff(h, n, id, p);
    WaitingIncreasing(h, n, id, p);
  }

  // ---------- Order ----------

  /** The messages stored since the client last went away. */
  function Outage(h: seq<Event>, n: nat, id: Id): seq<nat>
    requires n <= |h|
  {
    if n == 0 then []
    else if OwesStored(h, n - 1, id) then Outage(h, n - 1, id) + [DueAt(h, n - 1, id).value.pos]
    else if Reconnects(h, n - 1, id) then []
    else Outage(h, n - 1, id)
  }

  /** Live messages in publication order, and at each reconnection the outage's messages, newest first. */
  function Intended(h: seq<Event>, n: nat, id: Id): seq<Delivery>
    requires n <= |h|
  {
    if n == 0 then []
    else
      var s := Intended(h, n - 1, id);
      if OwesLive(h, n - 1, id) then s + [DueAt(h, n - 1, id).value]
      else if Reconnects(h, n - 1, id) then s + NewestFirst(Outage(h, n - 1, id), |Outage(h, n - 1, id)|)
      else s
  }

  lemma {:induction false} TraceOrder(h: seq<Event>, n: nat, id: Id, p: Policy)
    requires n <= |h| && NoLiveFailure(h, n, id) && NoReplayFailure(h, n, id, p)
    ensures Waiting(h, n, id, p) == Outage(h, n, id)
    ensures Expected(h, n, id, p) == Intended(h, n, id)
  {
    if n > 0 {
      TraceOrder(h, n - 1, id, p);
      var k := n - 1;
      assert !LiveFails(h, k, id) && !ReplayFails(h, k, id, p);
    }
  }

  /** Without failed sends, the deliveries to a client are exactly the intended sequence and its queue holds
      exactly the current outage. */
  lemma DeliveryOrder(h: seq<Event>, n: nat, id: Id, p: Policy)
    requires EventsOk(h) && n <= |h| && Legal(h, n, p)
    requires NoLiveFailure(h, n, id) && NoReplayFailure(h, n, id, p)
    ensures var l := Project(Run(h, n, p), id);
      && l.got == Intended(h, n, id)
      && (l.view.Some? ==> l.view.value.queue == Outage(h, n, id))
  {
    RunIsTrace(h, n, id, p);
    TraceOrder(h, n, id, p);
  }

  predicate InOrder(s: seq<Delivery>) {
    forall i, j :: 0 <= i < j < |s| ==> s[i].pos < s[j].pos || (s[i].stored && s[j].stored)
  }

  predicate AllIn(s: seq<Delivery>, low: nat, high: nat) {
    forall i :: 0 <= i < |s| ==> low <= s[i].pos < high
  }

  predicate AllStored(s: seq<Delivery>) {
    forall i :: 0 <= i < |s| ==> s[i].stored
  }

  lemma {:induction false} NewestIn(q: seq<nat>, n: nat, low: nat, high: nat)
    requires n <= |q| && forall i :: 0 <= i < |q| ==> low <= q[i] < high
    ensures AllIn(NewestFirst(q, n), low, high) && AllStored(NewestFirst(q, n))
  {
    if n > 0 {
      NewestIn(q, n - 1, low, high);
    }
  }

  lemma InOrderConcat(s: seq<Delivery>, t: seq<Delivery>, mid: nat)
    requires InOrder(s) && AllIn(s, 0, mid) && AllStored(t) && (forall i :: 0 <= i < |t| ==> mid <= t[i].pos)
    ensures InOrder(s + t)
  {
  }

  /** Everything delivered was published before everything still waiting. */
  predicate Below(s: seq<Delivery>, w: seq<nat>, published: nat) {
    AllIn(s, 0, if w == [] then published else w[0])
  }

  /** Only stored messages are ever delivered out of publication order, even when sends fail: a live message comes
      after everything published before it, and a replayed one before everything published after it. */
  lemma {:induction false} OnlyReplaysReorder(h: seq<Event>, n: nat, id: Id)
    requires n <= |h|
    ensures InOrder(Expected(h, n, id, DropRest))
    ensures LinkAt(h, n, id).Up? ==> Waiting(h, n, id, DropRest) == []
    ensures Below(Expected(h, n, id, DropRest), Waiting(h, n, id, DropRest), |Published(h, n)|)
  {
    if n > 0 {
      OnlyReplaysReorder(h, n - 1, id);
      if Reconnects(h, n - 1, id) {
        ReconnectInOrder(h, n, id);
      }
    }
  }

  lemma ReconnectInOrder(h: seq<Event>, n: nat, id: Id)
    requires 0 < n <= |h| && Reconnects(h, n - 1, id)
    requires InOrder(Expected(h, n - 1, id, DropRest))
    requires Below(Expected(h, n - 1, id, DropRest), Waiting(h, n - 1, id, DropRest), |Published(h, n - 1)|)
    ensures InOrder(Expected(h, n, id, DropRest))
    ensures Below(Expected(h, n, id, DropRest), [], |Published(h, n)|)
  {
    WaitingIncreasing(h, n - 1, id, DropRest);
    var s, w := Expected(h, n - 1, id, DropRest), Waiting(h, n - 1, id, DropRest);
    var k := Min(h[n - 1].accepted, |w|);
    if w != [] {
      NewestIn(w, k, w[0], |Published(h, n - 1)|);
      InOrderConcat(s, NewestFirst(w, k), w[0]);
    }
  }

  // ---------- The store-and-forward invariant ----------

  /** The positions in a queue are those of logged messages on topics held with SF. */
  predicate HeldWithSf(queue: seq<nat>, log: seq<Udp>, subs: map<Topic, bool>) {
    forall i :: 0 <= i < |queue| ==>
      queue[i] < |log| && TopicOf(log[queue[i]]) in subs && subs[TopicOf(log[queue[i]])]
  }

  lemma {:induction false} TraceStoreAndForward(h: seq<Event>, n: nat, id: Id)
    requires n <= |h|
    ensures !LinkAt(h, n, id).Down? ==> Waiting(h, n, id, DropRest) == []
    ensures HeldWithSf(Waiting(h, n, id, DropRest), Published(h, n), SubsAt(h, n, id))
  {
    if n > 0 {
      TraceStoreAndForward(h, n - 1, id);
      NeverMeansNothing(h, n - 1, id, DropRest);
    }
  }

  /** Over every run of the code, a connected client has an empty queue, and the queue of one that is away holds
      increasing log positions of messages on topics it holds with SF. */
  lemma StoreAndForward(h: seq<Event>, n: nat, id: Id)
    requires EventsOk(h) && n <= |h| && Legal(h, n, DropRest)
    ensures var b := Run(h, n, DropRest); var v := Project(b, id).view;
      v.Some? ==>
        && (v.value.conn.Some? ==> v.value.queue == [])
        && IncreasingNats(v.value.queue)
        && HeldWithSf(v.value.queue, b.log, v.value.subs)
  {
    RunIsTrace(h, n, id, DropRest);
    TraceStoreAndForward(h, n, id);
    WaitingIncreasing(h, n, id, DropRest);
  }

  /** Event k is a request of the client itself. */
  predicate Asks(h: seq<Event>, k: nat, id: Id)
    requires k < |h|
  {
    h[k].Request? && LinkAt(h, k, id) == Up(h[k].fd)
  }

  lemma {:induction false} SubsKept(h: seq<Event>, m: nat, n: nat, id: Id)
    requires m <= n <= |h| && forall k :: m <= k < n ==> !Asks(h, k, id)
    ensures SubsAt(h, n, id) == SubsAt(h, m, id)
    ensures LinkAt(h, n, id).Never? ==> LinkAt(h, m, id).Never?
    decreases n
  {
    if m < n {
      SubsKept(h, m, n - 1, id);
      assert !Asks(h, n - 1, id);
    }
  }

  lemma LifeSubs(h: seq<Event>, n: nat, id: Id, p: Policy)
    requires n <= |h|
    ensures var v := LifeAt(h, n, id, p).view;
      && (v.Some? <==> !LinkAt(h, n, id).Never?)
      && (v.Some? ==> v.value.subs == SubsAt(h, n, id))
  {
  }

  /** Subscriptions survive any disconnections and reconnections: only the client's own requests change them. */
  lemma SubscriptionsSurvive(h: seq<Event>, m: nat, n: nat, id: Id, p: Policy)
    requires EventsOk(h) && m <= n <= |h| && Legal(h, n, p)
    requires forall k :: m <= k < n ==> !Asks(h, k, id)
    ensures var before, after := Project(Run(h, m, p), id).view, Project(Run(h, n, p), id).view;
      before.Some? ==> after.Some? && after.value.subs == before.value.subs
  {
    hide Project, LifeAt, Run, Legal, SubsAt, LinkAt, Asks;
    LegalPrefix(h, m, n, p);
    RunIsTrace(h, m, id, p);
    RunIsTrace(h, n, id, p);
    LifeSubs(h, m, id, p);
    LifeSubs(h, n, id, p);
    SubsKept(h, m, n, id);
  }

  // ---------- A run on which the documented promise fails ----------

  function Interrupted(id: Id, m: Udp): seq<Event> {
    [Connect(id, 5, 0), Request(5, Command.Subscribe(TopicOf(m), true)), Disconnect(5),
     Publish(m, {}), Publish(m, {}), Connect(id, 6, 1)]
  }

  lemma InterruptedTrace(id: Id, m: Udp)
    ensures var h := Interrupted(id, m); Reconnects(h, 5, id) && Waiting(h, 5, id, DropRest) == [0, 1]
  {
    var h := Interrupted(id, m);
    assert LinkAt(h, 1, id) == Up(5);
    assert SubsAt(h, 1, id) == map[] && Waiting(h, 1, id, DropRest) == [] && Published(h, 1) == [];
    assert LinkAt(h, 2, id) == Up(5);
    assert SubsAt(h, 2, id) == map[TopicOf(m) := true] && Waiting(h, 2, id, DropRest) == [] && Published(h, 2) == [];
    assert LinkAt(h, 3, id) == Down;
    assert SubsAt(h, 3, id) == map[TopicOf(m) := true] && Waiting(h, 3, id, DropRest) == [] && Published(h, 3) == [];
    assert LinkAt(h, 4, id) == Down;
    assert SubsAt(h, 4, id) == map[TopicOf(m) := true] && Waiting(h, 4, id, DropRest) == [0] && Published(h, 4) == [m];
    assert LinkAt(h, 5, id) == Down;
  }

  /** The code loses a stored message: two are queued during an outage, the first replay send succeeds, the second
      fails, and the other message is neither sent nor queued any more. */
  lemma ReplayLossExample(id: Id, m: Udp)
    ensures var h := Interrupted(id, m);
      && EventsOk(h) && Legal(h, 6, DropRest)
      && var l := Project(Run(h, 6, DropRest), id);
         !AccountsStored(l.got, QueueOf(l), Due(h, 6, id))
  {
    hide Run, Legal, Project, AccountsStored, Due, Waiting, Reconnects;
    var h := Interrupted(id, m);
    DistinctFdsLegal(h, 6, DropRest);
    InterruptedTrace(id, m);
    assert ReplayFails(h, 5, id, DropRest);
    StoredConservedIff(h, 6, id, DropRest);
  }
}
