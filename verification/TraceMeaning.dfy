/** The trace in terms of single events, without recursion: when a client is connected, what it holds, what it is
    owed; and a run worked out to the end. */
module TraceMeaning {
  import opened Bytes
  import opened Utils
  import opened UdpType
  import opened ClientTable
  import opened Broker
  import opened Trace

  /** Event k connects the client through a descriptor, while it is not connected. */
  predicate ConnectsOn(h: seq<Event>, k: nat, id: Id, fd: int)
    requires k < |h|
  {
    h[k].Connect? && h[k].id == id && h[k].fd == fd && !LinkAt(h, k, id).Up?
  }

  predicate NoHangUp(h: seq<Event>, k: nat, n: nat, fd: int)
    requires n <= |h|
  {
    forall j :: k < j < n ==> h[j] != Disconnect(fd)
  }

  /** A client is connected through a descriptor exactly if some event connected it so and no later one hung up. */
  lemma {:induction false} LinkIff(h: seq<Event>, n: nat, id: Id, fd: int)
    requires n <= |h|
    ensures LinkAt(h, n, id) == Up(fd) <==>
      exists k :: 0 <= k < n && ConnectsOn(h, k, id, fd) && NoHangUp(h, k, n, fd)
  {
    if n > 0 {
      LinkIff(h, n - 1, id, fd);
      if LinkAt(h, n, id) == Up(fd) {
        if LinkAt(h, n - 1, id) == Up(fd) {
          var k :| 0 <= k < n - 1 && ConnectsOn(h, k, id, fd) && NoHangUp(h, k, n - 1, fd);
          assert NoHangUp(h, k, n, fd);
        } else {
          assert ConnectsOn(h, n - 1, id, fd) && NoHangUp(h, n - 1, n, fd);
        }
      }
      if k :| 0 <= k < n && ConnectsOn(h, k, id, fd) && NoHangUp(h, k, n, fd) {
        if k < n - 1 {
          assert NoHangUp(h, k, n - 1, fd);
          assert h[n - 1] != Disconnect(fd);
        }
      }
    }
  }

  /** Event k is a request of the client about a topic. */
  predicate AsksAbout(h: seq<Event>, k: nat, id: Id, topic: Topic)
    requires k < |h|
  {
    && h[k].Request? && LinkAt(h, k, id) == Up(h[k].fd)
    && (h[k].cmd == Command.Unsubscribe(topic) || (h[k].cmd.Subscribe? && h[k].cmd.topic == topic))
  }

  predicate LastAsks(h: seq<Event>, k: nat, n: nat, id: Id, topic: Topic)
    requires k < n <= |h|
  {
    AsksAbout(h, k, id, topic) && forall j :: k < j < n ==> !AsksAbout(h, j, id, topic)
  }

  /** A client holds a topic with an option exactly if its last request about the topic was that subscription. */
  lemma {:induction false} SubsIff(h: seq<Event>, n: nat, id: Id, topic: Topic, sf: bool)
    requires n <= |h|
    ensures (topic in SubsAt(h, n, id) && SubsAt(h, n, id)[topic] == sf) <==>
      exists k :: 0 <= k < n && LastAsks(h, k, n, id, topic) && h[k].cmd == Command.Subscribe(topic, sf)
  {
    hide LinkAt;
    if n > 0 {
      SubsIff(h, n - 1, id, topic, sf);
      if AsksAbout(h, n - 1, id, topic) {
        assert LastAsks(h, n - 1, n, id, topic);
        forall k | 0 <= k < n && LastAsks(h, k, n, id, topic)
          ensures k == n - 1
        {
        }
      } else {
        forall k | 0 <= k < n - 1
          ensures LastAsks(h, k, n, id, topic) <==> LastAsks(h, k, n - 1, id, topic)
        {
        }
      }
    }
  }

  /** Event k owes the client a delivery: a message on a topic it holds, live while it is connected, stored while it is
      away and holds the topic with store-and-forward. */
  predicate DueFor(h: seq<Event>, k: nat, id: Id, d: Delivery)
    requires k < |h|
  {
    && h[k].Publish? && d.pos == |Published(h, k)|
    && var topic, subs := TopicOf(h[k].msg), SubsAt(h, k, id);
       && topic in subs
       && if d.stored then LinkAt(h, k, id).Down? && subs[topic] else LinkAt(h, k, id).Up?
  }

  lemma {:induction false} DueIff(h: seq<Event>, n: nat, id: Id, d: Delivery)
    requires n <= |h|
    ensures d in Due(h, n, id) <==> exists k :: 0 <= k < n && DueFor(h, k, id, d)
  {
    if n > 0 {
      DueIff(h, n - 1, id, d);
      OneDue(h, n - 1, id, d);
    }
  }

  lemma OneDue(h: seq<Event>, k: nat, id: Id, d: Delivery)
    requires k < |h|
    ensures DueAt(h, k, id) == Some(d) <==> DueFor(h, k, id, d)
  {
    hide LinkAt, SubsAt, Published;
  }

  /** A replay sends the newest message first, and then the next older one each time. */
  lemma {:induction false} NewestAt(q: seq<nat>, n: nat, k: nat)
    requires k < n <= |q|
    ensures NewestFirst(q, n)[k] == Delivery(q[|q| - 1 - k], true)
  {
    if k < n - 1 {
      NewestAt(q, n - 1, k);
    }
  }

  // ---------- A run, worked out ----------

  function News(id: Id, m: Udp): seq<Event> {
    [Connect(id, 5, 0), Request(5, Command.Subscribe(TopicOf(m), true)), Publish(m, {}), Disconnect(5),
     Publish(m, {}), Publish(m, {}), Connect(id, 6, 2), Publish(m, {})]
  }

  /** Where a client stands after some events. */
  predicate Stands(h: seq<Event>, n: nat, id: Id, link: Link, subs: map<Topic, bool>, count: nat, waiting: seq<nat>,
                   got: seq<Delivery>)
    requires n <= |h|
  {
    && LinkAt(h, n, id) == link && SubsAt(h, n, id) == subs && |Published(h, n)| == count
    && Waiting(h, n, id, DropRest) == waiting && Expected(h, n, id, DropRest) == got
  }

  lemma NewsLive(id: Id, m: Udp)
    ensures Stands(News(id, m), 4, id, Down, map[TopicOf(m) := true], 1, [], [Delivery(0, false)])
  {
    var h, held := News(id, m), map[TopicOf(m) := true];
    assert Stands(h, 0, id, Never, map[], 0, [], []);
    assert Stands(h, 1, id, Up(5), map[], 0, [], []);
    assert Stands(h, 2, id, Up(5), held, 0, [], []);
    assert Stands(h, 3, id, Up(5), held, 1, [], [Delivery(0, false)]);
  }

  lemma NewsAway(id: Id, m: Udp)
    ensures Stands(News(id, m), 6, id, Down, map[TopicOf(m) := true], 3, [1, 2], [Delivery(0, false)])
  {
    NewsLive(id, m);
    var h, held := News(id, m), map[TopicOf(m) := true];
    assert Stands(h, 5, id, Down, held, 2, [1], [Delivery(0, false)]);
  }

  lemma NewsTrace(id: Id, m: Udp)
    ensures var h := News(id, m);
      Expected(h, 8, id, DropRest) == [Delivery(0, false), Delivery(2, true), Delivery(1, true), Delivery(3, false)]
  {
    NewsAway(id, m);
    var h, held := News(id, m), map[TopicOf(m) := true];
    assert NewestFirst([1, 2], 1) == [Delivery(2, true)];
    assert NewestFirst([1, 2], 2) == [Delivery(2, true), Delivery(1, true)];
    assert Stands(h, 7, id, Up(6), held, 3, [], [Delivery(0, false), Delivery(2, true), Delivery(1, true)]);
  }

  /** A subscriber with store-and-forward gets a live message, misses two while away, gets the newer of them first when
      it comes back, and then the next live one; and the broker does just that. */
  lemma NewsExample(id: Id, m: Udp)
    ensures var h := News(id, m);
      && EventsOk(h) && Legal(h, 8, DropRest)
      && Project(Run(h, 8, DropRest), id).got ==
           [Delivery(0, false), Delivery(2, true), Delivery(1, true), Delivery(3, false)]
  {
    hide Run, Legal, Project, Expected, Missed, Waiting, SubsAt, LinkAt;
    DistinctFdsLegal(News(id, m), 8, DropRest);
    NewsTrace(id, m);
    RunIsTrace(News(id, m), 8, id, DropRest);
    LifeDeliveries(News(id, m), 8, id);
  }

  lemma LifeDeliveries(h: seq<Event>, n: nat, id: Id)
    requires n <= |h|
    ensures LifeAt(h, n, id, DropRest).got == Expected(h, n, id, DropRest)
  {
  }
}
