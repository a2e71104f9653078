/** The client table as a value: an ordered list of client records, its operations, its invariant, and the
    map from ids to subscriptions that it stands for. */
module ClientTable {
  import opened Bytes
  import opened Utils

  type Id = seq<Byte>
  type Topic = seq<Byte>

  datatype Status = Active | Dead

  /** A client record; `queue` holds positions in the server's message log. */
  datatype Client = Client(id: Id, status: Status, fd: int,
                           topics: seq<Topic>, options: seq<bool>, queue: seq<nat>)

  type Table = seq<Client>

  // ---------- First-match scans, from position i on ----------

  function IndexFrom<T(==)>(s: seq<T>, x: T, i: nat): (r: nat)
    requires i <= |s|
    ensures i <= r <= |s|
    ensures forall k :: i <= k < r ==> s[k] != x
    ensures r < |s| ==> s[r] == x
    decreases |s| - i
  {
    if i == |s| || s[i] == x then i else IndexFrom(s, x, i + 1)
  }

  function Ids(t: Table): (r: seq<Id>)
    ensures |r| == |t| && forall k :: 0 <= k < |t| ==> r[k] == t[k].id
  {
    seq(|t|, k requires 0 <= k < |t| => t[k].id)
  }

  function Fds(t: Table): (r: seq<int>)
    ensures |r| == |t| && forall k :: 0 <= k < |t| ==> r[k] == t[k].fd
  {
    seq(|t|, k requires 0 <= k < |t| => t[k].fd)
  }

  function IndexOf<T(==)>(s: seq<T>, x: T): (r: nat)
    ensures r <= |s|
    ensures forall k :: 0 <= k < r ==> s[k] != x
    ensures r < |s| ==> s[r] == x
  {
    IndexFrom(s, x, 0)
  }

  function FindId(t: Table, id: Id): (r: nat)
    ensures r <= |t|
    ensures forall k :: 0 <= k < r ==> t[k].id != id
    ensures r < |t| ==> t[r].id == id
  {
    IndexOf(Ids(t), id)
  }

  function FindFd(t: Table, fd: int): (r: nat)
    ensures r <= |t|
    ensures forall k :: 0 <= k < r ==> t[k].fd != fd
    ensures r < |t| ==> t[r].fd == fd
  {
    IndexOf(Fds(t), fd)
  }

  // ---------- Operations ----------

  function NewClient(id: Id, fd: int): Client {
    Client(id, Active, fd, [], [], [])
  }

  function Register(t: Table, id: Id, fd: int): (Err, Table) {
    var i := FindId(t, id);
    if i == |t| then (OK, t + [NewClient(id, fd)])
    else if t[i].status.Active? then (CLIENT_VEC_CLIENT_ALREADY_CONNECTED, t)
    else (OK, t[i := t[i].(fd := fd, status := Active)])
  }

  function Close(t: Table, fd: int): (Err, Table) {
    var i := FindFd(t, fd);
    if fd < 0 then (CLIENTS_VEC_INPUT_FD_IDX_INVALID, t)
    else if i == |t| then (CLIENTS_VEC_CLOSE_CLIENT_NOT_FOUND, t)
    else if t[i].status.Dead? then (CLIENTS_VEC_CLIENT_ALREADY_DEAD, t)
    else (OK, t[i := t[i].(status := Dead, fd := -1)])
  }

  predicate Aligned(c: Client) {
    |c.topics| == |c.options|
  }

  function AddTopic(c: Client, topic: Topic, sf: bool): (r: Client)
    requires Aligned(c)
    ensures Aligned(r)
  {
    var j := IndexOf(c.topics, topic);
    if j < |c.topics| then c.(options := c.options[j := sf])
    else c.(topics := c.topics + [topic], options := c.options + [sf])
  }

  function RemoveAt<T>(s: seq<T>, j: nat): (r: seq<T>)
    requires j < |s|
    ensures |r| == |s| - 1
    ensures forall k :: 0 <= k < j ==> r[k] == s[k]
    ensures forall k :: j <= k < |r| ==> r[k] == s[k + 1]
  {
    s[..j] + s[j + 1..]
  }

  function DropTopic(c: Client, topic: Topic): (r: Client)
    requires Aligned(c)
    ensures Aligned(r)
  {
    var j := IndexOf(c.topics, topic);
    if j == |c.topics| then c
    else c.(topics := RemoveAt(c.topics, j), options := RemoveAt(c.options, j))
  }

  predicate AllAligned(t: Table) {
    forall i :: 0 <= i < |t| ==> Aligned(t[i])
  }

  function Subscribe(t: Table, fd: int, topic: Topic, sf: bool): (Err, Table)
    requires AllAligned(t)
  {
    var i := FindFd(t, fd);
    if fd < 0 then (CLIENTS_VEC_INPUT_FD_IDX_INVALID, t)
    else if i == |t| then (CLIENTS_VEC_CLIENT_NOT_FOUND, t)
    else (OK, t[i := AddTopic(t[i], topic, sf)])
  }

  function Unsubscribe(t: Table, fd: int, topic: Topic): (Err, Table)
    requires AllAligned(t)
  {
    var i := FindFd(t, fd);
    if fd < 0 then (CLIENTS_VEC_INPUT_FD_IDX_INVALID, t)
    else if i == |t| then (CLIENTS_VEC_CLIENT_NOT_FOUND, t)
    else if IndexOf(t[i].topics, topic) == |t[i].topics| then (CLIENTS_VEC_COUND_NOT_FIND_TOPIC, t)
    else (OK, t[i := DropTopic(t[i], topic)])
  }

  // ---------- Invariants ----------

  predicate Distinct<T(==)>(s: seq<T>) {
    forall i, j :: 0 <= i < j < |s| ==> s[i] != s[j]
  }

  /** What holds of every record: aligned arrays, no topic twice, and -1 as the mark of a dead client. */
  predicate ClientOk(c: Client) {
    && Aligned(c)
    && Distinct(c.topics)
    && (c.status.Dead? <==> c.fd == -1)
    && (c.status.Active? ==> c.fd > 0)
  }

  /** What holds of every table, whichever descriptors the system hands out. */
  predicate TableOk(t: Table) {
    && (forall i, j :: 0 <= i < j < |t| ==> t[i].id != t[j].id)
    && forall i :: 0 <= i < |t| ==> ClientOk(t[i])
  }

  /** Besides, no descriptor serves two clients. */
  predicate FdsDistinct(t: Table) {
    forall i, j :: 0 <= i < j < |t| && t[i].status.Active? && t[j].status.Active? ==> t[i].fd != t[j].fd
  }

  predicate Inv(t: Table) {
    TableOk(t) && FdsDistinct(t)
  }

  /** Some client is connected through the descriptor; only connected clients hold one. */
  predicate HasFd(t: Table, fd: int) {
    fd >= 0 && FindFd(t, fd) < |t|
  }

  lemma HasFdMeaning(t: Table, fd: int)
    requires TableOk(t)
    ensures HasFd(t, fd) <==> exists i :: 0 <= i < |t| && t[i].status.Active? && t[i].fd == fd
  {
    if HasFd(t, fd) {
      assert t[FindFd(t, fd)].status.Active?;
    }
  }

  lemma AddTopicOk(c: Client, topic: Topic, sf: bool)
    requires ClientOk(c)
    ensures ClientOk(AddTopic(c, topic, sf))
  {
  }

  lemma DropTopicOk(c: Client, topic: Topic)
    requires ClientOk(c)
    ensures ClientOk(DropTopic(c, topic))
  {
  }

  lemma RegisterKeeps(t: Table, id: Id, fd: int)
    requires TableOk(t) && fd > 0
    ensures TableOk(Register(t, id, fd).1)
    ensures FdsDistinct(t) && !HasFd(t, fd) ==> FdsDistinct(Register(t, id, fd).1)
  {
  }

  /** The id is in use: some client is connected under it. */
  predicate IdConnected(t: Table, id: Id) {
    exists i :: 0 <= i < |t| && t[i].id == id && t[i].status.Active?
  }

  lemma RegisterAcceptsIff(t: Table, id: Id, fd: int)
    requires TableOk(t)
    ensures Register(t, id, fd).0 == OK <==> !IdConnected(t, id)
  {
    var i := FindId(t, id);
    if i < |t| {
      assert forall k :: 0 <= k < |t| && t[k].id == id ==> k == i;
    }
  }

  lemma CloseKeeps(t: Table, fd: int)
    requires TableOk(t)
    ensures TableOk(Close(t, fd).1)
    ensures FdsDistinct(t) ==> FdsDistinct(Close(t, fd).1)
  {
  }

  lemma SubscribeKeeps(t: Table, fd: int, topic: Topic, sf: bool)
    requires TableOk(t)
    ensures TableOk(Subscribe(t, fd, topic, sf).1)
    ensures FdsDistinct(t) ==> FdsDistinct(Subscribe(t, fd, topic, sf).1)
  {
    var i := FindFd(t, fd);
    if i < |t| { AddTopicOk(t[i], topic, sf); }
  }

  lemma UnsubscribeKeeps(t: Table, fd: int, topic: Topic)
    requires TableOk(t)
    ensures TableOk(Unsubscribe(t, fd, topic).1)
    ensures FdsDistinct(t) ==> FdsDistinct(Unsubscribe(t, fd, topic).1)
  {
    var i := FindFd(t, fd);
    if i < |t| { DropTopicOk(t[i], topic); }
  }

  // ---------- The map the table stands for ----------

  /** A client as the protocol sees it: its connection if any, its topics with their options, its queue. */
  datatype View = View(conn: Option<int>, subs: map<Topic, bool>, queue: seq<nat>)

  /** The first n topics with their options; with distinct topics the order does not matter. */
  function SubsUpTo(topics: seq<Topic>, options: seq<bool>, n: nat): map<Topic, bool>
    requires n <= |topics| == |options|
  {
    if n == 0 then map[] else SubsUpTo(topics, options, n - 1)[topics[n - 1] := options[n - 1]]
  }

  function Subs(c: Client): map<Topic, bool>
    requires Aligned(c)
  {
    SubsUpTo(c.topics, c.options, |c.topics|)
  }

  function ViewOf(c: Client): View
    requires Aligned(c)
  {
    View(if c.status.Active? then Some(c.fd) else None, Subs(c), c.queue)
  }

  function AbsUpTo(t: Table, n: nat): map<Id, View>
    requires AllAligned(t) && n <= |t|
  {
    if n == 0 then map[] else AbsUpTo(t, n - 1)[t[n - 1].id := ViewOf(t[n - 1])]
  }

  function Abs(t: Table): map<Id, View>
    requires AllAligned(t)
  {
    AbsUpTo(t, |t|)
  }

  lemma {:induction false} AbsUpToAt(t: Table, n: nat, x: Id)
    requires TableOk(t) && n <= |t|
    ensures x in AbsUpTo(t, n) <==> FindId(t, x) < n
    ensures x in AbsUpTo(t, n) ==> AbsUpTo(t, n)[x] == ViewOf(t[FindId(t, x)])
  {
    if n > 0 {
      AbsUpToAt(t, n - 1, x);
      if x == t[n - 1].id { assert FindId(t, x) == n - 1; }
    }
  }

  lemma AbsAt(t: Table, i: nat)
    requires TableOk(t) && i < |t|
    ensures FindId(t, t[i].id) == i
    ensures t[i].id in Abs(t) && Abs(t)[t[i].id] == ViewOf(t[i])
  {
    AbsUpToAt(t, |t|, t[i].id);
  }

  lemma AbsMiss(t: Table, id: Id)
    requires TableOk(t)
    ensures id in Abs(t) <==> FindId(t, id) < |t|
  {
    AbsUpToAt(t, |t|, id);
  }

  /** Registration on the map: refused while the id is connected, else it connects and keeps the rest. */
  function MapRegister(m: map<Id, View>, id: Id, fd: int): (Err, map<Id, View>) {
    if id in m && m[id].conn.Some? then (CLIENT_VEC_CLIENT_ALREADY_CONNECTED, m)
    else (OK, m[id := if id in m then m[id].(conn := Some(fd)) else View(Some(fd), map[], [])])
  }

  /** The other operations change the views connected through a descriptor and leave the rest alone. */
  function MapOwner(m: map<Id, View>, fd: int, f: View -> View): map<Id, View> {
    map x | x in m :: if m[x].conn == Some(fd) then f(m[x]) else m[x]
  }

  function MapClose(m: map<Id, View>, fd: int): map<Id, View> {
    MapOwner(m, fd, (v: View) => v.(conn := None))
  }

  function MapSubscribe(m: map<Id, View>, fd: int, topic: Topic, sf: bool): map<Id, View> {
    MapOwner(m, fd, (v: View) => v.(subs := v.subs[topic := sf]))
  }

  function MapUnsubscribe(m: map<Id, View>, fd: int, topic: Topic): map<Id, View> {
    MapOwner(m, fd, (v: View) => v.(subs := v.subs - {topic}))
  }

  lemma MapOwnerAt(m: map<Id, View>, fd: int, f: View -> View, id: Id)
    requires id in m
    requires forall x :: x in m ==> (m[x].conn == Some(fd) <==> x == id)
    ensures MapOwner(m, fd, f) == m[id := f(m[id])]
  {
  }

  lemma MapOwnerNone(m: map<Id, View>, fd: int, f: View -> View)
    requires forall x :: x in m ==> m[x].conn != Some(fd)
    ensures MapOwner(m, fd, f) == m
  {
  }

  lemma {:induction false} SubsUpToAt(c: Client, n: nat, x: Topic)
    requires ClientOk(c) && n <= |c.topics|
    ensures x in SubsUpTo(c.topics, c.options, n) <==> IndexOf(c.topics, x) < n
    ensures x in SubsUpTo(c.topics, c.options, n) ==>
      SubsUpTo(c.topics, c.options, n)[x] == c.options[IndexOf(c.topics, x)]
  {
    if n > 0 {
      SubsUpToAt(c, n - 1, x);
      if x == c.topics[n - 1] { assert IndexOf(c.topics, x) == n - 1; }
    }
  }

  lemma TopicAt(c: Client, j: nat)
    requires ClientOk(c) && j < |c.topics|
    ensures c.topics[j] in Subs(c) && Subs(c)[c.topics[j]] == c.options[j]
  {
    assert IndexOf(c.topics, c.topics[j]) == j;
    SubsUpToAt(c, |c.topics|, c.topics[j]);
  }

  lemma TopicMiss(c: Client, topic: Topic)
    requires ClientOk(c)
    ensures topic in Subs(c) <==> IndexOf(c.topics, topic) < |c.topics|
  {
    SubsUpToAt(c, |c.topics|, topic);
  }

  lemma AddTopicRefines(c: Client, topic: Topic, sf: bool)
    requires ClientOk(c)
    ensures Subs(AddTopic(c, topic, sf)) == Subs(c)[topic := sf]
  {
    var r := AddTopic(c, topic, sf);
    AddTopicOk(c, topic, sf);
    forall x
      ensures x in Subs(r) <==> x in Subs(c) || x == topic
      ensures x in Subs(r) ==> Subs(r)[x] == if x == topic then sf else Subs(c)[x]
    {
      AddTopicAt(c, topic, sf, x);
    }
  }

  lemma AddTopicAt(c: Client, topic: Topic, sf: bool, x: Topic)
    requires ClientOk(c)
    ensures var r := AddTopic(c, topic, sf);
      && (x in Subs(r) <==> x in Subs(c) || x == topic)
      && (x in Subs(r) ==> Subs(r)[x] == if x == topic then sf else Subs(c)[x])
  {
    var r := AddTopic(c, topic, sf);
    TopicMiss(c, x);
    AddTopicOk(c, topic, sf);
    TopicMiss(r, x);
    var j := IndexOf(r.topics, x);
    if j < |r.topics| {
      TopicAt(r, j);
      if j < |c.topics| { TopicAt(c, j); }
    }
    var k := IndexOf(c.topics, x);
    if k < |c.topics| { TopicAt(c, k); TopicAt(r, k); }
    if x == topic && k == |c.topics| { TopicAt(r, |c.topics|); }
  }

  lemma DropTopicRefines(c: Client, topic: Topic)
    requires ClientOk(c)
    ensures Subs(DropTopic(c, topic)) == Subs(c) - {topic}
  {
    var r := DropTopic(c, topic);
    forall x
      ensures x in Subs(r) <==> x in Subs(c) && x != topic
      ensures x in Subs(r) ==> Subs(r)[x] == Subs(c)[x]
    {
      DropTopicAt(c, topic, x);
    }
  }

  lemma DropTopicAt(c: Client, topic: Topic, x: Topic)
    requires ClientOk(c)
    ensures var r := DropTopic(c, topic);
      && (x in Subs(r) <==> x in Subs(c) && x != topic)
      && (x in Subs(r) ==> Subs(r)[x] == Subs(c)[x])
  {
    var r := DropTopic(c, topic);
    TopicMiss(c, x);
    TopicMiss(c, topic);
    DropTopicOk(c, topic);
    TopicMiss(r, x);
    var k := IndexOf(c.topics, topic);
    var j := IndexOf(r.topics, x);
    if j < |r.topics| {
      TopicAt(r, j);
      TopicAt(c, if j < k then j else j + 1);
    }
    var i := IndexOf(c.topics, x);
    if i < |c.topics| && k < |c.topics| && x != topic {
      TopicAt(r, if i < k then i else i - 1);
    }
  }

  /** Tables that differ in one record, and not in its id, differ as maps in that one entry. */
  lemma AbsUpdate(t: Table, i: nat, c: Client)
    requires TableOk(t) && i < |t| && ClientOk(c) && c.id == t[i].id
    ensures TableOk(t[i := c])
    ensures Abs(t[i := c]) == Abs(t)[c.id := ViewOf(c)]
  {
    var r := t[i := c];
    forall x
      ensures x in Abs(r) <==> x in Abs(t)
      ensures x in Abs(r) ==> Abs(r)[x] == if x == c.id then ViewOf(c) else Abs(t)[x]
    {
      AbsMiss(t, x);
      AbsMiss(r, x);
      var k := FindId(r, x);
      if k < |r| {
        AbsAt(r, k);
        AbsAt(t, k);
      }
      var k' := FindId(t, x);
      assert k' < |t| ==> r[k'].id == x;
    }
    AbsAt(t, i);
  }

  lemma AbsAppend(t: Table, c: Client)
    requires TableOk(t) && ClientOk(c) && FindId(t, c.id) == |t|
    ensures TableOk(t + [c])
    ensures Abs(t + [c]) == Abs(t)[c.id := ViewOf(c)]
  {
    var r := t + [c];
    AbsAt(r, |t|);
    forall x
      ensures x in Abs(r) <==> x in Abs(t) || x == c.id
      ensures x in Abs(r) ==> Abs(r)[x] == if x == c.id then ViewOf(c) else Abs(t)[x]
    {
      AbsMiss(t, x);
      AbsMiss(r, x);
      var k := FindId(r, x);
      if k < |t| {
        AbsAt(r, k);
        AbsAt(t, k);
      }
      var k' := FindId(t, x);
      assert k' < |t| ==> r[k'].id == x;
    }
  }

  lemma RegisterRefines(t: Table, id: Id, fd: int)
    requires TableOk(t) && fd > 0
    ensures Register(t, id, fd).0 == MapRegister(Abs(t), id, fd).0
    ensures TableOk(Register(t, id, fd).1)
    ensures Abs(Register(t, id, fd).1) == MapRegister(Abs(t), id, fd).1
  {
    var i := FindId(t, id);
    AbsMiss(t, id);
    if i < |t| {
      AbsAt(t, i);
      if t[i].status.Dead? {
        var c := t[i].(fd := fd, status := Active);
        AbsUpdate(t, i, c);
      }
    } else {
      var c := NewClient(id, fd);
      AbsAppend(t, c);
    }
  }

  /** Where a record holding a descriptor is found, it is the only one connected through it. */
  lemma OwnerOfFd(t: Table, fd: int)
    requires Inv(t) && fd >= 0
    ensures var i := FindFd(t, fd);
      && (i < |t| ==> t[i].status.Active? && t[i].id in Abs(t) && Abs(t)[t[i].id] == ViewOf(t[i]))
      && forall x :: x in Abs(t) ==> (Abs(t)[x].conn == Some(fd) <==> i < |t| && x == t[i].id)
  {
    var i := FindFd(t, fd);
    if i < |t| { AbsAt(t, i); }
    forall x | x in Abs(t)
      ensures Abs(t)[x].conn == Some(fd) <==> i < |t| && x == t[i].id
    {
      AbsMiss(t, x);
      AbsAt(t, FindId(t, x));
    }
  }

  lemma NoNegativeFd(t: Table, fd: int)
    requires TableOk(t) && fd < 0
    ensures forall x :: x in Abs(t) ==> Abs(t)[x].conn != Some(fd)
  {
    forall x | x in Abs(t)
      ensures Abs(t)[x].conn != Some(fd)
    {
      AbsMiss(t, x);
      AbsAt(t, FindId(t, x));
    }
  }

  /** Replacing the record that holds a descriptor changes, on the map, the view connected through it. */
  lemma OwnerRefines(t: Table, fd: int, f: View -> View, c: Client)
    requires Inv(t)
    requires fd >= 0 && FindFd(t, fd) < |t| ==>
      ClientOk(c) && c.id == t[FindFd(t, fd)].id && ViewOf(c) == f(ViewOf(t[FindFd(t, fd)]))
    ensures var i := FindFd(t, fd);
      var r := if fd >= 0 && i < |t| then t[i := c] else t;
      TableOk(r) && Abs(r) == MapOwner(Abs(t), fd, f)
  {
    var i := FindFd(t, fd);
    if fd < 0 {
      NoNegativeFd(t, fd);
      MapOwnerNone(Abs(t), fd, f);
    } else {
      OwnerOfFd(t, fd);
      if i < |t| {
        AbsUpdate(t, i, c);
        MapOwnerAt(Abs(t), fd, f, c.id);
      } else {
        MapOwnerNone(Abs(t), fd, f);
      }
    }
  }

  ghost predicate Connected(m: map<Id, View>, fd: int) {
    exists x :: x in m && m[x].conn == Some(fd)
  }

  lemma ConnectedIff(t: Table, fd: int)
    requires Inv(t)
    ensures Connected(Abs(t), fd) <==> fd >= 0 && FindFd(t, fd) < |t|
  {
    if fd < 0 { NoNegativeFd(t, fd); } else { OwnerOfFd(t, fd); }
  }

  lemma CloseRefines(t: Table, fd: int)
    requires Inv(t)
    ensures Close(t, fd).0 == OK <==> Connected(Abs(t), fd)
    ensures TableOk(Close(t, fd).1)
    ensures Abs(Close(t, fd).1) == MapClose(Abs(t), fd)
  {
    ConnectedIff(t, fd);
    var i := FindFd(t, fd);
    var c := if i < |t| then t[i].(status := Dead, fd := -1) else NewClient([], 1);
    if fd >= 0 && i < |t| {
      OwnerOfFd(t, fd);
    }
    OwnerRefines(t, fd, (v: View) => v.(conn := None), c);
  }

  lemma SubscribeRefines(t: Table, fd: int, topic: Topic, sf: bool)
    requires Inv(t)
    ensures Subscribe(t, fd, topic, sf).0 == OK <==> Connected(Abs(t), fd)
    ensures TableOk(Subscribe(t, fd, topic, sf).1)
    ensures Abs(Subscribe(t, fd, topic, sf).1) == MapSubscribe(Abs(t), fd, topic, sf)
  {
    ConnectedIff(t, fd);
    var i := FindFd(t, fd);
    var c := if i < |t| then AddTopic(t[i], topic, sf) else NewClient([], 1);
    if i < |t| {
      AddTopicRefines(t[i], topic, sf);
      AddTopicOk(t[i], topic, sf);
    }
    OwnerRefines(t, fd, (v: View) => v.(subs := v.subs[topic := sf]), c);
  }

  lemma UnsubscribeRefines(t: Table, fd: int, topic: Topic)
    requires Inv(t)
    ensures Unsubscribe(t, fd, topic).0 == OK <==>
      exists x :: x in Abs(t) && Abs(t)[x].conn == Some(fd) && topic in Abs(t)[x].subs
    ensures TableOk(Unsubscribe(t, fd, topic).1)
    ensures Abs(Unsubscribe(t, fd, topic).1) == MapUnsubscribe(Abs(t), fd, topic)
  {
    ConnectedIff(t, fd);
    var i := FindFd(t, fd);
    var c := if i < |t| then DropTopic(t[i], topic) else NewClient([], 1);
    if i < |t| {
      DropTopicRefines(t[i], topic);
      DropTopicOk(t[i], topic);
      TopicMiss(t[i], topic);
      assert c == t[i] ==> t[i := c] == t;
    }
    if fd >= 0 { OwnerOfFd(t, fd); }
    OwnerRefines(t, fd, (v: View) => v.(subs := v.subs - {topic}), c);
  }
}
