/** The clients vector: records with their own growing arrays, found by scans, kept in an array that doubles.
    Each object carries the value it stands for; the operations are those of the client table. */
module ClientVectors {
  import opened Bytes
  import opened Utils
  import opened ClientTable
  import PollVectors

  const INIT_TOPICS_CAPACITY := 10
  const INIT_CLIENTS := 10

  /** The first n elements of an array, in a new array of twice the size. */
  method Grow<T(0)>(a: array<T>, n: nat, fill: T) returns (grown: array<T>)
    requires n == a.Length >= 1
    ensures fresh(grown) && grown.Length == n * REALLOC_FACTOR
    ensures grown[..n] == a[..n]
  {
    grown := new T[n * REALLOC_FACTOR](_ => fill);
    forall k | 0 <= k < n {
      grown[k] := a[k];
    }
  }

  class ClientEntry {
    var id: Id
    var status: Status
    var fd: int
    var topics: array<Topic>
    var options: array<bool>
    var topicsLen: nat
    var topicCapacity: nat
    var readyMsgs: array<nat>
    var readyMsgsLen: nat
    var readyMsgsCapacity: nat
    /** The value the record stands for. */
    ghost var record: Client

    ghost predicate Valid()
      reads this, topics, options, readyMsgs
    {
      && topics as object != options && topics as object != readyMsgs && options as object != readyMsgs
      && 1 <= topicCapacity == topics.Length == options.Length && topicsLen <= topicCapacity
      && 1 <= readyMsgsCapacity == readyMsgs.Length && readyMsgsLen <= readyMsgsCapacity
      && record == Client(id, status, fd, topics[..topicsLen], options[..topicsLen], readyMsgs[..readyMsgsLen])
    }

    ghost function Repr(): set<object>
      reads this
    {
      {this, topics, options, readyMsgs}
    }

    constructor (clientId: Id, clientFd: int)
      ensures Valid() && fresh(Repr()) && record == NewClient(clientId, clientFd)
    {
      id, status, fd := clientId, Active, clientFd;
      topics := new Topic[INIT_TOPICS_CAPACITY](_ => []);
      options := new bool[INIT_TOPICS_CAPACITY](_ => false);
      readyMsgs := new nat[INIT_TOPICS_CAPACITY](_ => 0);
      topicsLen, topicCapacity := 0, INIT_TOPICS_CAPACITY;
      readyMsgsLen, readyMsgsCapacity := 0, INIT_TOPICS_CAPACITY;
      record := NewClient(clientId, clientFd);
    }

    method Relink(newFd: int, newStatus: Status)
      requires Valid()
      modifies this`fd, this`status, this`record
      ensures Valid() && record == old(record).(fd := newFd, status := newStatus)
    {
      fd, status := newFd, newStatus;
      record := record.(fd := newFd, status := newStatus);
    }

    method FindTopic(topic: Topic) returns (j: nat)
      requires Valid()
      ensures j == IndexOf(record.topics, topic)
    {
      j := 0;
      while j < topicsLen && topics[j] != topic
        invariant 0 <= j <= topicsLen
        invariant IndexOf(record.topics, topic) == IndexFrom(record.topics, topic, j)
        decreases topicsLen - j
      {
        j := j + 1;
      }
    }

    method GrowTopics()
      requires Valid()
      modifies this
      ensures Valid() && record == old(record) && topicsLen < topicCapacity
      ensures readyMsgs == old(readyMsgs)
      ensures (topics == old(topics) && options == old(options)) || (fresh(topics) && fresh(options))
    {
      if topicsLen == topicCapacity {
        var grownTopics := Grow(topics, topicCapacity, []);
        var grownOptions := Grow(options, topicCapacity, false);
        topics, options := grownTopics, grownOptions;
        topicCapacity := topicCapacity * REALLOC_FACTOR;
      }
    }

    /** Sets the option of a topic already held, else appends the topic, after doubling full arrays. */
    method AddTopic(topic: Topic, sf: bool)
      requires Valid()
      modifies Repr()
      ensures Valid() && fresh(Repr() - old(Repr()))
      ensures record == ClientTable.AddTopic(old(record), topic, sf)
    {
      var j := FindTopic(topic);
      if j < topicsLen {
        options[j] := sf;
        record := record.(options := record.options[j := sf]);
      } else {
        AppendTopic(topic, sf);
      }
    }

    method AppendTopic(topic: Topic, sf: bool)
      requires Valid()
      modifies Repr()
      ensures Valid() && fresh(Repr() - old(Repr()))
      ensures record == old(record).(topics := old(record).topics + [topic], options := old(record).options + [sf])
    {
      GrowTopics();
      topics[topicsLen] := topic;
      options[topicsLen] := sf;
      topicsLen := topicsLen + 1;
      record := record.(topics := record.topics + [topic], options := record.options + [sf]);
    }

    /** Removes a topic and its option, moving the later ones one place down. */
    method DropTopic(topic: Topic) returns (found: bool)
      requires Valid()
      modifies Repr()
      ensures Valid() && Repr() == old(Repr())
      ensures record == ClientTable.DropTopic(old(record), topic)
      ensures found <==> IndexOf(old(record).topics, topic) < |old(record).topics|
    {
      var j := FindTopic(topic);
      if j == topicsLen {
        return false;
      }
      PollVectors.ShiftDown(topics, j, topicsLen);
      PollVectors.ShiftDown(options, j, topicsLen);
      topicsLen := topicsLen - 1;
      record := record.(topics := RemoveAt(record.topics, j), options := RemoveAt(record.options, j));
      return true;
    }

    /** Stacks a log position, after doubling a full array. */
    method Enqueue(pos: nat)
      requires Valid()
      modifies Repr()
      ensures Valid() && fresh(Repr() - old(Repr()))
      ensures record == old(record).(queue := old(record).queue + [pos])
    {
      if readyMsgsLen == readyMsgsCapacity {
        readyMsgs := Grow(readyMsgs, readyMsgsCapacity, 0);
        readyMsgsCapacity := readyMsgsCapacity * REALLOC_FACTOR;
      }
      readyMsgs[readyMsgsLen] := pos;
      readyMsgsLen := readyMsgsLen + 1;
      record := record.(queue := record.queue + [pos]);
    }

    /** Keeps the oldest n stacked positions. */
    method Truncate(n: nat)
      requires Valid() && n <= readyMsgsLen
      modifies this`readyMsgsLen, this`record
      ensures Valid() && record == old(record).(queue := old(record).queue[..n])
    {
      readyMsgsLen := n;
      record := record.(queue := record.queue[..n]);
    }
  }

  class ClientVec {
    var entities: array<ClientEntry?>
    var len: nat
    var capacity: nat
    /** The value the vector stands for. */
    ghost var table: Table
    /** The records in use, the objects each is made of, and all the objects of the vector. */
    ghost var rows: seq<ClientEntry>
    ghost var feet: seq<set<object>>
    ghost var Repr: set<object>

    ghost predicate Valid()
      reads this, Repr
      ensures Valid() ==> this in Repr && entities in Repr
    {
      && this in Repr && entities in Repr
      && len <= capacity == entities.Length && 1 <= capacity
      && len == |table| == |rows| == |feet|
      && (forall i :: 0 <= i < len ==> entities[i] == rows[i])
      && (forall i :: 0 <= i < len ==> rows[i] in feet[i] && feet[i] <= Repr)
      && (forall i :: 0 <= i < len ==> this !in feet[i] && entities !in feet[i])
      && (forall i :: 0 <= i < len ==> rows[i].Repr() == feet[i] && rows[i].Valid() && rows[i].record == table[i])
      && (forall i, j :: 0 <= i < j < len ==> feet[i] !! feet[j])
    }

    constructor (initClients: nat)
      requires initClients >= 1
      ensures Valid() && fresh(Repr) && table == []
    {
      entities := new ClientEntry?[initClients](_ => null);
      len, capacity, table, rows, feet := 0, initClients, [], [], [];
      Repr := {this, entities};
    }

    /** The first record with an id, by a scan from the start. */
    method ScanId(id: Id) returns (i: nat)
      requires Valid()
      ensures i == FindId(table, id)
    {
      i := 0;
      while i < len
        invariant 0 <= i <= len
        invariant FindId(table, id) == IndexFrom(Ids(table), id, i)
      {
        assert entities[i] == rows[i] && rows[i].Valid();
        if entities[i].id == id {
          return;
        }
        i := i + 1;
      }
    }

    /** The first record with a descriptor. */
    method ScanFd(fd: int) returns (i: nat)
      requires Valid()
      ensures i == FindFd(table, fd)
    {
      i := 0;
      while i < len
        invariant 0 <= i <= len
        invariant FindFd(table, fd) == IndexFrom(Fds(table), fd, i)
      {
        assert entities[i] == rows[i] && rows[i].Valid();
        if entities[i].fd == fd {
          return;
        }
        i := i + 1;
      }
    }

    function Count(): (n: nat)
      requires Valid()
      reads this, Repr
      ensures n == |table|
    {
      len
    }

    function StatusAt(i: nat): (r: Status)
      requires Valid() && i < |table|
      reads this, Repr
      ensures r == table[i].status
    {
      assert entities[i] == rows[i];
      entities[i].status
    }

    function FdAt(i: nat): (r: int)
      requires Valid() && i < |table|
      reads this, Repr
      ensures r == table[i].fd
    {
      assert entities[i] == rows[i];
      entities[i].fd
    }

    function TopicsLenAt(i: nat): (r: nat)
      requires Valid() && i < |table|
      reads this, Repr
      ensures r == |table[i].topics|
    {
      assert entities[i] == rows[i];
      entities[i].topicsLen
    }

    function OptionAt(i: nat, j: nat): (r: bool)
      requires Valid() && i < |table| && j < |table[i].options|
      reads this, Repr
      ensures r == table[i].options[j]
    {
      assert entities[i] == rows[i];
      entities[i].options[j]
    }

    function ReadyLenAt(i: nat): (r: nat)
      requires Valid() && i < |table|
      reads this, Repr
      ensures r == |table[i].queue|
    {
      assert entities[i] == rows[i];
      entities[i].readyMsgsLen
    }

    function ReadyAt(i: nat, k: nat): (r: nat)
      requires Valid() && i < |table| && k < |table[i].queue|
      reads this, Repr
      ensures r == table[i].queue[k]
    {
      assert entities[i] == rows[i];
      entities[i].readyMsgs[k]
    }

    /** The scan of a record's topics for the first match. */
    method FindTopic(i: nat, topic: Topic) returns (j: nat)
      requires Valid() && i < |table|
      ensures j == IndexOf(table[i].topics, topic)
    {
      j := entities[i].FindTopic(topic);
    }

    method Relink(i: nat, newFd: int, newStatus: Status)
      requires Valid() && i < |table|
      modifies Repr
      ensures Valid() && Repr == old(Repr)
      ensures table == old(table)[i := old(table)[i].(fd := newFd, status := newStatus)]
    {
      entities[i].Relink(newFd, newStatus);
      table := table[i := rows[i].record];
    }

    method AddTopic(i: nat, topic: Topic, sf: bool)
      requires Valid() && i < |table|
      modifies Repr
      ensures Valid() && fresh(Repr - old(Repr))
      ensures table == old(table)[i := ClientTable.AddTopic(old(table)[i], topic, sf)]
    {
      hide ClientTable.AddTopic, ClientEntry.Valid;
      entities[i].AddTopic(topic, sf);
      table := table[i := rows[i].record];
      feet := feet[i := rows[i].Repr()];
      Repr := Repr + rows[i].Repr();
    }

    method DropTopic(i: nat, topic: Topic) returns (found: bool)
      requires Valid() && i < |table|
      modifies Repr
      ensures Valid() && Repr == old(Repr)
      ensures table == old(table)[i := ClientTable.DropTopic(old(table)[i], topic)]
      ensures found <==> IndexOf(old(table)[i].topics, topic) < |old(table)[i].topics|
    {
      hide ClientTable.DropTopic, IndexOf, ClientEntry.Valid;
      found := entities[i].DropTopic(topic);
      table := table[i := rows[i].record];
    }

    method Enqueue(i: nat, pos: nat)
      requires Valid() && i < |table|
      modifies Repr
      ensures Valid() && fresh(Repr - old(Repr))
      ensures table == old(table)[i := old(table)[i].(queue := old(table)[i].queue + [pos])]
    {
      hide ClientEntry.Valid;
      entities[i].Enqueue(pos);
      table := table[i := rows[i].record];
      feet := feet[i := rows[i].Repr()];
      Repr := Repr + rows[i].Repr();
    }

    /** Keeps the oldest n positions of a record's queue. */
    method Truncate(i: nat, n: nat)
      requires Valid() && i < |table| && n <= |table[i].queue|
      modifies Repr
      ensures Valid() && Repr == old(Repr)
      ensures table == old(table)[i := old(table)[i].(queue := old(table)[i].queue[..n])]
    {
      entities[i].Truncate(n);
      table := table[i := rows[i].record];
    }

    method GrowEntities()
      requires Valid()
      modifies this
      ensures Valid() && fresh(Repr - old(Repr)) && table == old(table) && len < capacity
    {
      hide ClientEntry.Valid;
      if len == capacity {
        ghost var before := entities;
        entities := Grow(entities, capacity, null);
        capacity := capacity * REALLOC_FACTOR;
        Repr := Repr + {entities};
        assert forall k :: 0 <= k < len ==> entities[k] == entities[..len][k] == before[..len][k] == rows[k];
      }
    }

    method Attach(entry: ClientEntry)
      requires Valid() && entry.Valid() && entry.Repr() !! Repr && len < capacity
      modifies this, entities
      ensures Valid() && Repr == old(Repr) + entry.Repr()
      ensures table == old(table) + [entry.record]
    {
      hide ClientEntry.Valid;
      entities[len] := entry;
      len := len + 1;
      table, rows, feet := table + [entry.record], rows + [entry], feet + [entry.Repr()];
      Repr := Repr + entry.Repr();
    }

    /** Appends a record for a new client, after doubling a full array. */
    method Append(id: Id, fd: int)
      requires Valid()
      modifies Repr
      ensures Valid() && fresh(Repr - old(Repr))
      ensures table == old(table) + [NewClient(id, fd)]
    {
      hide ClientEntry.Valid;
      GrowEntities();
      var entry := new ClientEntry(id, fd);
      Attach(entry);
    }

    method RegisterNewClient(id: Id, fd: int) returns (err: Err)
      requires Valid()
      modifies Repr
      ensures Valid() && fresh(Repr - old(Repr))
      ensures (err, table) == Register(old(table), id, fd)
    {
      var i := ScanId(id);
      if i < len {
        if entities[i].status == Active {
          return CLIENT_VEC_CLIENT_ALREADY_CONNECTED;
        }
        Relink(i, fd, Active);
        return OK;
      }
      Append(id, fd);
      return OK;
    }

    method CloseActiveClient(fd: int) returns (err: Err, clientIdx: nat)
      requires Valid()
      modifies Repr
      ensures Valid() && fresh(Repr - old(Repr))
      ensures (err, table) == Close(old(table), fd)
      ensures err == OK ==> clientIdx == FindFd(old(table), fd)
    {
      clientIdx := 0;
      if fd < 0 {
        return CLIENTS_VEC_INPUT_FD_IDX_INVALID, clientIdx;
      }
      var i := ScanFd(fd);
      if i == len {
        return CLIENTS_VEC_CLOSE_CLIENT_NOT_FOUND, clientIdx;
      }
      if entities[i].status == Dead {
        return CLIENTS_VEC_CLIENT_ALREADY_DEAD, clientIdx;
      }
      Relink(i, -1, Dead);
      return OK, i;
    }

    method GetClientId(clientIdx: nat) returns (id: Id)
      requires Valid()
      ensures id == if clientIdx < |table| then table[clientIdx].id else []
    {
      if clientIdx >= len {
        return [];
      }
      return entities[clientIdx].id;
    }

    method SubscribeClientToTopic(fd: int, topic: Topic, sf: bool) returns (err: Err)
      requires Valid() && AllAligned(table)
      modifies Repr
      ensures Valid() && fresh(Repr - old(Repr))
      ensures (err, table) == Subscribe(old(table), fd, topic, sf)
    {
      if fd < 0 {
        return CLIENTS_VEC_INPUT_FD_IDX_INVALID;
      }
      var i := ScanFd(fd);
      if i == len {
        return CLIENTS_VEC_CLIENT_NOT_FOUND;
      }
      AddTopic(i, topic, sf);
      return OK;
    }

    method UnsubscribeClientFromTopic(fd: int, topic: Topic) returns (err: Err)
      requires Valid() && AllAligned(table)
      modifies Repr
      ensures Valid() && fresh(Repr - old(Repr))
      ensures (err, table) == Unsubscribe(old(table), fd, topic)
    {
      if fd < 0 {
        return CLIENTS_VEC_INPUT_FD_IDX_INVALID;
      }
      var i := ScanFd(fd);
      if i == len {
        return CLIENTS_VEC_CLIENT_NOT_FOUND;
      }
      var found := DropTopic(i, topic);
      assert !found ==> table == old(table);
      return if found then OK else CLIENTS_VEC_COUND_NOT_FIND_TOPIC;
    }

    method AddTopicMsgForClient(pos: nat, clientIdx: nat) returns (err: Err)
      requires Valid()
      modifies Repr
      ensures Valid() && fresh(Repr - old(Repr))
      ensures clientIdx >= |old(table)| ==> err == CLIENTS_VEC_INDEX_OUT_OF_BOUND && table == old(table)
      ensures clientIdx < |old(table)| ==> err == OK && table == old(table)[clientIdx :=
        old(table)[clientIdx].(queue := old(table)[clientIdx].queue + [pos])]
    {
      if clientIdx >= len {
        return CLIENTS_VEC_INDEX_OUT_OF_BOUND;
      }
      Enqueue(clientIdx, pos);
      return OK;
    }
  }
}
