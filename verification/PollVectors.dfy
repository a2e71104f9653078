/** The vector of polled descriptors: an array that grows by doubling and shifts left on removal. */
module PollVectors {
  import opened Utils
  import opened ClientTable
  import opened TcpType

  datatype PollFd = PollFd(fd: int, ready: bool)

  const INIT_NFDS := 10

  function FdsOf(items: seq<PollFd>): (r: seq<int>)
    ensures |r| == |items| && forall i :: 0 <= i < |r| ==> r[i] == items[i].fd
  {
    seq(|items|, i requires 0 <= i < |items| => items[i].fd)
  }

  function AsSet(q: seq<int>): set<int> {
    set x | x in q
  }

  lemma FreeStarts(live: set<int>)
    ensures live - AsSet([]) == live
  {
  }

  lemma FreeStep(live: set<int>, fds: seq<int>, k: nat)
    requires k < |fds|
    ensures live - AsSet(fds[..k + 1]) == live - AsSet(fds[..k]) - {fds[k]}
    ensures multiset(fds[..k + 1]) == multiset(fds[..k]) + multiset{fds[k]}
  {
    assert fds[..k + 1] == fds[..k] + [fds[k]];
  }

  /** Moves the entries behind `at`, among the first n, one place down. */
  method ShiftDown<T>(a: array<T>, at: nat, n: nat)
    requires at < n <= a.Length
    modifies a
    ensures a[..n - 1] == RemoveAt(old(a[..n]), at)
    ensures forall i :: n <= i < a.Length ==> a[i] == old(a[i])
  {
    var k := at;
    while k < n - 1
      invariant at <= k <= n - 1
      invariant forall i :: 0 <= i < at ==> a[i] == old(a[i])
      invariant forall i :: at <= i < k ==> a[i] == old(a[i + 1])
      invariant forall i :: k <= i < a.Length ==> a[i] == old(a[i])
    {
      a[k] := a[k + 1];
      k := k + 1;
    }
  }

  class PollVec {
    var pfds: array<PollFd>
    var nfds: nat
    var capacity: nat
    /** The listed entries. */
    ghost var items: seq<PollFd>

    ghost predicate Valid()
      reads this, pfds
    {
      && 1 <= capacity == pfds.Length
      && nfds <= capacity
      && items == pfds[..nfds]
    }

    constructor (initNfds: nat)
      requires initNfds >= 1
      ensures Valid() && items == [] && fresh(pfds)
    {
      pfds := new PollFd[initNfds](_ => PollFd(-1, false));
      nfds, capacity, items := 0, initNfds, [];
    }

    /** Appends an entry that is not ready, after doubling a full array. */
    method AddFd(fd: int)
      requires Valid()
      modifies this, pfds
      ensures Valid() && (pfds == old(pfds) || fresh(pfds))
      ensures items == old(items) + [PollFd(fd, false)]
    {
      if nfds == capacity {
        var grown := new PollFd[capacity * REALLOC_FACTOR](_ => PollFd(-1, false));
        forall k | 0 <= k < nfds {
          grown[k] := pfds[k];
        }
        pfds := grown;
        capacity := capacity * REALLOC_FACTOR;
        assert pfds[..nfds] == items;
      }
      pfds[nfds] := PollFd(fd, false);
      nfds := nfds + 1;
      items := items + [PollFd(fd, false)];
    }

    /** Closes the descriptor at an index and moves the entries behind it one place down. */
    method RemoveFd(net: Network, at: nat) returns (err: Err)
      requires Valid()
      requires at < nfds ==> items[at].fd in net.live
      modifies this, pfds, net`live, net`closes
      ensures Valid() && pfds == old(pfds)
      ensures err == (if at < |old(items)| then OK else POLL_VEC_INPUT_FD_IDX_OUT_OF_BOUND)
      ensures err != OK ==> items == old(items)
      ensures err == OK ==> items == RemoveAt(old(items), at)
      ensures err != OK ==> net.live == old(net.live) && net.closes == old(net.closes)
      ensures err == OK ==> net.live == old(net.live) - {old(items)[at].fd}
      ensures err == OK ==> net.closes == old(net.closes) + multiset{old(items)[at].fd}
    {
      if at >= nfds {
        return POLL_VEC_INPUT_FD_IDX_OUT_OF_BOUND;
      }
      net.Close(pfds[at].fd);
      ShiftDown(pfds, at, nfds);
      nfds := nfds - 1;
      items := RemoveAt(items, at);
      return OK;
    }

    /** poll(2): marks the descriptors that the system reports ready. */
    method Poll(ready: set<int>)
      requires Valid()
      modifies this`items, pfds
      ensures Valid() && FdsOf(items) == FdsOf(old(items))
      ensures forall i :: 0 <= i < |items| ==> (items[i].ready <==> items[i].fd in ready)
    {
      var k := 0;
      while k < nfds
        invariant 0 <= k <= nfds && nfds == old(nfds) && |items| == nfds
        invariant items == pfds[..nfds]
        invariant forall i :: 0 <= i < nfds ==> items[i].fd == old(items)[i].fd
        invariant forall i :: 0 <= i < k ==> (items[i].ready <==> items[i].fd in ready)
      {
        pfds[k] := PollFd(pfds[k].fd, pfds[k].fd in ready);
        items := items[k := pfds[k]];
        k := k + 1;
      }
    }

    /** Closes every listed descriptor. */
    method Free(net: Network)
      requires Valid()
      requires forall i :: 0 <= i < |items| ==> items[i].fd in net.live
      requires Distinct(FdsOf(items))
      modifies this, net`live, net`closes
      ensures Valid() && pfds == old(pfds) && items == []
      ensures net.live == old(net.live) - AsSet(FdsOf(old(items)))
      ensures net.closes == old(net.closes) + multiset(FdsOf(old(items)))
    {
      hide AsSet;
      var k := 0;
      ghost var fds := FdsOf(items);
      FreeStarts(net.live);
      while k < nfds
        invariant 0 <= k <= nfds
        invariant forall i :: k <= i < nfds ==> fds[i] in net.live
        invariant net.live == old(net.live) - AsSet(fds[..k])
        invariant net.closes == old(net.closes) + multiset(fds[..k])
        modifies net`live, net`closes
      {
        net.Close(pfds[k].fd);
        FreeStep(old(net.live), fds, k);
        k := k + 1;
      }
      assert fds[..k] == fds;
      nfds := 0;
      items := [];
    }
  }
}
