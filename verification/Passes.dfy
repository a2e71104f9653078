/** The server's main loop on values: rounds of polling, and the pass of turns that each leads to. */
module Passes {
  import opened Bytes
  import opened Utils
  import Commands
  import SS = ServerState

  /** What the outside world does in one round: what poll returns, which descriptors it reports ready, and what has
      been typed at the server. */
  datatype Round = Round(count: int, ready: set<int>, typed: Option<seq<Byte>>)

  /** The turns of one pass over the ready descriptors, its result, and the server after it. */
  datatype Pass = Pass(turns: seq<SS.Turn>, err: Err, end: SS.Snapshot)

  /** The server stops before a pass: poll fails, or the exit command is typed. */
  predicate Stops(r: Round) {
    r.count <= 0 || (SS.STDIN in r.ready && r.typed.Some? && Commands.EXIT <= r.typed.value)
  }

  /** The ready ones among the descriptors listed from an index on, in order. */
  function ReadyOf(poll: seq<int>, ready: set<int>, i: nat): seq<int>
    requires i <= |poll|
    decreases |poll| - i
  {
    if i == |poll| then []
    else if poll[i] in ready then [poll[i]] + ReadyOf(poll, ready, i + 1)
    else ReadyOf(poll, ready, i + 1)
  }

  /** Each of the ready ones listed from the index on is there, and nothing else. */
  lemma {:induction false} ReadyOfHolds(poll: seq<int>, ready: set<int>, i: nat, x: int)
    requires i <= |poll|
    ensures x in ReadyOf(poll, ready, i) <==> x in ready && exists k :: i <= k < |poll| && poll[k] == x
    decreases |poll| - i
  {
    if i < |poll| {
      ReadyOfHolds(poll, ready, i + 1, x);
      assert poll[i] == x ==> exists k :: i <= k < |poll| && poll[k] == x;
    }
  }

  /** They are in the order of the list: whatever is listed before an entry comes before it. */
  lemma {:induction false} ReadyOfOrder(poll: seq<int>, ready: set<int>, i: nat, k: nat) returns (before: seq<int>)
    requires i <= k <= |poll|
    ensures ReadyOf(poll, ready, i) == before + ReadyOf(poll, ready, k)
    ensures forall x :: x in before ==> x in poll[i..k]
    decreases k - i
  {
    before := [];
    if i < k {
      var rest := ReadyOfOrder(poll, ready, i + 1, k);
      before := (if poll[i] in ready then [poll[i]] else []) + rest;
      assert poll[i..k] == [poll[i]] + poll[i + 1..k];
    }
  }

  function TurnFds(turns: seq<SS.Turn>): (r: seq<int>)
    ensures |r| == |turns| && forall i :: 0 <= i < |r| ==> r[i] == turns[i].fd
  {
    seq(|turns|, i requires 0 <= i < |turns| => turns[i].fd)
  }

  /** A pass makes one turn for each descriptor listed and ready when it began, stdin apart, in order; if a turn
      fails, for a first part of them. */
  ghost predicate PassOk(s: SS.Snapshot, r: Round, p: Pass) {
    && !Stops(r) && SS.Sound(s) && |s.poll| > 0
    && SS.Possible(s, p.turns, |p.turns|) && SS.After(s, p.turns, |p.turns|) == (p.err, p.end)
    && TurnFds(p.turns) <= ReadyOf(s.poll, r.ready, 1)
    && (p.err == OK ==> TurnFds(p.turns) == ReadyOf(s.poll, r.ready, 1))
  }

  function StartOf(s: SS.Snapshot, passes: seq<Pass>, k: nat): SS.Snapshot
    requires k <= |passes|
  {
    if k == 0 then s else passes[k - 1].end
  }

  /** Each pass is that of its round and begins where the one before it ended, which succeeded. */
  ghost predicate Serves(s: SS.Snapshot, rounds: seq<Round>, passes: seq<Pass>) {
    && |passes| <= |rounds|
    && (forall k :: 0 <= k < |passes| ==> PassOk(StartOf(s, passes, k), rounds[k], passes[k]))
    && (forall k :: 0 <= k < |passes| - 1 ==> passes[k].err == OK)
  }

  function ErrOf(passes: seq<Pass>): Err {
    if passes == [] then OK else passes[|passes| - 1].err
  }

  /** The server goes on for as long as there are rounds, no pass fails, and nothing stops it. */
  predicate Over(rounds: seq<Round>, passes: seq<Pass>) {
    ErrOf(passes) != OK || |passes| >= |rounds| || Stops(rounds[|passes|])
  }

  /** All the turns of the first n passes. */
  function AllTurns(passes: seq<Pass>, n: nat): seq<SS.Turn>
    requires n <= |passes|
  {
    if n == 0 then [] else AllTurns(passes, n - 1) + passes[n - 1].turns
  }

  lemma ServesMore(s: SS.Snapshot, rounds: seq<Round>, passes: seq<Pass>, p: Pass)
    requires Serves(s, rounds, passes) && |passes| < |rounds| && ErrOf(passes) == OK
    requires PassOk(StartOf(s, passes, |passes|), rounds[|passes|], p)
    ensures Serves(s, rounds, passes + [p])
  {
    hide PassOk;
    var more := passes + [p];
    forall k | 0 <= k < |more|
      ensures PassOk(StartOf(s, more, k), rounds[k], more[k])
    {
      assert StartOf(s, more, k) == StartOf(s, passes, k);
      assert k < |passes| ==> PassOk(StartOf(s, passes, k), rounds[k], passes[k]);
    }
  }

  lemma PassIsRun(s: SS.Snapshot, r: Round, p: Pass)
    requires PassOk(s, r, p)
    ensures SS.Sound(s) && SS.Possible(s, p.turns, |p.turns|)
    ensures SS.After(s, p.turns, |p.turns|) == (p.err, p.end)
  {
    hide SS.Sound, SS.Possible, SS.After, ReadyOf, TurnFds;
  }

  /** The passes together are one run of turns. */
  lemma {:induction false} ServesIsRun(s: SS.Snapshot, rounds: seq<Round>, passes: seq<Pass>, n: nat)
    requires SS.Sound(s) && Serves(s, rounds, passes) && n <= |passes|
    ensures var turns := AllTurns(passes, n);
      && SS.Possible(s, turns, |turns|)
      && SS.After(s, turns, |turns|) == (if n == 0 then OK else passes[n - 1].err, StartOf(s, passes, n))
  {
    hide SS.Sound, SS.Possible, SS.After, PassOk;
    if n == 0 {
      SS.NoTurns(s);
    } else {
      ServesIsRun(s, rounds, passes, n - 1);
      assert n >= 2 ==> passes[n - 2].err == OK;
      var a, b, p := AllTurns(passes, n - 1), StartOf(s, passes, n - 1), passes[n - 1];
      PassIsRun(b, rounds[n - 1], p);
      SS.TurnsConcat(s, a, b, p.turns, |p.turns|, p.err, p.end);
    }
  }
}
