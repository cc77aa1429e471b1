/** The single-writer lease a live process holds for its lifetime (main.py).  Its release deletes
    the row of its scope whoever owns it. */
module HeartbeatLease {
  import opened Wrappers

  const LEASE := 120

  type Uuid = nat

  datatype Row = Row(owner: Uuid, beat: int, lease: int)

  /** `running` maps each process that believes it holds the lease to its last written heartbeat;
      `seen` are the ids ever drawn. */
  datatype State = State(now: int, row: Option<Row>, running: map<Uuid, int>, seen: set<Uuid>)

  datatype Act = Tick(delta: nat) | Acquire(me: Uuid) | Refresh(me: Uuid) | Crash(me: Uuid) | Release(me: Uuid)

  predicate Live(row: Option<Row>, now: int) { row.Some? && now - row.value.beat < row.value.lease }

  function Step(s: State, a: Act): State {
    match a
    case Tick(delta) => s.(now := s.now + delta)
    case Acquire(me) =>
      if me in s.seen then s
      else if Live(s.row, s.now) then s.(seen := s.seen + {me})
      else State(s.now, Some(Row(me, s.now, LEASE)), s.running[me := s.now], s.seen + {me})
    case Refresh(me) =>
      if me in s.running && s.row.Some? && s.row.value.owner == me
      then s.(row := Some(s.row.value.(beat := s.now)), running := s.running[me := s.now]) else s
    case Crash(me) => s.(running := s.running - {me})
    case Release(me) => if me in s.running then s.(row := None, running := s.running - {me}) else s
  }

  /** The lease table and its three operations, as one process performs them. */
  class LeaseTable {
    var now: int
    var row: Option<Row>
    var running: map<Uuid, int>
    var seen: set<Uuid>

    ghost function Snapshot(): State
      reads this
    {
      State(now, row, running, seen)
    }

    /** False when another process owns the scope; a stale row is deleted and replaced. */
    method AcquireLease(me: Uuid) returns (ok: bool)
      requires me !in seen
      modifies this
      ensures Snapshot() == Step(old(Snapshot()), Acquire(me))
      ensures ok <==> old(row).None? || now - old(row).value.beat >= old(row).value.lease
      ensures seen == old(seen) + {me} && now == old(now)
      ensures ok ==> row == Some(Row(me, now, 120)) && running == old(running)[me := now]
      ensures !ok ==> row == old(row) && running == old(running)
    {
      seen := seen + {me};
      if row.Some? {
        var age := now - row.value.beat;
        if age < row.value.lease {
          return false;
        }
        row := None;
      }
      row, running := Some(Row(me, now, LEASE)), running[me := now];
      return true;
    }

    method RefreshHeartbeat(me: Uuid)
      requires me in running
      modifies this
      ensures Snapshot() == Step(old(Snapshot()), Refresh(me))
      ensures if old(row).Some? && old(row).value.owner == me
              then row == Some(Row(me, now, old(row).value.lease)) && running == old(running)[me := now]
              else row == old(row) && running == old(running)
    {
      if row.Some? && row.value.owner == me {
        row, running := Some(row.value.(beat := now)), running[me := now];
      }
    }

    method ReleaseLease(me: Uuid)
      requires me in running
      modifies this
      ensures Snapshot() == Step(old(Snapshot()), Release(me))
      ensures row.None? && running == old(running) - {me}
    {
      row, running := None, running - {me};
    }
  }

  function Init(): State { State(0, None, map[], {}) }

  function Run(acts: seq<Act>): State {
    if acts == [] then Init() else Step(Run(acts[..|acts| - 1]), acts[|acts| - 1])
  }

  /** Every release in the run is by a process that still owns the row. */
  predicate NoDeposedRelease(acts: seq<Act>) {
    forall k :: 0 <= k < |acts| && acts[k].Release? ==> ReleasesOwn(Run(acts[..k]), acts[k].me)
  }

  predicate ReleasesOwn(s: State, me: Uuid) {
    me in s.running ==> s.row.Some? && s.row.value.owner == me
  }

  /** A process that runs without owning the row has not written a heartbeat for a whole lease. */
  predicate Exclusive(s: State) {
    forall p :: p in s.running ==> (s.row.Some? && s.row.value.owner == p) || s.now - s.running[p] >= LEASE
  }

  predicate Inv(s: State) {
    && Exclusive(s)
    && s.running.Keys <= s.seen
    && (s.row.Some? ==> s.row.value.owner in s.seen && s.row.value.lease == LEASE && s.row.value.beat <= s.now)
    && (s.row.Some? && s.row.value.owner in s.running ==> s.running[s.row.value.owner] == s.row.value.beat)
  }

  lemma StepInv(s: State, a: Act)
    requires Inv(s) && (a.Release? ==> ReleasesOwn(s, a.me))
    ensures Inv(Step(s, a))
  {
  }

  lemma {:induction false} RunInv(acts: seq<Act>)
    requires NoDeposedRelease(acts)
    ensures Inv(Run(acts))
  {
    if acts != [] {
      var front := acts[..|acts| - 1];
      assert forall k :: 0 <= k < |front| ==> front[..k] == acts[..k] && front[k] == acts[k];
      RunInv(front);
      assert acts[|acts| - 1].Release? ==> ReleasesOwn(Run(acts[..|acts| - 1]), acts[|acts| - 1].me);
      StepInv(Run(front), acts[|acts| - 1]);
    }
  }

  /** As long as no deposed process releases, of two processes that both believe they hold the
      lease one has been silent for a whole lease. */
  lemma LeaseSafety(acts: seq<Act>, p: Uuid, q: Uuid)
    requires NoDeposedRelease(acts) && p != q && p in Run(acts).running && q in Run(acts).running
    ensures Run(acts).now - Run(acts).running[p] >= LEASE || Run(acts).now - Run(acts).running[q] >= LEASE
  {
    RunInv(acts);
  }

  /** Exactly which releases break it: those that delete the row of another process that is still
      running and has written a heartbeat within its lease. */
  lemma ReleaseKeepsIff(s: State, me: Uuid)
    requires Inv(s) && me in s.running
    ensures Inv(Step(s, Release(me))) <==>
      (s.row.Some? && s.row.value.owner != me && s.row.value.owner in s.running ==> !Live(s.row, s.now))
  {
    var v := Step(s, Release(me));
    if s.row.Some? && s.row.value.owner != me && s.row.value.owner in s.running {
      assert s.row.value.owner in v.running && v.running[s.row.value.owner] == s.row.value.beat;
    }
  }

  /** The hypothesis is needed: a process stalls for a lease, is replaced, then shuts down and
      deletes its successor's row; a third process starts, and two are live at once. */
  lemma DeposedReleaseBreaksIt()
    ensures var s := Run([Acquire(1), Tick(120), Acquire(2), Release(1), Acquire(3)]);
            2 in s.running && 3 in s.running && s.now - s.running[2] < LEASE && s.now - s.running[3] < LEASE
  {
    var a, b, c, d := [Acquire(1)], [Acquire(1), Tick(120)], [Acquire(1), Tick(120), Acquire(2)],
      [Acquire(1), Tick(120), Acquire(2), Release(1)];
    var e := [Acquire(1), Tick(120), Acquire(2), Release(1), Acquire(3)];
    assert a[..0] == [] && b[..1] == a && c[..2] == b && d[..3] == c && e[..4] == d;
    assert Run(a) == State(0, Some(Row(1, 0, LEASE)), map[1 := 0], {1});
    assert Run(b) == State(120, Some(Row(1, 0, LEASE)), map[1 := 0], {1});
    assert Run(c) == State(120, Some(Row(2, 120, LEASE)), map[1 := 0, 2 := 120], {1, 2});
    assert Run(d) == State(120, None, map[2 := 120], {1, 2});
    assert Run(e) == Step(Run(d), Acquire(3));
  }
}
