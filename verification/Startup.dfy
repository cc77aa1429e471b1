/** The live startup sequence: order recovery, then reconciliation, each in a session that is
    dropped without a commit (main.py). */
module Startup {
  import opened Broker
  import opened Enumeration
  import opened OrderState
  import opened Wrappers
  import Protocol
  import ProtocolTheorems
  import Recovery
  import Reconciler

  type Inst = Protocol.Inst

  /** What the database and the broker answer during one startup. */
  datatype Answers = Answers(
    ordersReadable: bool, brokerForRecovery: Result<seq<Position>, string>,
    brokerForReconcile: Result<seq<Position>, string>, tradesReadable: bool, pending: Reconciler.PendingQuery)

  predicate Answered(a: Answers) {
    a.ordersReadable && a.brokerForRecovery.Ok? && a.brokerForReconcile.Ok? && a.tradesReadable && a.pending.Readable?
  }

  /** The committed tables are those of a reachable state and the broker tells the truth. */
  ghost predicate Faithful(acts: seq<Protocol.Act>, inst: Inst, now: int, orders: Recovery.Table, trades: Reconciler.Table, a: Answers) {
    && inst != "" && now == Protocol.Run(acts).now
    && Recovery.TableOf(Protocol.Run(acts), orders) && Reconciler.TableOf(Protocol.Run(acts), trades)
    && Answered(a)
    && Recovery.Truthful(Protocol.Run(acts), inst, ByTicket(a.brokerForRecovery.value))
    && Reconciler.Truthful(Protocol.Run(acts), inst, ByTicket(a.brokerForReconcile.value))
  }

  /** Recovery holds the start back: a selected record without an open position, or a broker that
      cannot be asked about one. */
  ghost predicate RecoveryBlocks(orders: Recovery.Table, inst: Inst, broker: Result<seq<Position>, string>) {
    exists oid :: oid in Recovery.SelectedIds(orders, inst)
      && (broker.Err? || Recovery.Match(orders[oid], ByTicket(broker.value)).None?)
  }

  /** The stale rows reconciliation looked at: none if they cannot be read, else all of them, or
      those up to the first whose promotion cannot be flushed. */
  ghost predicate LookedAt(trades: Reconciler.Table, inst: Inst, now: int, a: Answers, seen: seq<nat>) {
    && (forall k :: 0 <= k < |seen| ==> seen[k] in Reconciler.StaleIds(trades, inst, now))
    && (a.pending.Unreadable? ==> seen == [])
    && (a.brokerForReconcile.Ok? && a.tradesReadable && a.pending.Readable? ==>
          || Enumerates(seen, Reconciler.StaleIds(trades, inst, now))
          || (seen != [] && Reconciler.AtBroker(trades[seen[|seen| - 1]], ByTicket(a.brokerForReconcile.value))
              && !a.pending.flushes(seen[|seen| - 1])))
  }

  /** Reconciliation holds the start back; rows it did not look at do not. */
  ghost predicate ReconcileBlocks(trades: Reconciler.Table, inst: Inst, a: Answers, seen: seq<nat>)
    requires forall k :: 0 <= k < |seen| ==> seen[k] in trades
  {
    || a.brokerForReconcile.Err? || !a.tradesReadable
    || Reconciler.AnyOrphan(trades, ByTicket(a.brokerForReconcile.value), inst)
    || Reconciler.LostAmong(trades, seen, ByTicket(a.brokerForReconcile.value))
  }

  /** Whether a live start goes ahead.  A force without a reason counts as no force, and no force
      helps when the order table cannot be read. */
  method StartLive(inst: Inst, now: int, orders: Recovery.Table, trades: Reconciler.Table, a: Answers,
                   force: bool, reasonGiven: bool) returns (started: bool, ghost seen: seq<nat>)
    ensures forall k :: 0 <= k < |seen| ==> seen[k] in trades
    ensures !a.ordersReadable ==> !started
    ensures a.ordersReadable && force && reasonGiven ==> started
    ensures a.ordersReadable && !(force && reasonGiven) && RecoveryBlocks(orders, inst, a.brokerForRecovery) ==> !started
    ensures a.ordersReadable && !(force && reasonGiven) && !RecoveryBlocks(orders, inst, a.brokerForRecovery) ==>
      LookedAt(trades, inst, now, a, seen) && (started <==> !ReconcileBlocks(trades, inst, a, seen))
  {
    seen := [];
    if !a.ordersReadable {
      return false, [];
    }
    var forced := force && reasonGiven;
    var recovery := new Recovery.OrderSession(orders);
    var first, ids := recovery.RecoverStartupOrders(inst, a.brokerForRecovery);
    RecoveryReport(orders, inst, a.brokerForRecovery, ids, first.issues);
    hide RecoveryBlocks, Recovery.HasCritical, ReconcileBlocks, LookedAt;
    var blocked := CriticalIn(first.issues);
    if first.total != 0 && blocked && !forced {
      return false, [];
    }
    var clean: bool;
    clean, seen := ReconcileAtStart(inst, now, trades, a);
    return clean || forced, seen;
  }

  method ReconcileAtStart(inst: Inst, now: int, trades: Reconciler.Table, a: Answers) returns (clean: bool, ghost seen: seq<nat>)
    ensures forall k :: 0 <= k < |seen| ==> seen[k] in trades
    ensures LookedAt(trades, inst, now, a, seen) && (clean <==> !ReconcileBlocks(trades, inst, a, seen))
  {
    seen := [];
    var reconciler := new Reconciler.PositionReconciler(trades, 0.01, 0.001);
    var report, o := reconciler.Reconcile(inst, now, a.brokerForReconcile, a.tradesReadable, a.pending);
    if a.brokerForReconcile.Ok? && a.tradesReadable {
      var ps := a.brokerForReconcile.value;
      ghost var n := Reconciler.Seen(trades, o.stale, ByTicket(ps), a.pending);
      PrefixLookedAt(trades, inst, now, a, o.stale, n);
      hide Reconciler.Seen, Reconciler.Findings, Reconciler.HasCritical, Reconciler.Promote, Reconciler.AnyOrphan;
      hide LookedAt, Reconciler.LostAmong;
      Reconciler.CriticalIff(trades, ps, o, inst, now, 0.01, 0.001, n);
      seen := o.stale[..n];
    }
    return report.reconciled, seen;
  }

  lemma PrefixLookedAt(trades: Reconciler.Table, inst: Inst, now: int, a: Answers, stale: seq<nat>, n: nat)
    requires Enumerates(stale, Reconciler.StaleIds(trades, inst, now)) && a.brokerForReconcile.Ok?
    requires n == Reconciler.Seen(trades, stale, ByTicket(a.brokerForReconcile.value), a.pending)
    ensures LookedAt(trades, inst, now, a, stale[..n])
  {
    Reconciler.SeenMeaning(trades, stale, ByTicket(a.brokerForReconcile.value), a.pending);
    hide Reconciler.Seen;
    assert n == |stale| ==> stale[..n] == stale;
  }

  lemma RecoveryReport(orders: Recovery.Table, inst: Inst, broker: Result<seq<Position>, string>, ids: seq<nat>, issues: seq<Recovery.Issue>)
    requires Enumerates(ids, Recovery.SelectedIds(orders, inst))
    requires ids == [] ==> issues == []
    requires ids != [] && broker.Err? ==> issues == [Recovery.Issue(None, Recovery.BrokerQueryFailed, true, None, false)]
    requires ids != [] && broker.Ok? ==> issues == Recovery.IssuesFor(orders, ids, ByTicket(broker.value))
    ensures ids != [] && Recovery.HasCritical(issues) <==> RecoveryBlocks(orders, inst, broker)
  {
    if ids != [] {
      assert ids[0] in Recovery.SelectedIds(orders, inst);
      if broker.Ok? {
        Recovery.CriticalIffUnmatched(orders, inst, ids, ByTicket(broker.value));
      } else {
        assert issues[0].critical;
      }
    }
  }

  /** On the tables of a reachable state and truthful answers that is the state machine's gate,
      however the flushes are answered. */
  lemma StartIsTheGate(acts: seq<Protocol.Act>, inst: Inst, orders: Recovery.Table, trades: Reconciler.Table, a: Answers, seen: seq<nat>)
    requires Faithful(acts, inst, Protocol.Run(acts).now, orders, trades, a)
    requires LookedAt(trades, inst, Protocol.Run(acts).now, a, seen)
    ensures Protocol.GateCritical(Protocol.Run(acts), inst)
            <==> RecoveryBlocks(orders, inst, a.brokerForRecovery) || ReconcileBlocks(trades, inst, a, seen)
  {
    var now, rs, ps := Protocol.Run(acts).now, a.brokerForRecovery.value, a.brokerForReconcile.value;
    var ids := Listed(Recovery.SelectedIds(orders, inst));
    Recovery.RecoveryIsTheGate(acts, inst, orders, ids, ByTicket(rs));
    Recovery.CriticalIffUnmatched(orders, inst, ids, ByTicket(rs));
    var open := Listed(Reconciler.OpenIds(trades, inst));
    var db := Reconciler.OpenByTicket(trades, open);
    Reconciler.ReachableRows(acts);
    Reconciler.StaleAgree(Protocol.Run(acts), inst, trades, ByTicket(ps));
    assert Enumerates(seen, Reconciler.StaleIds(trades, inst, now));
    var o := Reconciler.Orders(open, Listed(db.Keys), Listed(ByTicket(ps).Keys * db.Keys), seen);
    assert Reconciler.FairOrders(trades, ps, o, inst, now) && o.stale[..|o.stale|] == o.stale;
    Reconciler.ReconciliationIsTheGate(acts, inst, trades, ps, o, 0.01, 0.001);
    Reconciler.CriticalIff(trades, ps, o, inst, now, 0.01, 0.001, |o.stale|);
    assert o.(stale := o.stale[..|o.stale|]) == o;
  }

  /** An instance id without any records, which is what a start draws unless one is given, sees no
      earlier execution: recovery never holds it back, and reconciliation, once answered, exactly if
      the broker lists any position at all. */
  lemma FreshIdSeesOnlyPositions(inst: Inst, now: int, orders: Recovery.Table, trades: Reconciler.Table, a: Answers, seen: seq<nat>)
    requires inst != "" && LookedAt(trades, inst, now, a, seen)
    requires (forall oid :: oid in orders ==> orders[oid].order.inst != inst) && (forall tid :: tid in trades ==> trades[tid].trade.inst != inst)
    ensures !RecoveryBlocks(orders, inst, a.brokerForRecovery)
    ensures a.brokerForReconcile.Ok? && a.tradesReadable ==>
      (ReconcileBlocks(trades, inst, a, seen) <==> a.brokerForReconcile.value != [])
  {
    assert Reconciler.StaleIds(trades, inst, now) == {};
    if a.brokerForReconcile.Ok? {
      var ps := a.brokerForReconcile.value;
      TicketsAreKeys(ps);
      if ps != [] {
        assert ps[0].ticket in ByTicket(ps);
        assert !Reconciler.HasOpenRow(trades, inst, ps[0].ticket);
      }
    }
  }

  method CriticalIn(issues: seq<Recovery.Issue>) returns (critical: bool)
    ensures critical == Recovery.HasCritical(issues)
  {
    critical := false;
    for k := 0 to |issues|
      invariant critical <==> exists j :: 0 <= j < k && issues[j].critical
    {
      if issues[k].critical { critical := true; }
    }
  }

  /** Crash consistency: after any run, with crashes and failed writes anywhere, an unforced start
      on a truthful snapshot goes ahead exactly when no execution was left dirty.  Then every
      position has its OPEN row and the recovery session leaves no order record non-terminal; in
      the committed table, which that session never reaches, a record is non-terminal exactly when
      its execution stopped between promotion and FILLED, and then it says SENT. */
  lemma StartMeansConsistent(acts: seq<Protocol.Act>, inst: Inst, orders: Recovery.Table, byTicket: map<nat, Position>)
    requires inst != "" && Recovery.TableOf(Protocol.Run(acts), orders) && Recovery.Truthful(Protocol.Run(acts), inst, byTicket)
    ensures Protocol.GateCritical(Protocol.Run(acts), inst) <==> ProtocolTheorems.AnyDirty(Protocol.Run(acts), inst)
    ensures !Protocol.GateCritical(Protocol.Run(acts), inst) ==>
      && (forall t :: t in byTicket ==> Protocol.OpenRowFor(Protocol.Run(acts), inst, t))
      && (forall oid :: oid in orders ==>
            !Recovery.Selected(Recovery.ResolveAll(orders, Recovery.SelectedIds(orders, inst), byTicket)[oid], inst))
      && (forall oid :: oid in orders && orders[oid].order.inst == inst ==> CommittedState(Protocol.Run(acts), orders[oid].order, oid))
  {
    ProtocolTheorems.GateExact(acts, inst);
    var ids := Listed(Recovery.SelectedIds(orders, inst));
    Recovery.CriticalIffUnmatched(orders, inst, ids, byTicket);
    Recovery.RecoveryIsTheGate(acts, inst, orders, ids, byTicket);
    hide Protocol.Run, Protocol.RecoveryCritical;
    if !Protocol.GateCritical(Protocol.Run(acts), inst) {
      forall oid | oid in orders && orders[oid].order.inst == inst ensures CommittedState(Protocol.Run(acts), orders[oid].order, oid) {
        ProtocolTheorems.CleanGateLeavesSent(acts, inst, oid);
      }
    }
  }

  /** The committed record of execution `oid` after a clean gate. */
  predicate CommittedState(w: Protocol.World, o: Protocol.Order, oid: nat) {
    && oid in w.hist
    && (Protocol.NonTerminal(o.status) <==> w.hist[oid].stage == Protocol.Promoted)
    && (Protocol.NonTerminal(o.status) <==> o.status == SENT)
  }

  ghost function Listed(s: set<nat>): (ids: seq<nat>)
    ensures Enumerates(ids, s)
  {
    if s == {} then []
    else
      var x :| x in s;
      var rest := Listed(s - {x});
      assert forall y :: y in s ==> y == x || y in s - {x};
      rest + [x]
  }
}
