/** Broker positions against trade rows (execution/reconciler.py, db/repositories/trade_repo.py). */
module Reconciler {
  import opened Broker
  import opened Enumeration
  import opened Protocol
  import opened ProtocolInvariant
  import opened Wrappers

  /** A trade row with the columns the comparison reads beside the trade itself. */
  datatype Row = Row(trade: Trade, symbol: string, lots: Option<real>, stopLoss: Option<real>, takeProfit: Option<real>)

  type Table = map<nat, Row>

  datatype Kind =
    | BrokerError | DbError | OrphanedBroker | OrphanedDb | VolumeMismatch | SlMismatch | TpMismatch
    | PendingPromoted | OrphanedPending

  datatype Issue = Issue(ticket: nat, kind: Kind, critical: bool, resolved: bool)

  datatype Report = Report(brokerPositions: nat, dbOpenTrades: nat, issues: seq<Issue>, reconciled: bool)

  predicate HasCritical(issues: seq<Issue>) { exists k :: 0 <= k < |issues| && issues[k].critical }

  predicate Belongs(row: Row, inst: Inst) { inst == "" || row.trade.inst == inst }

  /** The ticket under which a row is matched; zero counts as none. */
  function RowTicket(row: Row): nat { if row.trade.ticket.Some? then row.trade.ticket.value else 0 }

  predicate IsOpenRow(row: Row, inst: Inst) { row.trade.outcome == TradeOpen && Belongs(row, inst) }

  predicate IsStaleRow(row: Row, inst: Inst, now: int) {
    row.trade.outcome == TradePending && row.trade.openedAt < now - PENDING_GRACE && Belongs(row, inst)
  }

  /** The open rows by ticket; a later row replaces an earlier one, rows without one are dropped. */
  function OpenByTicket(table: Table, ids: seq<nat>): map<nat, Row>
    requires forall k :: 0 <= k < |ids| ==> ids[k] in table
  {
    if ids == [] then map[]
    else
      var rest, row := OpenByTicket(table, ids[..|ids| - 1]), table[ids[|ids| - 1]];
      if RowTicket(row) != 0 then rest[RowTicket(row) := row] else rest
  }

  lemma {:induction false} OpenByTicketMeaning(table: Table, ids: seq<nat>)
    requires forall k :: 0 <= k < |ids| ==> ids[k] in table
    ensures forall t :: t in OpenByTicket(table, ids) <==> t != 0 && exists k :: 0 <= k < |ids| && RowTicket(table[ids[k]]) == t
    ensures forall t :: t in OpenByTicket(table, ids) ==>
      exists k :: 0 <= k < |ids| && OpenByTicket(table, ids)[t] == table[ids[k]] && RowTicket(table[ids[k]]) == t
  {
    if ids != [] {
      var front, row := ids[..|ids| - 1], table[ids[|ids| - 1]];
      OpenByTicketMeaning(table, front);
      forall t | t in OpenByTicket(table, front)
        ensures exists k :: 0 <= k < |ids| && OpenByTicket(table, front)[t] == table[ids[k]] && RowTicket(table[ids[k]]) == t
      {
        var k :| 0 <= k < |front| && OpenByTicket(table, front)[t] == table[front[k]] && RowTicket(table[front[k]]) == t;
        assert ids[k] == front[k];
      }
      forall k | 0 <= k < |ids| && RowTicket(table[ids[k]]) != 0 ensures RowTicket(table[ids[k]]) in OpenByTicket(table, ids) {
        if k < |front| { assert front[k] == ids[k]; }
      }
    }
  }

  /** Under each ticket stands the last of the open rows that hold it. */
  lemma {:induction false} OpenByTicketIsLast(table: Table, ids: seq<nat>, k: nat)
    requires forall j :: 0 <= j < |ids| ==> ids[j] in table
    requires k < |ids| && RowTicket(table[ids[k]]) != 0
    requires forall j :: k < j < |ids| ==> RowTicket(table[ids[j]]) != RowTicket(table[ids[k]])
    ensures RowTicket(table[ids[k]]) in OpenByTicket(table, ids)
    ensures OpenByTicket(table, ids)[RowTicket(table[ids[k]])] == table[ids[k]]
  {
    if k < |ids| - 1 {
      OpenByTicketIsLast(table, ids[..|ids| - 1], k);
    }
  }

  // ---------------------------------------------------------------- the comparison, issue by issue

  function OrphanAtBroker(t: nat, db: map<nat, Row>): seq<Issue> {
    if t !in db then [Issue(t, OrphanedBroker, true, false)] else []
  }

  function OrphanInDb(t: nat, broker: map<nat, Position>): seq<Issue> {
    if t !in broker then [Issue(t, OrphanedDb, false, false)] else []
  }

  function Apart(a: real, b: real, tolerance: real): bool { (if a >= b then a - b else b - a) > tolerance }

  function OrZero(x: Option<real>): real { if x.Some? then x.value else 0.0 }

  function Mismatches(t: nat, p: Position, row: Row, priceTol: real, volumeTol: real): seq<Issue> {
    (if Apart(p.volume, OrZero(row.lots), volumeTol) then [Issue(t, VolumeMismatch, false, false)] else [])
    + (if Apart(p.stopLoss, OrZero(row.stopLoss), priceTol) then [Issue(t, SlMismatch, false, false)] else [])
    + (if Apart(p.takeProfit, OrZero(row.takeProfit), priceTol) then [Issue(t, TpMismatch, false, false)] else [])
  }

  predicate AtBroker(row: Row, broker: map<nat, Position>) { RowTicket(row) != 0 && RowTicket(row) in broker }

  function PendingIssue(row: Row, broker: map<nat, Position>): Issue {
    if AtBroker(row, broker) then Issue(RowTicket(row), PendingPromoted, false, true)
    else Issue(RowTicket(row), OrphanedPending, true, false)
  }

  function BrokerIssues(tickets: seq<nat>, db: map<nat, Row>): seq<Issue> {
    if tickets == [] then [] else BrokerIssues(tickets[..|tickets| - 1], db) + OrphanAtBroker(tickets[|tickets| - 1], db)
  }

  function DbIssues(tickets: seq<nat>, broker: map<nat, Position>): seq<Issue> {
    if tickets == [] then [] else DbIssues(tickets[..|tickets| - 1], broker) + OrphanInDb(tickets[|tickets| - 1], broker)
  }

  function MismatchIssues(tickets: seq<nat>, broker: map<nat, Position>, db: map<nat, Row>, priceTol: real, volumeTol: real): seq<Issue>
    requires forall k :: 0 <= k < |tickets| ==> tickets[k] in broker && tickets[k] in db
  {
    if tickets == [] then []
    else
      var t := tickets[|tickets| - 1];
      MismatchIssues(tickets[..|tickets| - 1], broker, db, priceTol, volumeTol) + Mismatches(t, broker[t], db[t], priceTol, volumeTol)
  }

  function PendingIssues(table: Table, ids: seq<nat>, broker: map<nat, Position>): seq<Issue>
    requires forall k :: 0 <= k < |ids| ==> ids[k] in table
  {
    if ids == [] then []
    else PendingIssues(table, ids[..|ids| - 1], broker) + [PendingIssue(table[ids[|ids| - 1]], broker)]
  }

  function Promote(table: Table, ids: set<nat>, broker: map<nat, Position>): Table {
    map tid | tid in table ::
      if tid in ids && AtBroker(table[tid], broker)
      then table[tid].(trade := table[tid].trade.(outcome := TradeOpen)) else table[tid]
  }

  function OpenIds(table: Table, inst: Inst): set<nat> { set tid | tid in table && IsOpenRow(table[tid], inst) }

  function StaleIds(table: Table, inst: Inst, now: int): set<nat> { set tid | tid in table && IsStaleRow(table[tid], inst, now) }

  function Prefix(xs: seq<nat>, n: nat): set<nat>
    requires n <= |xs|
  {
    set k | 0 <= k < n :: xs[k]
  }

  /** The order in which the tables and dictionaries happened to be enumerated. */
  datatype Orders = Orders(open: seq<nat>, dbTickets: seq<nat>, common: seq<nat>, stale: seq<nat>)

  /** The whole comparison when every query is answered. */
  function Findings(table: Table, ps: seq<Position>, o: Orders, priceTol: real, volumeTol: real): seq<Issue>
    requires forall k :: 0 <= k < |o.open| ==> o.open[k] in table
    requires forall k :: 0 <= k < |o.common| ==> o.common[k] in ByTicket(ps) && o.common[k] in OpenByTicket(table, o.open)
    requires forall k :: 0 <= k < |o.stale| ==> o.stale[k] in table
  {
    var broker, db := ByTicket(ps), OpenByTicket(table, o.open);
    BrokerIssues(Tickets(ps), db) + DbIssues(o.dbTickets, broker)
    + MismatchIssues(o.common, broker, db, priceTol, volumeTol) + PendingIssues(table, o.stale, broker)
  }

  /** How the query for stale rows and the flushes behind it are answered: a query that fails, or
      rows together with the flushes that succeed. */
  datatype PendingQuery = Unreadable | Readable(flushes: nat -> bool)

  /** How many of the stale rows are looked at: all of them, up to and including the first whose
      promotion cannot be flushed. */
  function Seen(table: Table, ids: seq<nat>, broker: map<nat, Position>, q: PendingQuery): nat
    requires forall k :: 0 <= k < |ids| ==> ids[k] in table
    ensures Seen(table, ids, broker, q) <= |ids|
  {
    if q.Unreadable? || ids == [] then 0
    else
      var front := Seen(table, ids[..|ids| - 1], broker, q);
      if front < |ids| - 1 || Halts(table, ids[..|ids| - 1], broker, q) then front else |ids|
  }

  /** The last of the rows stops the pass. */
  predicate Halts(table: Table, ids: seq<nat>, broker: map<nat, Position>, q: PendingQuery)
    requires forall k :: 0 <= k < |ids| ==> ids[k] in table
  {
    q.Readable? && ids != [] && AtBroker(table[ids[|ids| - 1]], broker) && !q.flushes(ids[|ids| - 1])
  }

  /** Either every row is looked at, or the last one looked at is one whose flush fails. */
  lemma {:induction false} SeenMeaning(table: Table, ids: seq<nat>, broker: map<nat, Position>, q: PendingQuery)
    requires forall k :: 0 <= k < |ids| ==> ids[k] in table
    ensures var n := Seen(table, ids, broker, q);
            && (q.Unreadable? ==> n == 0)
            && (q.Readable? && n < |ids| ==> n > 0 && AtBroker(table[ids[n - 1]], broker) && !q.flushes(ids[n - 1]))
            && (q.Readable? ==> forall k :: 0 <= k < n - 1 ==> !(AtBroker(table[ids[k]], broker) && !q.flushes(ids[k])))
  {
    if ids != [] && q.Readable? {
      SeenMeaning(table, ids[..|ids| - 1], broker, q);
    }
  }

  ghost predicate FairOrders(table: Table, ps: seq<Position>, o: Orders, inst: Inst, now: int) {
    && Enumerates(o.open, OpenIds(table, inst))
    && Enumerates(o.dbTickets, OpenByTicket(table, o.open).Keys)
    && Enumerates(o.common, ByTicket(ps).Keys * OpenByTicket(table, o.open).Keys)
    && Enumerates(o.stale, StaleIds(table, inst, now))
  }

  method ListOf(chosen: set<nat>) returns (xs: seq<nat>)
    ensures Enumerates(xs, chosen)
  {
    xs := [];
    var rest := chosen;
    while rest != {}
      invariant rest <= chosen && Enumerates(xs, chosen - rest)
      decreases rest
    {
      var x :| x in rest;
      rest := rest - {x};
      xs := xs + [x];
    }
    assert chosen - rest == chosen;
  }

  class PositionReconciler {
    const priceTol: real
    const volumeTol: real
    /** The trade table as this session sees it. */
    var table: Table

    constructor (committed: Table, priceTol: real, volumeTol: real)
      ensures table == committed && this.priceTol == priceTol && this.volumeTol == volumeTol
    {
      table, this.priceTol, this.volumeTol := committed, priceTol, volumeTol;
    }

    /** Compares, and promotes stale PENDING rows whose ticket is open at the broker.  A broker or
        trade query that fails is critical; a query for stale rows or a flush that fails is only
        logged, and ends the pass over them. */
    method Reconcile(inst: Inst, now: int, broker: Result<seq<Position>, string>, openQuery: bool, pendingQuery: PendingQuery)
      returns (report: Report, ghost o: Orders)
      modifies this
      ensures broker.Err? ==> table == old(table) && report == Report(0, 0, [Issue(0, BrokerError, true, false)], false)
      ensures broker.Ok? && !openQuery ==>
        table == old(table) && report == Report(|broker.value|, 0, [Issue(0, DbError, true, false)], false)
      ensures broker.Ok? && openQuery ==>
        && FairOrders(old(table), broker.value, o, inst, now)
        && report.brokerPositions == |broker.value| && report.dbOpenTrades == |o.open|
        && report.reconciled == !HasCritical(report.issues)
        && Looked(old(table), table, broker.value, o, report.issues, pendingQuery)
    {
      o := Orders([], [], [], []);
      report := Report(0, 0, [], false);
      if broker.Err? {
        report := report.(issues := [Issue(0, BrokerError, true, false)]);
        return;
      }
      report := report.(brokerPositions := |broker.value|);
      if !openQuery {
        report := report.(issues := [Issue(0, DbError, true, false)]);
        return;
      }
      hide BrokerIssues, DbIssues, MismatchIssues, PendingIssues, OpenByTicket, HasCritical;
      var open := ListOf(OpenIds(table, inst));
      report := report.(dbOpenTrades := |open|);
      var brokerByTicket := ByTicket(broker.value);
      var dbByTicket := IndexOpen(open);
      TicketsAreKeys(broker.value);
      var issues := FindOrphans(Tickets(broker.value), dbByTicket);
      var dbTickets := ListOf(dbByTicket.Keys);
      var orphans := FindClosed(dbTickets, brokerByTicket);
      var common := ListOf(brokerByTicket.Keys * dbByTicket.Keys);
      var mismatches := FindMismatches(common, brokerByTicket, dbByTicket);
      issues := issues + orphans + mismatches;
      var stale := ListOf(StaleIds(table, inst, now));
      o := Orders(open, dbTickets, common, stale);
      var pending := PromoteStale(stale, brokerByTicket, pendingQuery);
      issues := issues + pending;
      report := report.(issues := issues);
      var critical := AnyCritical(issues);
      report := report.(reconciled := !critical);
    }

    /** The issues and the table after the rows that were looked at. */
    ghost predicate Looked(before: Table, after: Table, ps: seq<Position>, o: Orders, issues: seq<Issue>, q: PendingQuery)
      requires forall k :: 0 <= k < |o.open| ==> o.open[k] in before
      requires forall k :: 0 <= k < |o.common| ==> o.common[k] in ByTicket(ps) && o.common[k] in OpenByTicket(before, o.open)
      requires forall k :: 0 <= k < |o.stale| ==> o.stale[k] in before
    {
      var n := Seen(before, o.stale, ByTicket(ps), q);
      && issues == Findings(before, ps, o.(stale := o.stale[..n]), priceTol, volumeTol)
      && after == Promote(before, Prefix(o.stale, n), ByTicket(ps))
    }

    method AnyCritical(issues: seq<Issue>) returns (critical: bool)
      ensures critical == HasCritical(issues)
    {
      critical := false;
      for k := 0 to |issues|
        invariant critical <==> exists j :: 0 <= j < k && issues[j].critical
      {
        if issues[k].critical { critical := true; }
      }
    }

    method IndexOpen(ids: seq<nat>) returns (byTicket: map<nat, Row>)
      requires forall k :: 0 <= k < |ids| ==> ids[k] in table
      ensures byTicket == OpenByTicket(table, ids)
    {
      byTicket := map[];
      for k := 0 to |ids|
        invariant byTicket == OpenByTicket(table, ids[..k])
      {
        assert ids[..k + 1][..k] == ids[..k];
        var row := table[ids[k]];
        if row.trade.ticket.Some? && row.trade.ticket.value != 0 {
          byTicket := byTicket[row.trade.ticket.value := row];
        }
      }
      assert ids[..|ids|] == ids;
    }

    method FindOrphans(tickets: seq<nat>, db: map<nat, Row>) returns (issues: seq<Issue>)
      ensures issues == BrokerIssues(tickets, db)
    {
      issues := [];
      for k := 0 to |tickets|
        invariant issues == BrokerIssues(tickets[..k], db)
      {
        assert tickets[..k + 1][..k] == tickets[..k];
        if tickets[k] !in db {
          issues := issues + [Issue(tickets[k], OrphanedBroker, true, false)];
        }
      }
      assert tickets[..|tickets|] == tickets;
    }

    method FindClosed(tickets: seq<nat>, broker: map<nat, Position>) returns (issues: seq<Issue>)
      ensures issues == DbIssues(tickets, broker)
    {
      issues := [];
      for k := 0 to |tickets|
        invariant issues == DbIssues(tickets[..k], broker)
      {
        assert tickets[..k + 1][..k] == tickets[..k];
        if tickets[k] !in broker {
          issues := issues + [Issue(tickets[k], OrphanedDb, false, false)];
        }
      }
      assert tickets[..|tickets|] == tickets;
    }

    method FindMismatches(tickets: seq<nat>, broker: map<nat, Position>, db: map<nat, Row>) returns (issues: seq<Issue>)
      requires forall k :: 0 <= k < |tickets| ==> tickets[k] in broker && tickets[k] in db
      ensures issues == MismatchIssues(tickets, broker, db, priceTol, volumeTol)
    {
      issues := [];
      for k := 0 to |tickets|
        invariant issues == MismatchIssues(tickets[..k], broker, db, priceTol, volumeTol)
      {
        assert tickets[..k + 1][..k] == tickets[..k];
        var t := tickets[k];
        var p, row := broker[t], db[t];
        if Apart(p.volume, OrZero(row.lots), volumeTol) {
          issues := issues + [Issue(t, VolumeMismatch, false, false)];
        }
        if Apart(p.stopLoss, OrZero(row.stopLoss), priceTol) {
          issues := issues + [Issue(t, SlMismatch, false, false)];
        }
        if Apart(p.takeProfit, OrZero(row.takeProfit), priceTol) {
          issues := issues + [Issue(t, TpMismatch, false, false)];
        }
      }
      assert tickets[..|tickets|] == tickets;
    }

    method PromoteStale(ids: seq<nat>, broker: map<nat, Position>, q: PendingQuery) returns (issues: seq<Issue>)
      requires forall k :: 0 <= k < |ids| ==> ids[k] in table
      requires forall j, k :: 0 <= j < k < |ids| ==> ids[j] != ids[k]
      modifies this
      ensures var n := Seen(old(table), ids, broker, q);
              issues == PendingIssues(old(table), ids[..n], broker) && table == Promote(old(table), Prefix(ids, n), broker)
    {
      hide PendingIssues, Promote, Seen, Halts, AtBroker, PendingIssue, Prefix;
      issues := [];
      StartPass(table, ids, broker, q);
      if q.Unreadable? {
        SeenMeaning(table, ids, broker, q);
        return;
      }
      var k := 0;
      while k < |ids|
        invariant k <= |ids| && table.Keys == old(table).Keys
        invariant table == Promote(old(table), Prefix(ids, k), broker)
        invariant issues == PendingIssues(old(table), ids[..k], broker)
        invariant Seen(old(table), ids[..k], broker, q) == k && !Halts(old(table), ids[..k], broker, q)
      {
        NextPending(old(table), ids, k, broker);
        NextSeen(old(table), ids, k, broker, q);
        var issue, go := ExaminePending(ids[k], broker, q);
        issues, k := issues + [issue], k + 1;
        if !go {
          HaltedFor(old(table), ids, k, |ids|, broker, q);
          return;
        }
      }
      assert ids[..|ids|] == ids;
    }

    /** One stale row: promoted in place if its ticket is open, critical if not; false if the flush
        behind a promotion fails. */
    method ExaminePending(tid: nat, broker: map<nat, Position>, q: PendingQuery) returns (issue: Issue, go: bool)
      requires tid in table && q.Readable?
      modifies this
      ensures var row := old(table)[tid];
              && issue == PendingIssue(row, broker) && go == !(AtBroker(row, broker) && !q.flushes(tid))
              && table == if AtBroker(row, broker) then old(table)[tid := row.(trade := row.trade.(outcome := TradeOpen))] else old(table)
    {
      var row := table[tid];
      if row.trade.ticket.Some? && row.trade.ticket.value != 0 && row.trade.ticket.value in broker {
        table := table[tid := row.(trade := row.trade.(outcome := TradeOpen))];
        return Issue(row.trade.ticket.value, PendingPromoted, false, true), q.flushes(tid);
      }
      return Issue(RowTicket(row), OrphanedPending, true, false), true;
    }
  }

  lemma StartPass(table: Table, ids: seq<nat>, broker: map<nat, Position>, q: PendingQuery)
    ensures Seen(table, ids[..0], broker, q) == 0 && !Halts(table, ids[..0], broker, q) && PendingIssues(table, ids[..0], broker) == []
    ensures Promote(table, Prefix(ids, 0), broker) == table
  {
    assert Prefix(ids, 0) == {};
    assert Promote(table, {}, broker) == table;
  }

  lemma NextSeen(table: Table, ids: seq<nat>, k: nat, broker: map<nat, Position>, q: PendingQuery)
    requires q.Readable? && k < |ids| && forall j :: 0 <= j < |ids| ==> ids[j] in table
    requires Seen(table, ids[..k], broker, q) == k && !Halts(table, ids[..k], broker, q)
    ensures Seen(table, ids[..k + 1], broker, q) == k + 1
    ensures Halts(table, ids[..k + 1], broker, q) == (AtBroker(table[ids[k]], broker) && !q.flushes(ids[k]))
  {
    assert ids[..k + 1][..k] == ids[..k];
  }

  /** Once halted, the rows behind are never looked at. */
  lemma {:induction false} HaltedFor(table: Table, ids: seq<nat>, k: nat, m: nat, broker: map<nat, Position>, q: PendingQuery)
    requires k <= m <= |ids| && forall j :: 0 <= j < |ids| ==> ids[j] in table
    requires Seen(table, ids[..k], broker, q) == k && Halts(table, ids[..k], broker, q)
    ensures Seen(table, ids[..m], broker, q) == k
    ensures ids[..|ids|] == ids
    decreases m
  {
    if k < m {
      HaltedFor(table, ids, k, m - 1, broker, q);
      assert ids[..m][..m - 1] == ids[..m - 1];
    }
  }

  lemma NextPending(table: Table, ids: seq<nat>, k: nat, broker: map<nat, Position>)
    requires k < |ids| && forall j :: 0 <= j < |ids| ==> ids[j] in table
    requires forall i, j :: 0 <= i < j < |ids| ==> ids[i] != ids[j]
    ensures var before, row := Promote(table, Prefix(ids, k), broker), table[ids[k]];
            && before.Keys == table.Keys && before[ids[k]] == row
            && Promote(table, Prefix(ids, k + 1), broker)
               == if AtBroker(row, broker) then before[ids[k] := row.(trade := row.trade.(outcome := TradeOpen))] else before
    ensures PendingIssues(table, ids[..k + 1], broker) == PendingIssues(table, ids[..k], broker) + [PendingIssue(table[ids[k]], broker)]
  {
    hide PendingIssues, Promote, AtBroker, PendingIssue;
    assert Prefix(ids, k + 1) == Prefix(ids, k) + {ids[k]};
    assert ids[k] !in Prefix(ids, k);
    PromoteOne(table, Prefix(ids, k), ids[k], broker);
    NextPendingIssue(table, ids, k, broker);
  }

  lemma PromoteOne(table: Table, ids: set<nat>, tid: nat, broker: map<nat, Position>)
    requires tid in table && tid !in ids
    ensures var before, row := Promote(table, ids, broker), table[tid];
            && before.Keys == table.Keys && before[tid] == row
            && Promote(table, ids + {tid}, broker)
               == if AtBroker(row, broker) then before[tid := row.(trade := row.trade.(outcome := TradeOpen))] else before
  {
    hide AtBroker;
  }

  lemma NextPendingIssue(table: Table, ids: seq<nat>, k: nat, broker: map<nat, Position>)
    requires k < |ids| && forall j :: 0 <= j < |ids| ==> ids[j] in table
    ensures PendingIssues(table, ids[..k + 1], broker) == PendingIssues(table, ids[..k], broker) + [PendingIssue(table[ids[k]], broker)]
  {
    assert ids[..k + 1][..k] == ids[..k];
  }

  // ---------------------------------------------------------------- what the findings mean

  lemma {:induction false} BrokerIssuesCritical(tickets: seq<nat>, db: map<nat, Row>)
    ensures HasCritical(BrokerIssues(tickets, db)) <==> exists k :: 0 <= k < |tickets| && tickets[k] !in db
  {
    if tickets != [] {
      var front, t := tickets[..|tickets| - 1], tickets[|tickets| - 1];
      BrokerIssuesCritical(front, db);
      CriticalAppend(BrokerIssues(front, db), OrphanAtBroker(t, db));
      if t !in db { assert OrphanAtBroker(t, db)[0].critical; }
      if k :| 0 <= k < |front| && front[k] !in db { assert tickets[k] !in db; }
    }
  }

  lemma {:induction false} DbIssuesHarmless(tickets: seq<nat>, broker: map<nat, Position>)
    ensures !HasCritical(DbIssues(tickets, broker))
  {
    if tickets != [] {
      DbIssuesHarmless(tickets[..|tickets| - 1], broker);
      CriticalAppend(DbIssues(tickets[..|tickets| - 1], broker), OrphanInDb(tickets[|tickets| - 1], broker));
    }
  }

  lemma {:induction false} MismatchesHarmless(tickets: seq<nat>, broker: map<nat, Position>, db: map<nat, Row>, priceTol: real, volumeTol: real)
    requires forall k :: 0 <= k < |tickets| ==> tickets[k] in broker && tickets[k] in db
    ensures !HasCritical(MismatchIssues(tickets, broker, db, priceTol, volumeTol))
  {
    if tickets != [] {
      var front, t := tickets[..|tickets| - 1], tickets[|tickets| - 1];
      MismatchesHarmless(front, broker, db, priceTol, volumeTol);
      CriticalAppend(MismatchIssues(front, broker, db, priceTol, volumeTol), Mismatches(t, broker[t], db[t], priceTol, volumeTol));
    }
  }

  lemma {:induction false} PendingIssuesCritical(table: Table, ids: seq<nat>, broker: map<nat, Position>)
    requires forall k :: 0 <= k < |ids| ==> ids[k] in table
    ensures HasCritical(PendingIssues(table, ids, broker))
            <==> exists k :: 0 <= k < |ids| && !AtBroker(table[ids[k]], broker)
  {
    if ids != [] {
      var front, tid := ids[..|ids| - 1], ids[|ids| - 1];
      PendingIssuesCritical(table, front, broker);
      var last := [PendingIssue(table[tid], broker)];
      CriticalAppend(PendingIssues(table, front, broker), last);
      if !AtBroker(table[tid], broker) { assert last[0].critical; }
      if k :| 0 <= k < |front| && !AtBroker(table[front[k]], broker) { assert !AtBroker(table[ids[k]], broker); }
    }
  }

  lemma CriticalAppend(a: seq<Issue>, b: seq<Issue>)
    ensures HasCritical(a + b) <==> HasCritical(a) || HasCritical(b)
  {
    if k :| 0 <= k < |a| && a[k].critical { assert (a + b)[k].critical; }
    if k :| 0 <= k < |b| && b[k].critical { assert (a + b)[|a| + k].critical; }
  }

  predicate Differs(at: real, noted: Option<real>, tolerance: real) {
    var x := if noted.Some? then noted.value else 0.0;
    at - x > tolerance || x - at > tolerance
  }

  /** Position and row of one ticket disagree in the respect that `kind` names. */
  predicate Disagrees(kind: Kind, p: Position, row: Row, priceTol: real, volumeTol: real) {
    match kind
    case VolumeMismatch => Differs(p.volume, row.lots, volumeTol)
    case SlMismatch => Differs(p.stopLoss, row.stopLoss, priceTol)
    case TpMismatch => Differs(p.takeProfit, row.takeProfit, priceTol)
    case _ => false
  }

  lemma MismatchMeaning(x: Issue, t: nat, p: Position, row: Row, priceTol: real, volumeTol: real)
    ensures x in Mismatches(t, p, row, priceTol, volumeTol)
       <==> x == Issue(t, x.kind, false, false) && Disagrees(x.kind, p, row, priceTol, volumeTol)
  {
  }

  lemma {:induction false} OrphansMeaning(x: Issue, tickets: seq<nat>, broker: map<nat, Position>, db: map<nat, Row>)
    ensures x in BrokerIssues(tickets, db) <==> x == Issue(x.ticket, OrphanedBroker, true, false) && x.ticket in tickets && x.ticket !in db
    ensures x in DbIssues(tickets, broker) <==> x == Issue(x.ticket, OrphanedDb, false, false) && x.ticket in tickets && x.ticket !in broker
  {
    if tickets != [] {
      var front, last := tickets[..|tickets| - 1], tickets[|tickets| - 1];
      OrphansMeaning(x, front, broker, db);
      assert tickets == front + [last];
    }
  }

  lemma {:induction false} MismatchesMeaning(x: Issue, tickets: seq<nat>, broker: map<nat, Position>, db: map<nat, Row>, priceTol: real, volumeTol: real)
    requires forall k :: 0 <= k < |tickets| ==> tickets[k] in broker && tickets[k] in db
    ensures x in MismatchIssues(tickets, broker, db, priceTol, volumeTol)
       <==> x == Issue(x.ticket, x.kind, false, false) && x.ticket in tickets
            && Disagrees(x.kind, broker[x.ticket], db[x.ticket], priceTol, volumeTol)
  {
    hide Mismatches, Disagrees;
    if tickets != [] {
      var front, last := tickets[..|tickets| - 1], tickets[|tickets| - 1];
      MismatchesMeaning(x, front, broker, db, priceTol, volumeTol);
      MismatchMeaning(x, last, broker[last], db[last], priceTol, volumeTol);
      assert tickets == front + [last];
    }
  }

  lemma {:induction false} PendingMeaning(x: Issue, table: Table, ids: seq<nat>, broker: map<nat, Position>)
    requires forall k :: 0 <= k < |ids| ==> ids[k] in table
    ensures x in PendingIssues(table, ids, broker) <==> exists k :: 0 <= k < |ids| && x == PendingIssue(table[ids[k]], broker)
  {
    hide PendingIssue;
    if ids != [] {
      PendingMeaning(x, table, ids[..|ids| - 1], broker);
      assert ids == ids[..|ids| - 1] + [ids[|ids| - 1]];
    }
  }

  /** A PENDING row of the instance (of any, if none is named) opened more than five minutes ago,
      with this ticket, or none where `t` is zero. */
  predicate StaleUnder(row: Row, inst: Inst, now: int, t: nat) {
    && row.trade.outcome == TradePending && now - row.trade.openedAt > 300 && (inst == "" || row.trade.inst == inst)
    && (row.trade.ticket == Some(t) || (t == 0 && row.trade.ticket.None?))
  }

  /** What has to be the case for an issue to be raised. */
  ghost predicate Warranted(x: Issue, table: Table, broker: map<nat, Position>, db: map<nat, Row>, inst: Inst, now: int, priceTol: real, volumeTol: real) {
    match x.kind
    case BrokerError => false
    case DbError => false
    case OrphanedBroker => x.critical && !x.resolved && x.ticket in broker && x.ticket !in db
    case OrphanedDb => !x.critical && !x.resolved && x.ticket in db && x.ticket !in broker
    case PendingPromoted =>
      !x.critical && x.resolved && x.ticket != 0 && x.ticket in broker
      && exists tid :: tid in table && StaleUnder(table[tid], inst, now, x.ticket)
    case OrphanedPending =>
      x.critical && !x.resolved && (x.ticket == 0 || x.ticket !in broker)
      && exists tid :: tid in table && StaleUnder(table[tid], inst, now, x.ticket)
    case _ =>
      !x.critical && !x.resolved && x.ticket in broker && x.ticket in db
      && Disagrees(x.kind, broker[x.ticket], db[x.ticket], priceTol, volumeTol)
  }

  /** A full comparison raises exactly the issues that are warranted. */
  lemma FindingsMeaning(x: Issue, table: Table, ps: seq<Position>, o: Orders, inst: Inst, now: int, priceTol: real, volumeTol: real)
    requires FairOrders(table, ps, o, inst, now)
    ensures x in Findings(table, ps, o, priceTol, volumeTol)
       <==> Warranted(x, table, ByTicket(ps), OpenByTicket(table, o.open), inst, now, priceTol, volumeTol)
  {
    var broker, db := ByTicket(ps), OpenByTicket(table, o.open);
    OrphanParts(x, table, ps, o, inst, now);
    MismatchesMeaning(x, o.common, broker, db, priceTol, volumeTol);
    StaleMeaning(x, table, o.stale, broker, inst, now);
    assert x.ticket in o.common <==> x.ticket in broker && x.ticket in db;
    WarrantedParts(x, table, broker, db, inst, now, priceTol, volumeTol);
    hide ByTicket, OpenByTicket, BrokerIssues, DbIssues, MismatchIssues, PendingIssues, StaleUnder, FairOrders, Disagrees, Warranted;
    var a, b := BrokerIssues(Tickets(ps), db), DbIssues(o.dbTickets, broker);
    var c, d := MismatchIssues(o.common, broker, db, priceTol, volumeTol), PendingIssues(table, o.stale, broker);
    assert x in Findings(table, ps, o, priceTol, volumeTol) <==> x in a || x in b || x in c || x in d;
    hide Findings;
  }

  lemma WarrantedParts(x: Issue, table: Table, broker: map<nat, Position>, db: map<nat, Row>, inst: Inst, now: int, priceTol: real, volumeTol: real)
    ensures Warranted(x, table, broker, db, inst, now, priceTol, volumeTol) <==>
      || (x == Issue(x.ticket, OrphanedBroker, true, false) && x.ticket in broker && x.ticket !in db)
      || (x == Issue(x.ticket, OrphanedDb, false, false) && x.ticket in db && x.ticket !in broker)
      || (x == Issue(x.ticket, x.kind, false, false) && x.ticket in broker && x.ticket in db
          && Disagrees(x.kind, broker[x.ticket], db[x.ticket], priceTol, volumeTol))
      || (x == (if x.ticket != 0 && x.ticket in broker then Issue(x.ticket, PendingPromoted, false, true)
                else Issue(x.ticket, OrphanedPending, true, false))
          && exists tid :: tid in table && StaleUnder(table[tid], inst, now, x.ticket))
  {
    hide StaleUnder, Differs;
  }

  lemma OrphanParts(x: Issue, table: Table, ps: seq<Position>, o: Orders, inst: Inst, now: int)
    requires FairOrders(table, ps, o, inst, now)
    ensures var broker, db := ByTicket(ps), OpenByTicket(table, o.open);
            && (x in BrokerIssues(Tickets(ps), db) <==> x == Issue(x.ticket, OrphanedBroker, true, false) && x.ticket in broker && x.ticket !in db)
            && (x in DbIssues(o.dbTickets, broker) <==> x == Issue(x.ticket, OrphanedDb, false, false) && x.ticket in db && x.ticket !in broker)
  {
    var broker, db := ByTicket(ps), OpenByTicket(table, o.open);
    TicketsAreKeys(ps);
    OrphansMeaning(x, Tickets(ps), broker, db);
    OrphansMeaning(x, o.dbTickets, broker, db);
    hide ByTicket, OpenByTicket, Tickets, BrokerIssues, DbIssues;
  }

  lemma StaleMeaning(x: Issue, table: Table, stale: seq<nat>, broker: map<nat, Position>, inst: Inst, now: int)
    requires Enumerates(stale, StaleIds(table, inst, now))
    ensures x in PendingIssues(table, stale, broker) <==>
      && x == (if x.ticket != 0 && x.ticket in broker then Issue(x.ticket, PendingPromoted, false, true)
               else Issue(x.ticket, OrphanedPending, true, false))
      && exists tid :: tid in table && StaleUnder(table[tid], inst, now, x.ticket)
  {
    PendingMeaning(x, table, stale, broker);
    if k :| 0 <= k < |stale| && x == PendingIssue(table[stale[k]], broker) {
      assert stale[k] in StaleIds(table, inst, now) && StaleUnder(table[stale[k]], inst, now, x.ticket);
    }
    if tid :| tid in table && StaleUnder(table[tid], inst, now, x.ticket) {
      assert tid in StaleIds(table, inst, now) && tid in stale;
      var k :| 0 <= k < |stale| && stale[k] == tid;
    }
  }

  predicate HasOpenRow(table: Table, inst: Inst, t: nat) {
    t != 0 && exists tid :: tid in table && IsOpenRow(table[tid], inst) && RowTicket(table[tid]) == t
  }

  /** Some position has no OPEN row under its ticket. */
  ghost predicate AnyOrphan(table: Table, broker: map<nat, Position>, inst: Inst) {
    exists t :: t in broker && !HasOpenRow(table, inst, t)
  }

  ghost predicate AnyLostPending(table: Table, broker: map<nat, Position>, inst: Inst, now: int) {
    exists tid :: tid in table && IsStaleRow(table[tid], inst, now) && !AtBroker(table[tid], broker)
  }

  /** One of the rows has no position. */
  predicate LostAmong(table: Table, ids: seq<nat>, broker: map<nat, Position>)
    requires forall k :: 0 <= k < |ids| ==> ids[k] in table
  {
    exists k :: 0 <= k < |ids| && !AtBroker(table[ids[k]], broker)
  }

  /** The report is critical exactly when a position has no OPEN row under its ticket or one of the
      stale PENDING rows that were looked at has no position; no mismatch and no closed position
      ever is, and stale rows that were not looked at are not held against the start. */
  lemma CriticalIff(table: Table, ps: seq<Position>, o: Orders, inst: Inst, now: int, priceTol: real, volumeTol: real, n: nat)
    requires FairOrders(table, ps, o, inst, now) && n <= |o.stale|
    ensures HasCritical(Findings(table, ps, o.(stale := o.stale[..n]), priceTol, volumeTol))
            <==> AnyOrphan(table, ByTicket(ps), inst) || LostAmong(table, o.stale[..n], ByTicket(ps))
    ensures n == |o.stale| ==> (LostAmong(table, o.stale[..n], ByTicket(ps)) <==> AnyLostPending(table, ByTicket(ps), inst, now))
  {
    var broker, db := ByTicket(ps), OpenByTicket(table, o.open);
    var a, b := BrokerIssues(Tickets(ps), db), DbIssues(o.dbTickets, broker);
    var c := MismatchIssues(o.common, broker, db, priceTol, volumeTol);
    var d := PendingIssues(table, o.stale[..n], broker);
    CriticalAppend(a + b + c, d);
    CriticalAppend(a + b, c);
    CriticalAppend(a, b);
    DbIssuesHarmless(o.dbTickets, broker);
    MismatchesHarmless(o.common, broker, db, priceTol, volumeTol);
    OrphansFound(table, ps, o.open, inst);
    PendingIssuesCritical(table, o.stale[..n], broker);
    AllLooked(table, ps, o.stale, inst, now, n);
    hide BrokerIssues, DbIssues, MismatchIssues, PendingIssues, AnyOrphan, AnyLostPending;
  }

  lemma AllLooked(table: Table, ps: seq<Position>, stale: seq<nat>, inst: Inst, now: int, n: nat)
    requires Enumerates(stale, StaleIds(table, inst, now)) && n <= |stale|
    ensures n == |stale| ==> (LostAmong(table, stale[..n], ByTicket(ps)) <==> AnyLostPending(table, ByTicket(ps), inst, now))
  {
    assert stale[..|stale|] == stale;
    if tid :| tid in table && IsStaleRow(table[tid], inst, now) && !AtBroker(table[tid], ByTicket(ps)) {
      assert tid in StaleIds(table, inst, now) && tid in stale;
    }
  }

  lemma OrphansFound(table: Table, ps: seq<Position>, open: seq<nat>, inst: Inst)
    requires Enumerates(open, OpenIds(table, inst))
    ensures HasCritical(BrokerIssues(Tickets(ps), OpenByTicket(table, open))) <==> AnyOrphan(table, ByTicket(ps), inst)
  {
    var broker, db := ByTicket(ps), OpenByTicket(table, open);
    TicketsAreKeys(ps);
    BrokerIssuesCritical(Tickets(ps), db);
    IndexedIff(table, open, inst);
    hide HasOpenRow, Enumerates, HasCritical, BrokerIssues, OpenByTicket, ByTicket;
    if t :| t in broker && t !in db {
      var k :| 0 <= k < |Tickets(ps)| && Tickets(ps)[k] == t;
    }
  }

  lemma IndexedIff(table: Table, open: seq<nat>, inst: Inst)
    requires Enumerates(open, OpenIds(table, inst))
    ensures forall t :: t in OpenByTicket(table, open) <==> HasOpenRow(table, inst, t)
  {
    OpenByTicketMeaning(table, open);
    forall t ensures t in OpenByTicket(table, open) <==> HasOpenRow(table, inst, t) {
      if tid :| tid in table && IsOpenRow(table[tid], inst) && RowTicket(table[tid]) == t {
        assert tid in OpenIds(table, inst) && tid in open;
      }
    }
  }

  // ---------------------------------------------------------------- and in the protocol

  /** The broker lists exactly the open positions of the instance. */
  ghost predicate Truthful(w: World, inst: Inst, broker: map<nat, Position>) {
    forall t :: t in broker <==> t in w.positions && w.positions[t] == inst
  }

  ghost predicate TableOf(w: World, table: Table) {
    table.Keys == w.trades.Keys && forall tid :: tid in table ==> table[tid].trade == w.trades[tid]
  }

  /** On a truthful snapshot of any reachable state reconciliation is critical exactly when the
      state machine's gate says so, and it promotes nothing. */
  lemma ReconciliationIsTheGate(acts: seq<Act>, inst: Inst, table: Table, ps: seq<Position>, o: Orders, priceTol: real, volumeTol: real)
    requires inst != "" && TableOf(Run(acts), table) && Truthful(Run(acts), inst, ByTicket(ps))
    requires FairOrders(table, ps, o, inst, Run(acts).now)
    ensures HasCritical(Findings(table, ps, o, priceTol, volumeTol)) <==> ReconcileCritical(Run(acts), inst)
    ensures Promote(table, StaleIds(table, inst, Run(acts).now), ByTicket(ps)) == table
    ensures forall q: PendingQuery :: q.Readable? ==> Seen(table, o.stale, ByTicket(ps), q) == |o.stale|
  {
    var w, broker := Run(acts), ByTicket(ps);
    hide Run, Findings, HasCritical, AnyOrphan, AnyLostPending, LostAmong;
    assert o.(stale := o.stale[..|o.stale|]) == o;
    CriticalIff(table, ps, o, inst, w.now, priceTol, volumeTol, |o.stale|);
    ReachableRows(acts);
    OrphansAgree(w, inst, table, broker);
    StaleAgree(w, inst, table, broker);
    forall q: PendingQuery | q.Readable? ensures Seen(table, o.stale, broker, q) == |o.stale| {
      SeenMeaning(table, o.stale, broker, q);
    }
  }

  lemma StaleAgree(w: World, inst: Inst, table: Table, broker: map<nat, Position>)
    requires inst != "" && TableOf(w, table)
    requires forall tid :: tid in w.trades && w.trades[tid].outcome == TradePending ==> w.trades[tid].ticket.None?
    ensures AnyLostPending(table, broker, inst, w.now)
            <==> exists tid :: tid in w.trades && w.trades[tid].inst == inst && Stale(w, tid) && !SeenAtBroker(w, inst, w.trades[tid].ticket)
    ensures Promote(table, StaleIds(table, inst, w.now), broker) == table
    ensures forall tid :: tid in StaleIds(table, inst, w.now) ==> !AtBroker(table[tid], broker)
  {
    forall tid | tid in table
      ensures IsStaleRow(table[tid], inst, w.now) <==> w.trades[tid].inst == inst && Stale(w, tid)
      ensures IsStaleRow(table[tid], inst, w.now) ==> !AtBroker(table[tid], broker)
    {
      assert table[tid].trade == w.trades[tid];
    }
  }

  lemma OrphansAgree(w: World, inst: Inst, table: Table, broker: map<nat, Position>)
    requires inst != "" && TableOf(w, table) && Truthful(w, inst, broker) && 0 !in w.positions
    ensures AnyOrphan(table, broker, inst) <==> exists t :: t in w.positions && w.positions[t] == inst && !OpenRowFor(w, inst, t)
  {
    forall t: nat | t != 0 ensures OpenRowFor(w, inst, t) <==> HasOpenRow(table, inst, t) {
      OpenRowAgrees(w, inst, table, t);
    }
    hide OpenRowFor, HasOpenRow;
  }

  lemma OpenRowAgrees(w: World, inst: Inst, table: Table, t: nat)
    requires inst != "" && TableOf(w, table) && t != 0
    ensures OpenRowFor(w, inst, t) <==> HasOpenRow(table, inst, t)
  {
    if OpenRowFor(w, inst, t) {
      var tid :| tid in w.trades && w.trades[tid].inst == inst && w.trades[tid].outcome == TradeOpen && w.trades[tid].ticket == Some(t);
      assert table[tid].trade == w.trades[tid];
      assert IsOpenRow(table[tid], inst);
    }
    if tid :| tid in table && IsOpenRow(table[tid], inst) && RowTicket(table[tid]) == t {
      assert table[tid].trade == w.trades[tid];
    }
  }

  lemma ReachableRows(acts: seq<Act>)
    ensures 0 !in Run(acts).positions
    ensures forall tid :: tid in Run(acts).trades && Run(acts).trades[tid].outcome == TradePending ==> Run(acts).trades[tid].ticket.None?
  {
    RunInv(acts);
    var w := Run(acts);
    forall tid | tid in w.trades && w.trades[tid].outcome == TradePending ensures w.trades[tid].ticket.None? {
      assert tid in w.rowOwner && RowShape(w.orders[w.rowOwner[tid]], w.hist[w.rowOwner[tid]], w.trades[tid]);
    }
  }
}
