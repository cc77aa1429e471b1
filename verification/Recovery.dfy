/** Startup recovery of non-terminal order records (execution/recovery.py, db/repositories/order_repo.py). */
module Recovery {
  import opened Broker
  import opened Enumeration
  import opened OrderState
  import opened Wrappers
  import Protocol
  import ProtocolInvariant
  import ProtocolTheorems

  type Inst = Protocol.Inst

  /** An order record with the columns recovery writes beside the order itself. */
  datatype Row = Row(order: Protocol.Order, fillPrice: Option<real>, fillVolume: Option<real>, note: Note)

  datatype Note = NoNote | TicketWithoutPosition(ticket: nat) | NoTicket

  type Table = map<nat, Row>

  datatype Kind = BrokerQueryFailed | BrokerMatchPromoted | RecoveryPending

  datatype Issue = Issue(oid: Option<nat>, kind: Kind, critical: bool, ticket: Option<nat>, resolved: bool)

  datatype Report = Report(total: nat, resolved: nat, unresolved: nat, issues: seq<Issue>)

  predicate HasCritical(issues: seq<Issue>) { exists k :: 0 <= k < |issues| && issues[k].critical }

  /** The records a recovery of `inst` looks at; an empty name selects every instance. */
  predicate Selected(row: Row, inst: Inst) {
    Protocol.NonTerminal(row.order.status) && (inst == "" || row.order.inst == inst)
  }

  function SelectedIds(table: Table, inst: Inst): set<nat> { set oid | oid in table && Selected(table[oid], inst) }

  /** The open position under the record's ticket; a ticket of zero counts as none. */
  function Match(row: Row, byTicket: map<nat, Position>): Option<Position> {
    if row.order.ticket.Some? && row.order.ticket.value != 0 && row.order.ticket.value in byTicket
    then Some(byTicket[row.order.ticket.value]) else None
  }

  /** The row recovery leaves behind. */
  function Resolve(row: Row, byTicket: map<nat, Position>): Row {
    match Match(row, byTicket)
    case Some(p) => Row(row.order.(status := FILLED, ticket := Some(p.ticket)), Some(p.price), Some(p.volume), NoNote)
    case None =>
      var note := if row.order.ticket.Some? && row.order.ticket.value != 0
                  then TicketWithoutPosition(row.order.ticket.value) else NoTicket;
      row.(order := row.order.(status := RECOVERY_PENDING), note := note)
  }

  function IssueFor(oid: nat, row: Row, byTicket: map<nat, Position>): Issue {
    match Match(row, byTicket)
    case Some(p) => Issue(Some(oid), BrokerMatchPromoted, false, Some(p.ticket), true)
    case None => Issue(Some(oid), RecoveryPending, true, row.order.ticket, false)
  }

  function ResolveAll(table: Table, ids: set<nat>, byTicket: map<nat, Position>): Table {
    map oid | oid in table :: if oid in ids then Resolve(table[oid], byTicket) else table[oid]
  }

  function Matched(table: Table, ids: set<nat>, byTicket: map<nat, Position>): set<nat> {
    set oid | oid in ids && oid in table && Match(table[oid], byTicket).Some?
  }

  /** One database session over the order table. */
  class OrderSession {
    var table: Table

    constructor (committed: Table)
      ensures table == committed
    {
      table := committed;
    }

    method UpdateStatus(oid: nat, status: State, ticket: Option<nat>, fill: Option<(real, real)>, note: Note) returns (ok: bool)
      modifies this
      ensures ok == (oid in old(table))
      ensures !ok ==> table == old(table)
      ensures ok ==>
        var row := old(table)[oid];
        table == old(table)[oid :=
          Row(row.order.(status := status, ticket := if ticket.Some? then ticket else row.order.ticket),
              if fill.Some? then Some(fill.value.0) else row.fillPrice,
              if fill.Some? then Some(fill.value.1) else row.fillVolume,
              note)]
    {
      if oid !in table {
        return false;
      }
      var row := table[oid];
      row := row.(order := row.order.(status := status), note := note);
      if ticket.Some? {
        row := row.(order := row.order.(ticket := ticket));
      }
      if fill.Some? {
        row := row.(fillPrice := Some(fill.value.0), fillVolume := Some(fill.value.1));
      }
      table := table[oid := row];
      return true;
    }

    method SetErrorMessage(oid: nat, note: Note) returns (ok: bool)
      modifies this
      ensures ok == (oid in old(table))
      ensures !ok ==> table == old(table)
      ensures ok ==> table == old(table)[oid := old(table)[oid].(note := note)]
    {
      if oid !in table {
        return false;
      }
      table := table[oid := table[oid].(note := note)];
      return true;
    }

    /** In no particular order. */
    method GetNonTerminal(inst: Inst) returns (ids: seq<nat>)
      ensures Enumerates(ids, SelectedIds(table, inst))
    {
      ids := [];
      var rest := table.Keys;
      while rest != {}
        invariant rest <= table.Keys
        invariant Enumerates(ids, SelectedIds(table, inst) - rest)
        decreases rest
      {
        var oid :| oid in rest;
        rest := rest - {oid};
        if Selected(table[oid], inst) {
          ids := ids + [oid];
        }
      }
      assert SelectedIds(table, inst) - rest == SelectedIds(table, inst);
    }

    /** Resolves every selected record against the open positions.  A broker that cannot be asked
        leaves all of them alone and is itself critical. */
    method RecoverStartupOrders(inst: Inst, broker: Result<seq<Position>, string>) returns (report: Report, ghost ids: seq<nat>)
      modifies this
      ensures Enumerates(ids, SelectedIds(old(table), inst)) && report.total == |ids|
      ensures ids == [] ==> table == old(table) && report == Report(0, 0, 0, [])
      ensures ids != [] && broker.Err? ==>
        table == old(table) && report == Report(|ids|, 0, |ids|, [Issue(None, BrokerQueryFailed, true, None, false)])
      ensures ids != [] && broker.Ok? ==>
        var byTicket := ByTicket(broker.value);
        && table == ResolveAll(old(table), SelectedIds(old(table), inst), byTicket)
        && report.issues == IssuesFor(old(table), ids, byTicket)
        && report.resolved == |Matched(old(table), SelectedIds(old(table), inst), byTicket)|
        && report.resolved + report.unresolved == report.total
    {
      ids := [];
      var records := GetNonTerminal(inst);
      ids := records;
      report := Report(|records|, 0, 0, []);
      if records == [] {
        return;
      }
      if broker.Err? {
        report := report.(unresolved := |records|, issues := [Issue(None, BrokerQueryFailed, true, None, false)]);
        return;
      }
      var byTicket := ByTicket(broker.value);
      ghost var before := table;
      for k := 0 to |records|
        invariant table == ResolveAll(before, Firsts(records, k), byTicket)
        invariant report.total == |records|
        invariant report.issues == IssuesFor(before, records[..k], byTicket)
        invariant report.resolved == |Matched(before, Firsts(records, k), byTicket)|
        invariant report.resolved + report.unresolved == k
      {
        var oid := records[k];
        var row := table[oid];
        NextRecord(before, records, k, byTicket);
        var position := if row.order.ticket.Some? && row.order.ticket.value != 0 && row.order.ticket.value in byTicket
                        then Some(byTicket[row.order.ticket.value]) else None;
        if position.Some? {
          var p := position.value;
          var _ := UpdateStatus(oid, FILLED, Some(p.ticket), Some((p.price, p.volume)), NoNote);
          report := report.(resolved := report.resolved + 1,
                            issues := report.issues + [Issue(Some(oid), BrokerMatchPromoted, false, Some(p.ticket), true)]);
        } else {
          var note := if row.order.ticket.Some? && row.order.ticket.value != 0
                      then TicketWithoutPosition(row.order.ticket.value) else NoTicket;
          if row.order.status != RECOVERY_PENDING {
            var _ := UpdateStatus(oid, RECOVERY_PENDING, None, None, note);
          } else {
            var _ := SetErrorMessage(oid, note);
          }
          report := report.(unresolved := report.unresolved + 1,
                            issues := report.issues + [Issue(Some(oid), RecoveryPending, true, row.order.ticket, false)]);
        }
      }
      assert records[..|records|] == records;
      assert Firsts(records, |records|) == SelectedIds(before, inst);
    }
  }

  function Firsts(ids: seq<nat>, n: nat): set<nat>
    requires n <= |ids|
  {
    set k | 0 <= k < n :: ids[k]
  }

  function IssuesFor(table: Table, ids: seq<nat>, byTicket: map<nat, Position>): seq<Issue>
    requires forall k :: 0 <= k < |ids| ==> ids[k] in table
  {
    seq(|ids|, k requires 0 <= k < |ids| => IssueFor(ids[k], table[ids[k]], byTicket))
  }

  lemma NextRecord(table: Table, ids: seq<nat>, k: nat, byTicket: map<nat, Position>)
    requires k < |ids| && forall j :: 0 <= j < |ids| ==> ids[j] in table
    requires forall i, j :: 0 <= i < j < |ids| ==> ids[i] != ids[j]
    ensures ids[k] !in Firsts(ids, k)
    ensures ResolveAll(table, Firsts(ids, k + 1), byTicket)
            == ResolveAll(table, Firsts(ids, k), byTicket)[ids[k] := Resolve(table[ids[k]], byTicket)]
    ensures IssuesFor(table, ids[..k + 1], byTicket)
            == IssuesFor(table, ids[..k], byTicket) + [IssueFor(ids[k], table[ids[k]], byTicket)]
    ensures |Matched(table, Firsts(ids, k + 1), byTicket)|
            == |Matched(table, Firsts(ids, k), byTicket)| + if Match(table[ids[k]], byTicket).Some? then 1 else 0
  {
    hide Match, Resolve, IssueFor;
    assert Firsts(ids, k + 1) == Firsts(ids, k) + {ids[k]};
    CountMatch(table, Firsts(ids, k), ids[k], byTicket);
    ResolveOne(table, Firsts(ids, k), ids[k], byTicket);
  }

  lemma ResolveOne(table: Table, ids: set<nat>, oid: nat, byTicket: map<nat, Position>)
    requires oid in table
    ensures ResolveAll(table, ids + {oid}, byTicket) == ResolveAll(table, ids, byTicket)[oid := Resolve(table[oid], byTicket)]
  {
  }

  lemma CountMatch(table: Table, ids: set<nat>, oid: nat, byTicket: map<nat, Position>)
    requires oid in table && oid !in ids
    ensures |Matched(table, ids + {oid}, byTicket)|
            == |Matched(table, ids, byTicket)| + if Match(table[oid], byTicket).Some? then 1 else 0
  {
    var was, now := Matched(table, ids, byTicket), Matched(table, ids + {oid}, byTicket);
    assert now == if Match(table[oid], byTicket).Some? then was + {oid} else was;
  }

  // ---------------------------------------------------------------- what a recovery achieves

  /** The row left behind by a recovery, column by column, for the last position `ps[k]` listed under
      the record's ticket, if one is. */
  lemma ResolvedWithPosition(table: Table, inst: Inst, ps: seq<Position>, oid: nat, k: nat)
    requires oid in table && oid in SelectedIds(table, inst) && LastOfTicket(ps, k)
    requires table[oid].order.ticket == Some(ps[k].ticket) && ps[k].ticket != 0
    ensures var was := table[oid];
            ResolveAll(table, SelectedIds(table, inst), ByTicket(ps))[oid]
            == Row(was.order.(status := FILLED), Some(ps[k].price), Some(ps[k].volume), NoNote)
    ensures IssueFor(oid, table[oid], ByTicket(ps)) == Issue(Some(oid), BrokerMatchPromoted, false, Some(ps[k].ticket), true)
  {
    ByTicketIsLast(ps, k);
  }

  /** Without such a position the record waits for an operator, says why, and keeps its fill. */
  lemma ResolvedWithoutPosition(table: Table, inst: Inst, ps: seq<Position>, oid: nat)
    requires oid in table && oid in SelectedIds(table, inst)
    requires var t := table[oid].order.ticket; t.None? || t.value == 0 || forall k :: 0 <= k < |ps| ==> ps[k].ticket != t.value
    ensures var was, t := table[oid], table[oid].order.ticket;
            ResolveAll(table, SelectedIds(table, inst), ByTicket(ps))[oid]
            == Row(was.order.(status := RECOVERY_PENDING), was.fillPrice, was.fillVolume,
                   if t == None || t == Some(0) then NoTicket else TicketWithoutPosition(t.value))
    ensures IssueFor(oid, table[oid], ByTicket(ps)) == Issue(Some(oid), RecoveryPending, true, table[oid].order.ticket, false)
  {
    TicketsAreKeys(ps);
  }

  /** A record is looked at exactly if it is short of a final status and belongs to the instance, or
      no instance is named; all others stay as they are. */
  lemma SelectedMeaning(table: Table, inst: Inst, byTicket: map<nat, Position>, oid: nat)
    requires oid in table
    ensures oid in SelectedIds(table, inst) <==>
      table[oid].order.status !in {FILLED, CANCELLED, REJECTED, FAILED} && (inst == "" || table[oid].order.inst == inst)
    ensures var after := ResolveAll(table, SelectedIds(table, inst), byTicket);
            after.Keys == table.Keys && (oid !in SelectedIds(table, inst) ==> after[oid] == table[oid])
  {
  }

  /** The report is critical exactly when some selected record has no open position under its
      ticket, and otherwise the session leaves no selected record non-terminal. */
  lemma CriticalIffUnmatched(table: Table, inst: Inst, ids: seq<nat>, byTicket: map<nat, Position>)
    requires Enumerates(ids, SelectedIds(table, inst))
    ensures HasCritical(IssuesFor(table, ids, byTicket))
            <==> exists oid :: oid in SelectedIds(table, inst) && Match(table[oid], byTicket).None?
    ensures HasCritical(IssuesFor(table, ids, byTicket))
            <==> exists oid :: oid in table && Selected(ResolveAll(table, SelectedIds(table, inst), byTicket)[oid], inst)
  {
    var after := ResolveAll(table, SelectedIds(table, inst), byTicket);
    var issues := IssuesFor(table, ids, byTicket);
    if HasCritical(issues) {
      var k :| 0 <= k < |issues| && issues[k].critical;
      assert ids[k] in SelectedIds(table, inst) && Match(table[ids[k]], byTicket).None?;
    }
    forall oid | oid in table ensures Selected(after[oid], inst) <==>
      oid in SelectedIds(table, inst) && Match(table[oid], byTicket).None?
    {
    }
    if oid :| oid in SelectedIds(table, inst) && Match(table[oid], byTicket).None? {
      var k :| 0 <= k < |ids| && ids[k] == oid;
      assert issues[k].critical;
      assert Selected(after[oid], inst);
    }
  }

  /** Recovery reaches FILLED only from a record that already holds the ticket of an open
      position; every other status it writes is the restart state; both are the only changes. */
  lemma RecoveryEdges(table: Table, inst: Inst, byTicket: map<nat, Position>, oid: nat)
    requires oid in table && forall t :: t in byTicket ==> byTicket[t].ticket == t
    ensures var before, after := table[oid].order, ResolveAll(table, SelectedIds(table, inst), byTicket)[oid].order;
            && after.cid == before.cid && after.inst == before.inst && after.ticket == before.ticket
            && (after.status != before.status ==>
                  Selected(table[oid], inst) &&
                  if Match(table[oid], byTicket).Some? then after.status == FILLED && before.ticket.Some? && before.ticket.value in byTicket
                  else after.status == RECOVERY_PENDING)
  {
  }

  /** Recovering twice against the same positions changes nothing the second time. */
  lemma RecoveryIsIdempotent(table: Table, inst: Inst, byTicket: map<nat, Position>)
    requires forall t :: t in byTicket ==> byTicket[t].ticket == t
    ensures var once := ResolveAll(table, SelectedIds(table, inst), byTicket);
            ResolveAll(once, SelectedIds(once, inst), byTicket) == once
  {
    var once := ResolveAll(table, SelectedIds(table, inst), byTicket);
    var twice := ResolveAll(once, SelectedIds(once, inst), byTicket);
    forall oid | oid in table ensures twice[oid] == once[oid] {
    }
  }

  // ---------------------------------------------------------------- and in the protocol

  /** The broker lists exactly the open positions of the instance. */
  ghost predicate Truthful(w: Protocol.World, inst: Inst, byTicket: map<nat, Position>) {
    forall t :: t in byTicket <==> t in w.positions && w.positions[t] == inst
  }

  /** The order table of a protocol state. */
  ghost predicate TableOf(w: Protocol.World, table: Table) {
    table.Keys == w.orders.Keys && forall oid :: oid in table ==> table[oid].order == w.orders[oid]
  }

  /** On a truthful snapshot of any reachable state recovery is critical exactly when the state
      machine's gate says so. */
  lemma RecoveryIsTheGate(acts: seq<Protocol.Act>, inst: Inst, table: Table, ids: seq<nat>, byTicket: map<nat, Position>)
    requires inst != "" && TableOf(Protocol.Run(acts), table) && Truthful(Protocol.Run(acts), inst, byTicket)
    requires Enumerates(ids, SelectedIds(table, inst))
    ensures HasCritical(IssuesFor(table, ids, byTicket)) <==> Protocol.RecoveryCritical(Protocol.Run(acts), inst)
  {
    var w := Protocol.Run(acts);
    NoTicketZero(acts);
    hide Protocol.Run;
    CriticalIffUnmatched(table, inst, ids, byTicket);
    forall oid | oid in table ensures Match(table[oid], byTicket).Some? <==> Protocol.SeenAtBroker(w, inst, w.orders[oid].ticket) {
      assert table[oid].order == w.orders[oid];
    }
  }

  lemma NoTicketZero(acts: seq<Protocol.Act>)
    ensures 0 !in Protocol.Run(acts).positions
  {
    ProtocolInvariant.RunInv(acts);
  }

  /** In every reachable state each status recovery writes is either the restart state or the edge
      SENT to FILLED of the tracker's table, since only SENT records hold a ticket. */
  lemma RecoveryFollowsTheTable(acts: seq<Protocol.Act>, inst: Inst, table: Table, byTicket: map<nat, Position>, oid: nat)
    requires TableOf(Protocol.Run(acts), table) && oid in table
    requires forall t :: t in byTicket ==> byTicket[t].ticket == t
    ensures var before, after := table[oid].order.status, ResolveAll(table, SelectedIds(table, inst), byTicket)[oid].order.status;
            after == before || after == RECOVERY_PENDING
            || (before == SENT && after == FILLED && after in ValidTransitions(before))
  {
    if Selected(table[oid], inst) && table[oid].order.ticket.Some? {
      TicketMeansSent(acts, oid);
    }
    hide Protocol.Run;
    RecoveryEdges(table, inst, byTicket, oid);
  }

  lemma TicketMeansSent(acts: seq<Protocol.Act>, oid: nat)
    requires oid in Protocol.Run(acts).orders && Protocol.Run(acts).orders[oid].ticket.Some?
    requires Protocol.NonTerminal(Protocol.Run(acts).orders[oid].status)
    ensures Protocol.Run(acts).orders[oid].status == SENT
  {
    hide Protocol.Run;
    ProtocolTheorems.HistCovers(acts);
    ProtocolTheorems.HistShape(acts, oid);
  }
}
