/** What the execution protocol guarantees in every state of every run. */
module ProtocolTheorems {
  import opened OrderState
  import opened Protocol
  import opened ProtocolInvariant
  import opened ProtocolFrames
  import opened Wrappers

  // ---------------------------------------------------------------- the lease

  /** Two instances are inside the same symbol's critical section only when the older of the two
      stamps has outlived the lease. */
  lemma LeaseSafety(acts: seq<Act>, i: Inst, j: Inst)
    requires i != j && Holds(PcOf(Run(acts), i)) && Holds(PcOf(Run(acts), j))
    requires PcOf(Run(acts), i).claim.sym == PcOf(Run(acts), j).claim.sym
    ensures var first := PcOf(Run(acts), i).claim.since;
            var second := PcOf(Run(acts), j).claim.since;
            Run(acts).now - (if first <= second then first else second) > LOCK_TTL
  {
    RunInv(acts);
    var w := Run(acts);
    assert LockShape(w.now, w.locks, i, w.procs[i]);
    assert LockShape(w.now, w.locks, j, w.procs[j]);
  }

  /** A holder whose lease is still running has its own row in the table. */
  lemma LiveLeaseHasRow(acts: seq<Act>, i: Inst)
    requires Holds(PcOf(Run(acts), i)) && Run(acts).now - PcOf(Run(acts), i).claim.since <= LOCK_TTL
    ensures var claim := PcOf(Run(acts), i).claim;
            claim.sym in Run(acts).locks && Run(acts).locks[claim.sym] == Lock(i, claim.since)
  {
    RunInv(acts);
    assert LockShape(Run(acts).now, Run(acts).locks, i, Run(acts).procs[i]);
  }

  /** A lock row leaves the table in two ways only: the release of the very call that wrote it,
      or a sweep by a call whose clock reading is more than the lease beyond the row's stamp.  A
      late release therefore never touches a successor's row. */
  lemma RowsLeaveOnlyByOwnerOrExpiry(acts: seq<Act>, a: Act, sym: Symbol)
    requires sym in Run(acts).locks
    requires var after := Step(Run(acts), a); sym !in after.locks || after.locks[sym] != Run(acts).locks[sym]
    ensures var w := Run(acts);
            || (a.Release? && PcOf(w, a.i).Releasing? && PcOf(w, a.i).claim.sym == sym
                && w.locks[sym] == Lock(a.i, PcOf(w, a.i).claim.since) && Step(w, a).locks == w.locks - {sym})
            || (a.TryLock? && PcOf(w, a.i).Locking? && PcOf(w, a.i).claim.sym == sym
                && PcOf(w, a.i).claim.since - w.locks[sym].at > LOCK_TTL
                && Step(w, a).locks == w.locks[sym := Lock(a.i, PcOf(w, a.i).claim.since)])
  {
    RunInv(acts);
    var w := Run(acts);
    LockRowLeaves(w, a, sym);
    if a.Release? && PcOf(w, a.i).Releasing? {
      assert LockShape(w.now, w.locks, a.i, w.procs[a.i]);
    }
  }

  lemma LockRowLeaves(w: World, a: Act, sym: Symbol)
    requires Inv(w) && sym in w.locks
    requires sym !in Step(w, a).locks || Step(w, a).locks[sym] != w.locks[sym]
    ensures || (a.Release? && PcOf(w, a.i).Releasing? && PcOf(w, a.i).claim.sym == sym
                && w.locks[sym].owner == a.i && Step(w, a).locks == w.locks - {sym})
            || (a.TryLock? && PcOf(w, a.i).Locking? && PcOf(w, a.i).claim.sym == sym
                && PcOf(w, a.i).claim.since - w.locks[sym].at > LOCK_TTL
                && Step(w, a).locks == w.locks[sym := Lock(a.i, PcOf(w, a.i).claim.since)])
  {
    if !a.TryLock? && !a.Release? {
      hide Step, Inv;
      StepFrame(w, a);
    } else {
      hide Inv, Put;
      assert Step(w, a) == OutsideStep(w, a);
      PutKeepsLocks(w, a.i, Idle);
    }
  }

  lemma PutKeepsLocks(w: World, i: Inst, pc: Pc)
    ensures forall v: World :: Put(v, i, pc).locks == v.locks
    ensures forall v: World, c: Claim :: Put(v, i, Locked(c)).locks == v.locks
  {
  }

  // ---------------------------------------------------------------- write-ahead and at-most-once

  predicate IntentRow(row: Trade, cid: Cid, i: Inst) {
    row.outcome == TradePending && row.ticket.None? && row.cid == cid && row.inst == i
  }

  /** A submission happens only by a broker call, and then the order is durably APPROVED and its
      trade row durably PENDING under the same client id, which was never submitted before. */
  lemma WriteAhead(acts: seq<Act>, a: Act)
    requires Step(Run(acts), a).calls != Run(acts).calls
    ensures a.CallBroker? && PcOf(Run(acts), a.i).Working?
    ensures var w := Run(acts);
            var pc := PcOf(w, a.i);
            var cid := pc.claim.cid;
            && pc.oid in w.orders && w.orders[pc.oid] == Order(APPROVED, None, cid, a.i)
            && pc.p.tid.Some? && pc.p.tid.value in w.trades
            && IntentRow(w.trades[pc.p.tid.value], cid, a.i)
            && w.calls[cid] == 0 && Step(w, a).calls == w.calls + multiset{cid}
  {
    RunInv(acts);
    OnlyCallsSubmit(Run(acts), a);
    var w := Run(acts);
    RunningFacts(w, a.i, PcOf(w, a.i));
  }

  lemma OnlyCallsSubmit(w: World, a: Act)
    requires Inv(w) && Step(w, a).calls != w.calls
    ensures a.CallBroker? && At(w, a.i, Journaled) && Step(w, a).calls == w.calls + multiset{PcOf(w, a.i).claim.cid}
  {
    StepFrame(w, a);
    hide Inv, Step;
    CallSubmits(w, a.i, a.reply);
  }

  lemma CallSubmits(w: World, i: Inst, reply: BrokerAnswer)
    ensures var v := Step(w, CallBroker(i, reply));
            v.calls != w.calls ==> At(w, i, Journaled) && v.calls == w.calls + multiset{PcOf(w, i).claim.cid}
  {
    hide OutsideStep, OrderWriteStep, WriteRowStep, PromoteStep, WriteOutcomeStep, CallStep;
    if At(w, i, Journaled) {
      BrokerCallSubmits(w, i, PcOf(w, i), reply);
    }
  }

  lemma BrokerCallSubmits(w: World, i: Inst, pc: Pc, reply: BrokerAnswer)
    requires pc.Working? && pc.oid in w.orders
    ensures CallStep(w, i, pc, reply).calls == w.calls
            || CallStep(w, i, pc, reply).calls == w.calls + multiset{pc.claim.cid}
  {
    hide Submit;
    match reply
    case Filled(t) => SubmitCounts(w, i, pc, Bought, Some(t), FAILED);
    case Failed(hasMessage, raised, position) =>
      var verdict := if hasMessage && !raised then REJECTED else FAILED;
      SubmitCounts(w, i, pc, Refused, None, verdict);
      SubmitCounts(Fault(w, i), i, pc, Refused, position, verdict);
  }

  lemma SubmitCounts(w: World, i: Inst, pc: Pc, stage: Stage, ticket: Option<nat>, verdict: State)
    requires pc.Working? && pc.oid in w.orders
    ensures Submit(w, i, pc, stage, ticket, verdict).calls == w.calls + multiset{pc.claim.cid}
  {
  }

  /** No client id is ever submitted twice, over all instances and restarts; and a client id has
      been submitted exactly when the execution that owns it has got past its journal. */
  lemma AtMostOnce(acts: seq<Act>, cid: Cid)
    ensures var w := Run(acts);
            && w.calls[cid] <= 1
            && (w.calls[cid] == 1 <==>
                  exists oid :: oid in w.orders && oid in w.hist && w.orders[oid].cid == cid && HasCalled(w.hist[oid]))
  {
    RunInv(acts);
    var w := Run(acts);
    assert w.hist.Keys == w.orders.Keys;
    if cid in w.calls {
      assert CidTaken(w.orders, cid);
      var oid :| oid in w.orders && w.orders[oid].cid == cid;
      assert oid in w.hist;
      assert w.calls[w.orders[oid].cid] == if HasCalled(w.hist[oid]) then 1 else 0;
      assert HasCalled(w.hist[oid]);
    } else {
      assert w.calls[cid] == 0;
    }
  }

  /** A ticket belongs to one execution: two order records never carry the same one, and neither
      do two trade rows. */
  lemma TicketsAreUnique(acts: seq<Act>)
    ensures var w := Run(acts);
            && (forall a, b :: a in w.orders && b in w.orders && a != b && w.orders[a].ticket.Some? ==>
                  w.orders[a].ticket != w.orders[b].ticket)
            && (forall s, t :: s in w.trades && t in w.trades && s != t && w.trades[s].ticket.Some? ==>
                  w.trades[s].ticket != w.trades[t].ticket)
  {
    RunInv(acts);
    var w := Run(acts);
    forall a | a in w.orders && w.orders[a].ticket.Some?
      ensures w.orders[a].ticket.value in w.ticketOwner && w.ticketOwner[w.orders[a].ticket.value] == a
    {
      assert OrderShape(w.orders[a], w.hist[a]);
      assert a in w.hist && w.hist[a].ticket == w.orders[a].ticket;
    }
    forall s | s in w.trades && w.trades[s].ticket.Some?
      ensures w.rowOwner[s] in w.hist && w.hist[w.rowOwner[s]].tid == Some(s)
      ensures w.trades[s].ticket.value in w.ticketOwner && w.ticketOwner[w.trades[s].ticket.value] == w.rowOwner[s]
    {
      assert s in w.rowOwner;
      assert RowShape(w.orders[w.rowOwner[s]], w.hist[w.rowOwner[s]], w.trades[s]);
    }
  }

  // ---------------------------------------------------------------- positions

  /** Positions disappear only by being closed at the broker, and an execution's ticket is set only
      by its submission. */
  ghost predicate PositionsFollow(w: World, v: World, a: Act) {
    && (forall t :: t in w.positions && a != BrokerCloses(t) ==> t in v.positions && v.positions[t] == w.positions[t])
    && (forall oid :: oid in v.hist && v.hist[oid].ticket.Some? && !(oid in w.hist && w.hist[oid].ticket == v.hist[oid].ticket) ==>
          v.hist[oid].ticket.value in v.positions)
  }

  lemma PositionsStep(w: World, a: Act)
    requires Inv(w)
    ensures PositionsFollow(w, Step(w, a), a)
  {
    hide Inv, Knows, PositionsFollow, OrderWriteStep, RowWriteStep, OutsideStep;
    InvKnows(w, if IsWork(a) then a.i else "");
    if IsOrderWrite(a) {
      OrderWritePositions(w, a);
    } else if IsRowWrite(a) {
      RowWritePositions(w, a);
    } else {
      OutsidePositions(w, a);
    }
  }

  /** A world that differs in neither positions nor tickets. */
  ghost predicate SameTickets(w: World, v: World) {
    v.positions == w.positions
    && forall oid :: oid in v.hist ==> v.hist[oid].ticket == (if oid in w.hist then w.hist[oid].ticket else None)
  }

  lemma SameTicketsFollow(w: World, v: World, a: Act)
    requires SameTickets(w, v)
    ensures PositionsFollow(w, v, a)
  {
  }

  /** The history of a running execution is what its instance knows. */
  predicate Knows(w: World, i: Inst) {
    PcOf(w, i).Working? ==> PcOf(w, i).oid in w.hist && w.hist[PcOf(w, i).oid] == PcOf(w, i).p
  }

  lemma InvKnows(w: World, i: Inst)
    requires Inv(w)
    ensures Knows(w, i) && w.positions.Keys <= w.ticketOwner.Keys && w.hist.Keys <= w.orders.Keys
  {
    if PcOf(w, i).Working? {
      assert ProcShape(w.orders, w.hist, i, w.procs[i]);
    }
  }

  lemma OrderWritePositions(w: World, a: Act)
    requires IsOrderWrite(a) && Knows(w, a.i)
    ensures PositionsFollow(w, OrderWriteStep(w, a), a)
  {
    hide WriteOrder, Abort, PositionsFollow, SameTickets;
    var pc := PcOf(w, a.i);
    SameAgain(w);
    if pc.Working? && pc.oid in w.orders {
      AbortTickets(w, a.i, pc.claim);
      var o := w.orders[pc.oid];
      match a
      case WriteApproved(i, _) => WriteOrderTickets(w, i, pc, o.(status := APPROVED), Approved);
      case WriteSent(i, _) => WriteOrderTickets(w, i, pc, o.(status := SENT, ticket := pc.p.ticket), SentWritten);
      case WriteFilled(i, _) => WriteOrderTickets(w, i, pc, o.(status := FILLED), Completed);
      case WriteClosed(i, _) => WriteOrderTickets(w, i, pc, o.(status := pc.verdict), Closed);
    }
    SameTicketsFollow(w, OrderWriteStep(w, a), a);
  }

  lemma SameAgain(w: World)
    ensures SameTickets(w, w)
  {
  }

  lemma AbortTickets(w: World, i: Inst, claim: Claim)
    ensures SameTickets(w, Abort(w, i, claim))
  {
  }

  lemma WriteOrderTickets(w: World, i: Inst, pc: Pc, o: Order, stage: Stage)
    requires pc.Working? && pc.oid in w.hist && w.hist[pc.oid] == pc.p
    ensures SameTickets(w, WriteOrder(w, i, pc, o, stage))
  {
  }

  lemma RowWritePositions(w: World, a: Act)
    requires IsRowWrite(a) && Knows(w, a.i) && w.positions.Keys <= w.ticketOwner.Keys
    ensures PositionsFollow(w, RowWriteStep(w, a), a)
  {
    hide PositionsFollow, SameTickets, WriteRowStep, CallStep, PromoteStep, WriteOutcomeStep, Abort;
    var pc := PcOf(w, a.i);
    SameAgain(w);
    SameTicketsFollow(w, w, a);
    if pc.Working? && pc.oid in w.orders {
      AbortTickets(w, a.i, pc.claim);
      match a
      case WriteRow(i, tid, ok) => WriteRowTickets(w, i, pc, tid, ok); SameTicketsFollow(w, RowWriteStep(w, a), a);
      case CallBroker(i, reply) => CallPositions(w, i, pc, reply, a);
      case PromoteRow(i, _) =>
        if HasRowIn(w, pc) { PromoteTickets(w, i, pc); }
        SameTicketsFollow(w, RowWriteStep(w, a), a);
      case WriteOutcome(i, ok) =>
        if HasRowIn(w, pc) { OutcomeTickets(w, i, pc, ok); }
        SameTicketsFollow(w, RowWriteStep(w, a), a);
    }
  }

  lemma WriteRowTickets(w: World, i: Inst, pc: Pc, tid: nat, ok: bool)
    requires pc.Working? && pc.oid in w.orders && pc.oid in w.hist && w.hist[pc.oid] == pc.p
    ensures SameTickets(w, WriteRowStep(w, i, pc, tid, ok))
  {
  }

  lemma PromoteTickets(w: World, i: Inst, pc: Pc)
    requires pc.Working? && pc.oid in w.orders && pc.oid in w.hist && w.hist[pc.oid] == pc.p && HasRowIn(w, pc)
    ensures SameTickets(w, PromoteStep(w, i, pc))
  {
  }

  lemma OutcomeTickets(w: World, i: Inst, pc: Pc, ok: bool)
    requires pc.Working? && pc.oid in w.orders && pc.oid in w.hist && w.hist[pc.oid] == pc.p && HasRowIn(w, pc)
    ensures SameTickets(w, WriteOutcomeStep(w, i, pc, ok))
  {
  }

  lemma CallPositions(w: World, i: Inst, pc: Pc, reply: BrokerAnswer, a: Act)
    requires pc.Working? && pc.oid in w.orders && pc.oid in w.hist && w.positions.Keys <= w.ticketOwner.Keys
    ensures PositionsFollow(w, CallStep(w, i, pc, reply), a)
  {
    hide Submit, PositionsFollow;
    SameTicketsFollow(w, w, a);
    match reply
    case Filled(t) => if FreshTicket(w, t) { SubmitPositions(w, i, pc, Bought, Some(t), FAILED, a); }
    case Failed(hasMessage, raised, position) =>
      var verdict := if hasMessage && !raised then REJECTED else FAILED;
      if position.None? {
        SubmitPositions(w, i, pc, Refused, None, verdict, a);
      } else if FreshTicket(w, position.value) {
        SubmitPositions(Fault(w, i), i, pc, Refused, position, verdict, a);
        FaultPositions(w, i, Submit(Fault(w, i), i, pc, Refused, position, verdict), a);
      }
  }

  lemma FaultPositions(w: World, i: Inst, v: World, a: Act)
    requires PositionsFollow(Fault(w, i), v, a)
    ensures PositionsFollow(w, v, a)
  {
  }

  lemma SubmitPositions(w: World, i: Inst, pc: Pc, stage: Stage, ticket: Option<nat>, verdict: State, a: Act)
    requires pc.Working? && pc.oid in w.orders && (ticket.Some? ==> ticket.value !in w.positions)
    ensures PositionsFollow(w, Submit(w, i, pc, stage, ticket, verdict), a)
  {
  }

  lemma OutsidePositions(w: World, a: Act)
    requires !IsWork(a) && w.hist.Keys <= w.orders.Keys
    ensures PositionsFollow(w, OutsideStep(w, a), a)
  {
    if !a.BrokerCloses? {
      hide PositionsFollow, OutsideStep;
      OtherTickets(w, a);
      SameTicketsFollow(w, OutsideStep(w, a), a);
    }
  }

  lemma IntentTickets(w: World, i: Inst, claim: Claim, oid: nat, ok: bool)
    requires w.hist.Keys <= w.orders.Keys
    ensures SameTickets(w, WriteIntentStep(w, i, claim, oid, ok))
  {
    hide CidTaken;
  }

  lemma OtherTickets(w: World, a: Act)
    requires !IsWork(a) && !a.BrokerCloses? && w.hist.Keys <= w.orders.Keys
    ensures SameTickets(w, OutsideStep(w, a))
  {
    hide SameTickets, Put, Fault, GateCritical, TryLockStep, RiskStep, WriteIntentStep, ReleaseStep, TradeClosesStep;
    SameAgain(w);
    match a
    case Tick(delta) => TickTickets(w, delta);
    case Start(i, sym, cid) => PutTickets(w, i, Locking(Claim(sym, w.now, cid)));
    case TryLock(i, ok) => if PcOf(w, i).Locking? { LockTickets(w, i, PcOf(w, i).claim, ok); }
    case Risk(i, answer) => if PcOf(w, i).Locked? { RiskTickets(w, i, PcOf(w, i).claim, answer); }
    case WriteIntent(i, oid, ok) => if PcOf(w, i).Journaling? { IntentTickets(w, i, PcOf(w, i).claim, oid, ok); }
    case Release(i, ok) => if PcOf(w, i).Releasing? { ReleaseTickets(w, i, PcOf(w, i).claim, ok); }
    case Crash(i) => PutTickets(w, i, Down);
    case Restart(i, force) => PutTickets(w, i, Idle);
    case TradeCloses(tid) => CloseTickets(w, tid);
  }

  lemma PutTickets(w: World, i: Inst, pc: Pc)
    ensures SameTickets(w, Put(w, i, pc)) && SameTickets(w, Put(Fault(w, i), i, pc))
  {
  }

  lemma TickTickets(w: World, delta: nat)
    ensures SameTickets(w, w.(now := w.now + delta))
  {
  }

  lemma LockTickets(w: World, i: Inst, claim: Claim, ok: bool)
    ensures SameTickets(w, TryLockStep(w, i, claim, ok))
  {
  }

  lemma RiskTickets(w: World, i: Inst, claim: Claim, answer: RiskAnswer)
    ensures SameTickets(w, RiskStep(w, i, claim, answer))
  {
  }

  lemma ReleaseTickets(w: World, i: Inst, claim: Claim, ok: bool)
    ensures SameTickets(w, ReleaseStep(w, i, claim, ok))
  {
  }

  lemma CloseTickets(w: World, tid: nat)
    ensures SameTickets(w, TradeClosesStep(w, tid))
  {
  }

  /** No order record ever disappears. */
  lemma {:induction false} OrdersGrow(acts: seq<Act>, more: seq<Act>)
    ensures Run(acts).orders.Keys <= Run(acts + more).orders.Keys
  {
    hide Run, Step, Inv;
    assert acts + [] == acts;
    if more != [] {
      var front := more[..|more| - 1];
      OrdersGrow(acts, front);
      RunLonger(acts, more);
      RunInv(acts + front);
      StepFrame(Run(acts + front), more[|more| - 1]);
    }
  }

  /** The position of an execution begun in the second part of a run is open, unless it was closed
      at the broker during that part. */
  lemma {:induction false} OpenUnlessClosed(acts: seq<Act>, more: seq<Act>, oid: nat)
    requires oid !in Run(acts).orders && oid in Run(acts + more).hist && Run(acts + more).hist[oid].ticket.Some?
    ensures var t := Run(acts + more).hist[oid].ticket.value;
            t in Run(acts + more).positions || BrokerCloses(t) in more
  {
    hide Run, Step, Inv;
    HistCovers(acts);
    assert acts + [] == acts;
    if more != [] {
      var front, last := more[..|more| - 1], more[|more| - 1];
      assert more == front + [last];
      var w, t := Run(acts + front), Run(acts + more).hist[oid].ticket.value;
      RunLonger(acts, more);
      RunInv(acts + front);
      PositionsStep(w, last);
      if oid in w.hist && w.hist[oid].ticket == Some(t) {
        OpenUnlessClosed(acts, front, oid);
      }
    }
  }

  // ---------------------------------------------------------------- statuses

  /** Every durable change of an order record is one edge of the tracker's transition table, new
      records start PENDING, and none disappears or changes its identity. */
  lemma StatusRefinement(acts: seq<Act>, a: Act, oid: nat)
    ensures var w := Run(acts);
            var after := Step(w, a);
            && (oid in w.orders ==>
                  && oid in after.orders
                  && (after.orders[oid].status == w.orders[oid].status
                      || after.orders[oid].status in ValidTransitions(w.orders[oid].status))
                  && after.orders[oid].cid == w.orders[oid].cid && after.orders[oid].inst == w.orders[oid].inst)
            && (oid in after.orders && oid !in w.orders ==> after.orders[oid].status == PENDING)
  {
    RunInv(acts);
    var w := Run(acts);
    StepFrame(w, a);
    assert w.hist.Keys == w.orders.Keys;
    hide Run, Step, Inv;
    if ScopeOf(w, a).own == Some(oid) {
      OwnStatus(w, a, oid);
    }
  }

  lemma OwnStatus(w: World, a: Act, oid: nat)
    requires Inv(w) && ScopeOf(w, a).own == Some(oid)
    ensures oid in w.orders && oid in Step(w, a).orders
    ensures Step(w, a).orders[oid].status == w.orders[oid].status
            || Step(w, a).orders[oid].status in ValidTransitions(w.orders[oid].status)
  {
    hide LocksOk, RowsOk, TicketsOk, ClosedRowsOk, CidsOk, CallsOk, FaultlessOk, LockShape, RowShape, CleanSoFar, Step;
    var pc := PcOf(w, a.i);
    RunningFacts(w, a.i, pc);
    StepFrame(w, a);
    hide Frame, Inv;
    if IsRowWrite(a) {
      RowWriteKeepsOrder(w, a, oid);
    } else {
      OrderWriteStatus(w, a, pc);
    }
  }

  lemma OrderWriteStatus(w: World, a: Act, pc: Pc)
    requires IsOrderWrite(a) && PcOf(w, a.i) == pc && pc.Working? && pc.oid in w.orders
    requires OrderShape(w.orders[pc.oid], pc.p) && pc.p.stage != Closed && IsVerdict(pc.verdict)
    ensures pc.oid in Step(w, a).orders
    ensures Step(w, a).orders[pc.oid].status == w.orders[pc.oid].status
            || Step(w, a).orders[pc.oid].status in ValidTransitions(w.orders[pc.oid].status)
  {
    hide RowWriteStep, OutsideStep, WriteOrder, Abort, ValidTransitions;
    var o := w.orders[pc.oid];
    assert o.status == StatusAt(pc.p.stage);
    EdgesWritten(pc.verdict);
    AbortKeepsOrders(w, a.i, pc.claim);
    match a
    case WriteApproved(i, _) => WriteOrderWrites(w, i, pc, o.(status := APPROVED), Approved);
    case WriteSent(i, _) => WriteOrderWrites(w, i, pc, o.(status := SENT, ticket := pc.p.ticket), SentWritten);
    case WriteFilled(i, _) => WriteOrderWrites(w, i, pc, o.(status := FILLED), Completed);
    case WriteClosed(i, _) => WriteOrderWrites(w, i, pc, o.(status := pc.verdict), Closed);
  }

  lemma EdgesWritten(verdict: State)
    requires IsVerdict(verdict)
    ensures APPROVED in ValidTransitions(PENDING) && SENT in ValidTransitions(APPROVED)
    ensures FILLED in ValidTransitions(SENT) && verdict in ValidTransitions(APPROVED)
  {
  }

  lemma AbortKeepsOrders(w: World, i: Inst, claim: Claim)
    ensures Abort(w, i, claim).orders == w.orders
  {
  }

  lemma WriteOrderWrites(w: World, i: Inst, pc: Pc, o: Order, stage: Stage)
    requires pc.Working?
    ensures WriteOrder(w, i, pc, o, stage).orders == w.orders[pc.oid := o]
  {
  }

  lemma RowWriteKeepsOrder(w: World, a: Act, oid: nat)
    requires IsRowWrite(a) && ScopeOf(w, a).own == Some(oid) && oid in w.orders
    ensures oid in Step(w, a).orders && Step(w, a).orders[oid] == w.orders[oid]
  {
    hide OutsideStep, OrderWriteStep, WriteRowStep, CallStep, PromoteStep, WriteOutcomeStep;
    var pc := PcOf(w, a.i);
    match a
    case WriteRow(i, tid, ok) => WriteRowKeepsOrder(w, i, pc, tid, ok);
    case CallBroker(i, reply) => CallKeepsOrder(w, i, pc, reply);
    case PromoteRow(i, ok) => if HasRowIn(w, pc) { PromoteKeepsOrder(w, i, pc); }
    case WriteOutcome(i, ok) => if HasRowIn(w, pc) { OutcomeKeepsOrder(w, i, pc, ok); }
  }

  lemma WriteRowKeepsOrder(w: World, i: Inst, pc: Pc, tid: nat, ok: bool)
    requires pc.Working? && pc.oid in w.orders
    ensures WriteRowStep(w, i, pc, tid, ok).orders == w.orders
  {
  }

  lemma CallKeepsOrder(w: World, i: Inst, pc: Pc, reply: BrokerAnswer)
    requires pc.Working? && pc.oid in w.orders
    ensures CallStep(w, i, pc, reply).orders == w.orders
  {
    hide Submit;
    match reply
    case Filled(t) => SubmitKeepsOrder(w, i, pc, Bought, Some(t), FAILED);
    case Failed(hasMessage, raised, position) =>
      var verdict := if hasMessage && !raised then REJECTED else FAILED;
      SubmitKeepsOrder(w, i, pc, Refused, None, verdict);
      SubmitKeepsOrder(Fault(w, i), i, pc, Refused, position, verdict);
  }

  lemma SubmitKeepsOrder(w: World, i: Inst, pc: Pc, stage: Stage, ticket: Option<nat>, verdict: State)
    requires pc.Working? && pc.oid in w.orders
    ensures Submit(w, i, pc, stage, ticket, verdict).orders == w.orders
  {
  }

  lemma PromoteKeepsOrder(w: World, i: Inst, pc: Pc)
    requires pc.Working? && pc.oid in w.orders && HasRowIn(w, pc)
    ensures PromoteStep(w, i, pc).orders == w.orders
  {
  }

  lemma OutcomeKeepsOrder(w: World, i: Inst, pc: Pc, ok: bool)
    requires pc.Working? && pc.oid in w.orders && HasRowIn(w, pc)
    ensures WriteOutcomeStep(w, i, pc, ok).orders == w.orders
  {
  }

  /** A record that has reached FILLED, REJECTED or FAILED keeps that status through any further
      run. */
  lemma {:induction false} ClosedStaysClosed(acts: seq<Act>, more: seq<Act>, oid: nat)
    requires oid in Run(acts).orders && !NonTerminal(Run(acts).orders[oid].status)
    ensures oid in Run(acts + more).orders && Run(acts + more).orders[oid] == Run(acts).orders[oid]
  {
    RunInv(acts);
    assert OrderShape(Run(acts).orders[oid], Run(acts).hist[oid]);
    assert NobodyWorksOn(Run(acts), oid);
    AbandonedIsFrozen(acts, more, oid);
  }

  // ---------------------------------------------------------------- abandoned executions

  ghost predicate NobodyWorksOn(w: World, oid: nat) {
    forall i :: i in w.procs && w.procs[i].Working? ==> w.procs[i].oid != oid
  }

  lemma AbandonedStep(w: World, a: Act, oid: nat)
    requires Inv(w) && oid in w.orders && oid in w.hist && NobodyWorksOn(w, oid)
    ensures Untouched(w, Step(w, a), oid) && NobodyWorksOn(Step(w, a), oid)
  {
    hide Step, Inv;
    StepFrame(w, a);
  }

  /** Once no instance is working on an order, nothing ever writes its record again: startup
      recovery and reconciliation work in a session that is never committed. */
  lemma {:induction false} AbandonedIsFrozen(acts: seq<Act>, more: seq<Act>, oid: nat)
    requires oid in Run(acts).orders && NobodyWorksOn(Run(acts), oid)
    ensures oid in Run(acts + more).orders && Run(acts + more).orders[oid] == Run(acts).orders[oid]
    ensures oid in Run(acts).hist && oid in Run(acts + more).hist && Run(acts + more).hist[oid] == Run(acts).hist[oid]
    ensures NobodyWorksOn(Run(acts + more), oid)
  {
    hide Run, Inv, Step;
    HistCovers(acts);
    if more == [] {
      assert acts + more == acts;
    } else {
      var front := more[..|more| - 1];
      AbandonedIsFrozen(acts, front, oid);
      RunLonger(acts, more);
      RunInv(acts + front);
      AbandonedStep(Run(acts + front), more[|more| - 1], oid);
    }
  }

  lemma HistCovers(acts: seq<Act>)
    ensures Run(acts).hist.Keys == Run(acts).orders.Keys
  {
    RunInv(acts);
  }

  lemma RunLonger(acts: seq<Act>, more: seq<Act>)
    requires more != []
    ensures Run(acts + more) == Step(Run(acts + more[..|more| - 1]), more[|more| - 1])
  {
    hide Step;
    assert (acts + more)[..|acts + more| - 1] == acts + more[..|more| - 1];
  }

  // ---------------------------------------------------------------- the startup gate

  /** An execution that the startup checks object to, read off how far it got: it stopped between
      its intent and its promotion; or it was promoted but not marked FILLED and its position has
      gone; or it was closed as failed although a position exists, or without its trade row being
      told. */
  predicate Dirty(w: World, oid: nat)
    requires oid in w.orders && oid in w.hist
  {
    var p, i := w.hist[oid], w.orders[oid].inst;
    match p.stage
    case Completed => false
    case Promoted => !SeenAtBroker(w, i, p.ticket)
    case Closed => SeenAtBroker(w, i, p.ticket)
                   || (p.tid.Some? && p.told.None? && p.tid.value in w.trades && w.trades[p.tid.value].openedAt < w.now - PENDING_GRACE)
    case _ => true
  }

  ghost predicate AnyDirty(w: World, i: Inst) {
    exists oid :: oid in w.orders && oid in w.hist && w.orders[oid].inst == i && Dirty(w, oid)
  }

  /** Crash consistency, exactly: whatever crashed or failed, the startup checks of an instance
      are critical if and only if one of its executions is dirty in the sense above. */
  lemma GateExact(acts: seq<Act>, i: Inst)
    ensures GateCritical(Run(acts), i) <==> AnyDirty(Run(acts), i)
  {
    RunInv(acts);
    var w := Run(acts);
    hide Run, LocksOk, CidsOk, CallsOk, FaultlessOk, ProcsOk;
    if AnyDirty(w, i) {
      var oid :| oid in w.orders && oid in w.hist && w.orders[oid].inst == i && Dirty(w, oid);
      DirtyIsCritical(w, i, oid);
    }
    if RecoveryCritical(w, i) {
      UnresolvedIsDirty(w, i);
    }
    if ReconcileCritical(w, i) {
      MismatchIsDirty(w, i);
    }
  }

  lemma DirtyIsCritical(w: World, i: Inst, oid: nat)
    requires Inv(w) && oid in w.orders && oid in w.hist && w.orders[oid].inst == i && Dirty(w, oid)
    ensures GateCritical(w, i)
  {
    hide LocksOk, CidsOk, CallsOk, FaultlessOk, ProcsOk, TicketsOk, ClosedRowsOk, RowsOk;
    var o, p := w.orders[oid], w.hist[oid];
    assert OrderShape(o, p);
    hide OrdersOk;
    if (p.stage == Closed || p.stage == SentWritten) && SeenAtBroker(w, i, p.ticket) {
      NoOpenRow(w, i, oid);
    } else if p.stage == Closed {
      UntoldRowIsStale(w, i, oid);
    } else {
      hide Inv, ReconcileCritical, RowShape;
      assert NonTerminal(o.status) && !SeenAtBroker(w, i, o.ticket);
    }
  }

  lemma UntoldRowIsStale(w: World, i: Inst, oid: nat)
    requires RowsOk(w.orders, w.hist, w.trades, w.rowOwner)
    requires oid in w.orders && oid in w.hist && w.orders[oid].inst == i && w.hist[oid].stage == Closed
    requires var p := w.hist[oid];
             p.tid.Some? && p.told.None? && p.tid.value in w.trades && w.trades[p.tid.value].openedAt < w.now - PENDING_GRACE
    ensures ReconcileCritical(w, i)
  {
    var tid := w.hist[oid].tid.value;
    assert w.rowOwner[tid] == oid && RowShape(w.orders[oid], w.hist[oid], w.trades[tid]);
    assert Stale(w, tid) && !SeenAtBroker(w, i, w.trades[tid].ticket);
  }

  /** An execution that was never promoted has no OPEN row, so its position is an orphan. */
  lemma NoOpenRow(w: World, i: Inst, oid: nat)
    requires Inv(w) && oid in w.hist && w.hist[oid].ticket.Some? && !OpenStage(w.hist[oid].stage)
    requires SeenAtBroker(w, i, w.hist[oid].ticket)
    ensures ReconcileCritical(w, i)
  {
    hide LocksOk, CidsOk, CallsOk, FaultlessOk, ProcsOk, ClosedRowsOk, OrdersOk, RowsOk, TicketsOk;
    var t := w.hist[oid].ticket.value;
    forall tid | tid in w.trades && w.trades[tid].outcome == TradeOpen ensures w.trades[tid].ticket != Some(t) {
      OpenRowIsNotMine(w, oid, tid);
    }
    hide Inv, Stale;
    assert !OpenRowFor(w, i, t);
  }

  lemma OpenRowIsNotMine(w: World, oid: nat, tid: nat)
    requires RowsOk(w.orders, w.hist, w.trades, w.rowOwner) && TicketsOk(w.orders, w.hist, w.positions, w.ticketOwner)
    requires oid in w.hist && w.hist[oid].ticket.Some? && !OpenStage(w.hist[oid].stage)
    requires tid in w.trades && w.trades[tid].outcome == TradeOpen
    ensures w.trades[tid].ticket != w.hist[oid].ticket
  {
    var k := w.rowOwner[tid];
    assert RowShape(w.orders[k], w.hist[k], w.trades[tid]);
    assert OpenStage(w.hist[k].stage) && k != oid;
    if w.hist[k].ticket.Some? {
      assert w.ticketOwner[w.hist[k].ticket.value] == k;
      assert w.ticketOwner[w.hist[oid].ticket.value] == oid;
    }
  }

  lemma UnresolvedIsDirty(w: World, i: Inst)
    requires Inv(w) && RecoveryCritical(w, i)
    ensures AnyDirty(w, i)
  {
    hide LocksOk, CidsOk, CallsOk, FaultlessOk, ProcsOk, RowsOk, TicketsOk;
    var oid :| oid in w.orders && w.orders[oid].inst == i && NonTerminal(w.orders[oid].status)
               && !SeenAtBroker(w, i, w.orders[oid].ticket);
    assert oid in w.hist && OrderShape(w.orders[oid], w.hist[oid]);
    assert Dirty(w, oid);
  }

  lemma MismatchIsDirty(w: World, i: Inst)
    requires Inv(w) && ReconcileCritical(w, i)
    ensures AnyDirty(w, i)
  {
    hide LocksOk, CidsOk, CallsOk, FaultlessOk, ProcsOk, TicketsOk, ClosedRowsOk;
    if t :| t in w.positions && w.positions[t] == i && !OpenRowFor(w, i, t) {
      hide Inv;
      OrphanIsDirty(w, i, t);
    } else {
      var tid :| tid in w.trades && w.trades[tid].inst == i && Stale(w, tid) && !SeenAtBroker(w, i, w.trades[tid].ticket);
      StaleRowIsDirty(w, i, tid);
    }
  }

  lemma StaleRowIsDirty(w: World, i: Inst, tid: nat)
    requires OrdersOk(w.orders, w.hist) && RowsOk(w.orders, w.hist, w.trades, w.rowOwner)
    requires tid in w.trades && w.trades[tid].inst == i && Stale(w, tid)
    ensures AnyDirty(w, i)
  {
    var oid := w.rowOwner[tid];
    assert RowShape(w.orders[oid], w.hist[oid], w.trades[tid]) && OrderShape(w.orders[oid], w.hist[oid]);
    assert Dirty(w, oid);
  }

  lemma OrphanIsDirty(w: World, i: Inst, t: nat)
    requires Inv(w) && t in w.positions && w.positions[t] == i && !OpenRowFor(w, i, t)
    ensures AnyDirty(w, i)
  {
    hide LocksOk, CidsOk, CallsOk, FaultlessOk, ProcsOk;
    var oid := w.ticketOwner[t];
    var p := w.hist[oid];
    assert p.ticket == Some(t) && w.orders[oid].inst == i && OrderShape(w.orders[oid], p);
    PromotedHasOpenRow(w, i, oid, t);
    assert Dirty(w, oid);
  }

  lemma PromotedHasOpenRow(w: World, i: Inst, oid: nat, t: nat)
    requires Inv(w) && oid in w.hist && oid in w.orders && w.hist[oid].ticket == Some(t) && w.orders[oid].inst == i
    requires t in w.positions
    ensures OpenStage(w.hist[oid].stage) ==> OpenRowFor(w, i, t)
  {
    hide LocksOk, CidsOk, CallsOk, FaultlessOk, ProcsOk, TicketsOk;
    var p := w.hist[oid];
    if OpenStage(p.stage) {
      assert OrderShape(w.orders[oid], p);
      var tid := p.tid.value;
      assert w.rowOwner[tid] == oid && RowShape(w.orders[oid], p, w.trades[tid]);
      assert w.trades[tid].outcome == TradeOpen;
    }
  }

  /** Row and order never contradict each other: the row of a closed execution that was told its
      outcome carries exactly the outcome of the order's status. */
  lemma ToldRowMatchesOrder(acts: seq<Act>, oid: nat)
    requires oid in Run(acts).orders && oid in Run(acts).hist
    requires Run(acts).hist[oid].stage == Closed && Run(acts).hist[oid].told.Some?
    ensures var w := Run(acts);
            && w.hist[oid].tid.Some? && w.hist[oid].tid.value in w.trades
            && w.trades[w.hist[oid].tid.value].outcome == FailedOutcome(w.orders[oid].status)
            && w.trades[w.hist[oid].tid.value].cid == w.orders[oid].cid
  {
    RunInv(acts);
    var w := Run(acts);
    hide Run, LocksOk, ProcsOk, CidsOk, CallsOk, FaultlessOk, TicketsOk, ClosedRowsOk;
    assert OrderShape(w.orders[oid], w.hist[oid]);
    assert w.rowOwner[w.hist[oid].tid.value] == oid && RowShape(w.orders[oid], w.hist[oid], w.trades[w.hist[oid].tid.value]);
  }

  /** An instance all of whose executions ran to the end with truthful broker answers and no lost
      write passes the startup checks. */
  lemma CompletedRunsAreClean(acts: seq<Act>, i: Inst)
    requires i !in Run(acts).faulty && !PcOf(Run(acts), i).Working?
    ensures !GateCritical(Run(acts), i)
  {
    RunInv(acts);
    GateExact(acts, i);
    var w := Run(acts);
    hide Run, LocksOk, RowsOk, TicketsOk, ClosedRowsOk, CidsOk, CallsOk, ProcsOk;
    forall oid | oid in w.orders && oid in w.hist && w.orders[oid].inst == i ensures !Dirty(w, oid) {
      assert CleanEnd(w.hist[oid]) || (i in w.procs && CleanSoFar(oid, w.hist[oid], w.procs[i]));
    }
  }

  /** A PENDING row never carries a ticket, so reconciliation never gets to promote one: every
      stale PENDING row it looks at is critical. */
  lemma PendingRowsHaveNoTicket(acts: seq<Act>, i: Inst)
    ensures var w := Run(acts);
            && (forall tid :: tid in w.trades && w.trades[tid].outcome == TradePending ==> w.trades[tid].ticket.None?)
            && ((exists tid :: tid in w.trades && w.trades[tid].inst == i && Stale(w, tid)) ==> ReconcileCritical(w, i))
  {
    RunInv(acts);
    var w := Run(acts);
    forall tid | tid in w.trades && w.trades[tid].outcome == TradePending ensures w.trades[tid].ticket.None? {
      assert tid in w.rowOwner && RowShape(w.orders[w.rowOwner[tid]], w.hist[w.rowOwner[tid]], w.trades[tid]);
    }
  }

  // ---------------------------------------------------------------- a critical gate stays critical

  /** Dirt that no passage of time, market or other instance can remove. */
  predicate Stuck(w: World, oid: nat)
    requires oid in w.orders && oid in w.hist
  {
    Dirty(w, oid) && !(w.hist[oid].stage == Closed && SeenAtBroker(w, w.orders[oid].inst, w.hist[oid].ticket))
  }

  predicate Forced(acts: seq<Act>, i: Inst) { exists k :: 0 <= k < |acts| && acts[k] == Restart(i, true) }

  lemma StuckStep(w: World, a: Act, oid: nat)
    requires Inv(w) && oid in w.orders && oid in w.hist && NobodyWorksOn(w, oid) && Stuck(w, oid)
    ensures oid in Step(w, a).orders && oid in Step(w, a).hist && Stuck(Step(w, a), oid)
  {
    hide Step, Inv;
    AbandonedStep(w, a, oid);
    StepFrame(w, a);
    StuckFrame(w, Step(w, a), oid);
  }

  lemma StuckFrame(w: World, v: World, oid: nat)
    requires Inv(w) && oid in w.orders && oid in w.hist && Stuck(w, oid)
    requires Untouched(w, v, oid) && exists s: Scope :: Frame(w, v, s)
    ensures Stuck(v, oid)
  {
    hide LocksOk, ClosedRowsOk, CidsOk, CallsOk, FaultlessOk, ProcsOk, LockShape, RowShape;
    var p := w.hist[oid];
    if p.ticket.Some? {
      assert p.ticket.value in w.ticketOwner;
    }
    if p.tid.Some? {
      assert p.tid.value in w.rowOwner && p.tid.value in w.trades;
    }
  }

  /** After a stop that left such dirt, the instance can only come back by a forced start: every
      later unforced restart is refused, whatever else happens. */
  lemma {:induction false} OnlyForceRestarts(acts: seq<Act>, more: seq<Act>, i: Inst, oid: nat)
    requires oid in Run(acts).orders && oid in Run(acts).hist && Run(acts).orders[oid].inst == i
    requires PcOf(Run(acts), i).Down? && NobodyWorksOn(Run(acts), oid) && Stuck(Run(acts), oid)
    requires !Forced(more, i)
    ensures PcOf(Run(acts + more), i).Down?
    ensures oid in Run(acts + more).orders && oid in Run(acts + more).hist && Stuck(Run(acts + more), oid)
  {
    hide Run, Inv, Step, Stuck, GateCritical;
    if more == [] {
      assert acts + more == acts;
    } else {
      var front, last := more[..|more| - 1], more[|more| - 1];
      assert more[|more| - 1] == last;
      assert !Forced(front, i);
      OnlyForceRestarts(acts, front, i, oid);
      AbandonedIsFrozen(acts, front, oid);
      RunLonger(acts, more);
      RunInv(acts + front);
      StuckIsCritical(acts + front, i, oid);
      StuckStep(Run(acts + front), last, oid);
      DownStep(Run(acts + front), last, i);
    }
  }

  lemma StuckIsCritical(acts: seq<Act>, i: Inst, oid: nat)
    requires oid in Run(acts).orders && oid in Run(acts).hist && Run(acts).orders[oid].inst == i && Stuck(Run(acts), oid)
    ensures GateCritical(Run(acts), i)
  {
    hide Run, GateCritical;
    GateExact(acts, i);
  }

  lemma DownStep(w: World, a: Act, i: Inst)
    requires Inv(w) && PcOf(w, i).Down? && GateCritical(w, i) && a != Restart(i, true)
    ensures PcOf(Step(w, a), i).Down?
  {
    if ScopeOf(w, a).actor != Some(i) {
      hide Step, Inv;
      StepFrame(w, a);
    } else {
      hide Inv, GateCritical, TryLockStep, RiskStep, WriteIntentStep, ReleaseStep, Abort, WriteOrder;
      hide WriteRowStep, CallStep, PromoteStep, WriteOutcomeStep;
      assert !PcOf(w, i).Working?;
    }
  }

  /** What a clean gate leaves in the committed order table.  The startup sessions are dropped, so
      "no record is left non-terminal" fails for exactly the executions that stopped between their
      promotion and FILLED; in the table these are the records still SENT, and each of them has its
      position open and its row OPEN. */
  lemma CleanGateLeavesSent(acts: seq<Act>, i: Inst, oid: nat)
    requires !GateCritical(Run(acts), i) && oid in Run(acts).orders && Run(acts).orders[oid].inst == i
    ensures oid in Run(acts).hist
    ensures var w := Run(acts);
            && (NonTerminal(w.orders[oid].status) <==> w.hist[oid].stage == Promoted)
            && (NonTerminal(w.orders[oid].status) <==> w.orders[oid].status == SENT)
            && (NonTerminal(w.orders[oid].status) ==>
                  SeenAtBroker(w, i, w.orders[oid].ticket) && OpenRowFor(w, i, w.orders[oid].ticket.value))
  {
    HistCovers(acts);
    HistShape(acts, oid);
    GateExact(acts, i);
    var w := Run(acts);
    hide Run, OpenRowFor;
    assert !Dirty(w, oid);
  }

  /** Hence after a clean gate every committed record of the instance is terminal if and only if
      none of its executions is left promoted but not FILLED. */
  lemma CleanGateIsTerminalIff(acts: seq<Act>, i: Inst)
    requires !GateCritical(Run(acts), i)
    ensures var w := Run(acts);
            (forall oid :: oid in w.orders && w.orders[oid].inst == i ==> !NonTerminal(w.orders[oid].status))
            <==> (forall oid :: oid in w.orders && oid in w.hist && w.orders[oid].inst == i ==> w.hist[oid].stage != Promoted)
  {
    var w := Run(acts);
    hide Run, GateCritical, NonTerminal;
    forall oid | oid in w.orders && w.orders[oid].inst == i
      ensures oid in w.hist && (NonTerminal(w.orders[oid].status) <==> w.hist[oid].stage == Promoted)
    {
      CleanGateLeavesSent(acts, i, oid);
    }
  }

  /** Recovery's repair of a promoted order is never committed: as soon as the position closes the
      order stands SENT without a position, and the gate is critical although nothing is wrong. */
  lemma PromotedTurnsCritical(acts: seq<Act>, oid: nat)
    requires oid in Run(acts).orders && oid in Run(acts).hist && Run(acts).hist[oid].stage == Promoted
    requires NobodyWorksOn(Run(acts), oid)
    ensures Run(acts).hist[oid].ticket.Some?
    ensures var t := Run(acts).hist[oid].ticket.value;
            GateCritical(Run(acts + [BrokerCloses(t)]), Run(acts).orders[oid].inst)
  {
    HistShape(acts, oid);
    var t := Run(acts).hist[oid].ticket.value;
    var more := [BrokerCloses(t)];
    AbandonedIsFrozen(acts, more, oid);
    RunLonger(acts, more);
    assert acts + more[..0] == acts;
    BrokerClosesStep(Run(acts), t);
    hide Run, Step, GateCritical;
    assert Stuck(Run(acts + more), oid);
    StuckIsCritical(acts + more, Run(acts).orders[oid].inst, oid);
  }

  lemma HistShape(acts: seq<Act>, oid: nat)
    requires oid in Run(acts).orders && oid in Run(acts).hist
    ensures OrderShape(Run(acts).orders[oid], Run(acts).hist[oid])
  {
    RunInv(acts);
  }

  lemma BrokerClosesStep(w: World, t: nat)
    ensures t !in Step(w, BrokerCloses(t)).positions
  {
  }
}
