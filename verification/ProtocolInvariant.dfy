/** The inductive invariant of the execution protocol: what every step keeps, whichever instance
    takes it and whatever fails. */
module ProtocolInvariant {
  import opened OrderState
  import opened Protocol
  import opened Wrappers

  type Orders = map<nat, Order>
  type Hist = map<nat, Progress>
  type Procs = map<Inst, Pc>

  predicate Holds(pc: Pc) { pc.Locked? || pc.Journaling? || pc.Working? || pc.Releasing? }

  predicate OwnsRow(locks: map<Symbol, Lock>, i: Inst, sym: Symbol) { sym in locks && locks[sym].owner == i }

  /** A holder's row carries its own stamp; a holder without a row has outlived its lease. */
  ghost predicate LockShape(now: int, locks: map<Symbol, Lock>, i: Inst, pc: Pc) {
    && (pc.Locking? ==> pc.claim.since <= now)
    && (Holds(pc) ==>
          && pc.claim.since <= now
          && (OwnsRow(locks, i, pc.claim.sym) ==> locks[pc.claim.sym].at == pc.claim.since)
          && (!OwnsRow(locks, i, pc.claim.sym) ==> now - pc.claim.since > LOCK_TTL))
  }

  ghost predicate LocksOk(now: int, locks: map<Symbol, Lock>, procs: Procs) {
    forall i :: i in procs ==> LockShape(now, locks, i, procs[i])
  }

  predicate IsVerdict(s: State) { s == FAILED || s == REJECTED }

  /** The stages before a trade row exists; `Closed` may have come from one of them. */
  predicate RowlessStage(s: Stage) { s == IntentWritten || s == Approved || s == JournalFailed }

  /** The execution has submitted its order to the broker. */
  predicate HasCalled(p: Progress) { p.tid.Some? && p.stage != Journaled }

  predicate BoughtStage(s: Stage) { s == Bought || s == SentWritten || s == Promoted || s == Completed }

  predicate OpenStage(s: Stage) { s == Promoted || s == Completed }

  function StatusAt(s: Stage): State {
    match s
    case IntentWritten => PENDING
    case SentWritten => SENT
    case Promoted => SENT
    case Completed => FILLED
    case _ => APPROVED
  }

  /** The order record an execution leaves behind at each stage. */
  predicate OrderShape(o: Order, p: Progress) {
    && (if p.stage == Closed then IsVerdict(o.status) else o.status == StatusAt(p.stage))
    && o.ticket == (if p.stage == SentWritten || OpenStage(p.stage) then p.ticket else None)
    && (p.tid.None? ==> RowlessStage(p.stage) || p.stage == Closed)
    && (RowlessStage(p.stage) ==> p.tid.None?)
    && (p.ticket.Some? ==> HasCalled(p))
    && (BoughtStage(p.stage) ==> p.ticket.Some?)
    && (p.told.Some? ==> p.tid.Some? && IsVerdict(p.told.value) && (p.stage == OutcomeTried || (p.stage == Closed && o.status == p.told.value)))
  }

  /** The trade row an execution leaves behind at each stage. */
  predicate RowShape(o: Order, p: Progress, row: Trade) {
    && row.inst == o.inst && row.cid == o.cid
    && (if OpenStage(p.stage) then row.ticket == p.ticket && (row.outcome == TradeOpen || row.outcome == TradeClosed)
        else row.ticket == None
             && row.outcome == (if p.told.Some? then FailedOutcome(p.told.value) else TradePending))
  }

  ghost predicate OrdersOk(orders: Orders, hist: Hist) {
    hist.Keys == orders.Keys && forall oid :: oid in orders ==> OrderShape(orders[oid], hist[oid])
  }

  /** Each trade row belongs to exactly one execution and has the shape of its stage. */
  ghost predicate RowsOk(orders: Orders, hist: Hist, trades: map<nat, Trade>, rowOwner: map<nat, nat>) {
    && rowOwner.Keys == trades.Keys
    && (forall oid :: oid in hist && hist[oid].tid.Some? ==>
          hist[oid].tid.value in rowOwner && rowOwner[hist[oid].tid.value] == oid)
    && (forall tid :: tid in rowOwner ==>
          && rowOwner[tid] in orders && rowOwner[tid] in hist
          && hist[rowOwner[tid]].tid == Some(tid)
          && RowShape(orders[rowOwner[tid]], hist[rowOwner[tid]], trades[tid]))
  }

  /** Each ticket belongs to exactly one execution, and its position to that instance. */
  ghost predicate TicketsOk(orders: Orders, hist: Hist, positions: map<nat, Inst>, ticketOwner: map<nat, nat>) {
    && positions.Keys <= ticketOwner.Keys
    && (forall oid :: oid in hist && hist[oid].ticket.Some? ==>
          hist[oid].ticket.value in ticketOwner && ticketOwner[hist[oid].ticket.value] == oid)
    && (forall t :: t in ticketOwner ==>
          && t != 0 && ticketOwner[t] in orders && ticketOwner[t] in hist
          && hist[ticketOwner[t]].ticket == Some(t))
    && (forall t :: t in positions ==> positions[t] == orders[ticketOwner[t]].inst)
  }

  /** A row is only closed once its position is gone. */
  ghost predicate ClosedRowsOk(trades: map<nat, Trade>, positions: map<nat, Inst>) {
    forall tid :: tid in trades && trades[tid].outcome == TradeClosed && trades[tid].ticket.Some? ==>
      trades[tid].ticket.value !in positions
  }

  /** A running execution knows exactly where its records stand. */
  ghost predicate ProcShape(orders: Orders, hist: Hist, i: Inst, pc: Pc) {
    pc.Working? ==>
      && pc.oid in orders && pc.oid in hist && hist[pc.oid] == pc.p
      && orders[pc.oid].inst == i && orders[pc.oid].cid == pc.claim.cid
      && pc.p.stage != Completed && pc.p.stage != Closed
      && IsVerdict(pc.verdict)
      && (pc.verdict == FAILED || pc.p.stage == Refused || pc.p.stage == OutcomeTried)
      && (pc.p.told.Some? ==> pc.p.told.value == pc.verdict)
  }

  ghost predicate ProcsOk(orders: Orders, hist: Hist, procs: Procs) {
    forall i :: i in procs ==> ProcShape(orders, hist, i, procs[i])
  }

  /** The unique key on the client order id. */
  ghost predicate CidsOk(orders: Orders) {
    forall a, b :: a in orders && b in orders && a != b ==> orders[a].cid != orders[b].cid
  }

  /** Each client id has been submitted once if its execution has called the broker, else never. */
  ghost predicate CallsOk(orders: Orders, hist: Hist, calls: multiset<Cid>) {
    && (forall oid :: oid in orders && oid in hist ==> calls[orders[oid].cid] == if HasCalled(hist[oid]) then 1 else 0)
    && (forall c :: c in calls ==> CidTaken(orders, c))
  }

  /** An execution that ended without a fault of its instance ended cleanly. */
  predicate CleanEnd(p: Progress) {
    p.stage == Completed || (p.stage == Closed && (p.tid.None? || p.told.Some?) && p.ticket.None?)
  }

  /** Still running, and so far without a lost write or a hidden position. */
  ghost predicate CleanSoFar(oid: nat, p: Progress, pc: Pc) {
    && pc.Working? && pc.oid == oid
    && (p.stage == OutcomeTried ==> p.told.Some?)
    && (p.stage == Refused || p.stage == OutcomeTried ==> p.ticket.None?)
  }

  ghost predicate FaultlessOk(orders: Orders, hist: Hist, procs: Procs, faulty: set<Inst>) {
    forall oid :: oid in orders && oid in hist && orders[oid].inst !in faulty ==>
      || CleanEnd(hist[oid])
      || (orders[oid].inst in procs && CleanSoFar(oid, hist[oid], procs[orders[oid].inst]))
  }

  ghost predicate Inv(w: World) {
    && LocksOk(w.now, w.locks, w.procs)
    && OrdersOk(w.orders, w.hist)
    && RowsOk(w.orders, w.hist, w.trades, w.rowOwner)
    && TicketsOk(w.orders, w.hist, w.positions, w.ticketOwner)
    && ClosedRowsOk(w.trades, w.positions)
    && ProcsOk(w.orders, w.hist, w.procs)
    && CidsOk(w.orders)
    && CallsOk(w.orders, w.hist, w.calls)
    && FaultlessOk(w.orders, w.hist, w.procs, w.faulty)
  }

  // ---------------------------------------------------------------- steps that move only the program counter

  lemma PutInv(w: World, i: Inst, pc: Pc, fault: bool)
    requires Inv(w) && !pc.Working?
    requires Holds(pc) ==> Holds(PcOf(w, i)) && PcOf(w, i).claim == pc.claim
    requires pc.Locking? ==> pc.claim.since <= w.now
    requires PcOf(w, i).Working? ==> fault
    ensures Inv(Put(if fault then Fault(w, i) else w, i, pc))
  {
    PutProcs(w.orders, w.hist, w.procs, i, pc, if fault then w.faulty + {i} else w.faulty, w.faulty);
    PutLocks(w.now, w.locks, w.procs, i, pc);
  }

  lemma PutProcs(orders: Orders, hist: Hist, procs: Procs, i: Inst, pc: Pc, faulty: set<Inst>, before: set<Inst>)
    requires ProcsOk(orders, hist, procs) && FaultlessOk(orders, hist, procs, before) && before <= faulty
    requires !pc.Working?
    requires i in procs && procs[i].Working? ==> i in faulty
    ensures ProcsOk(orders, hist, procs[i := pc]) && FaultlessOk(orders, hist, procs[i := pc], faulty)
  {
  }

  lemma PutLocks(now: int, locks: map<Symbol, Lock>, procs: Procs, i: Inst, pc: Pc)
    requires LocksOk(now, locks, procs)
    requires Holds(pc) ==> i in procs && Holds(procs[i]) && procs[i].claim == pc.claim
    requires pc.Locking? ==> pc.claim.since <= now
    ensures LocksOk(now, locks, procs[i := pc])
  {
    if Holds(pc) {
      assert LockShape(now, locks, i, procs[i]);
    }
  }

  lemma TryLockInv(w: World, i: Inst, ok: bool)
    requires Inv(w) && PcOf(w, i).Locking?
    ensures Inv(TryLockStep(w, i, PcOf(w, i).claim, ok))
  {
    var claim := PcOf(w, i).claim;
    PutInv(w, i, Idle, false);
    PutProcs(w.orders, w.hist, w.procs, i, Locked(claim), w.faulty, w.faulty);
    if !(claim.sym in w.locks && !(w.locks[claim.sym].at < claim.since - LOCK_TTL)) {
      TakeLock(w.now, w.locks, w.procs, i, claim);
    }
  }

  lemma TakeLock(now: int, locks: map<Symbol, Lock>, procs: Procs, i: Inst, claim: Claim)
    requires LocksOk(now, locks, procs) && i in procs && procs[i] == Locking(claim)
    requires claim.sym in locks ==> locks[claim.sym].at < claim.since - LOCK_TTL
    ensures LocksOk(now, locks[claim.sym := Lock(i, claim.since)], procs[i := Locked(claim)])
  {
    assert LockShape(now, locks, i, procs[i]);
    var after := locks[claim.sym := Lock(i, claim.since)];
    forall j | j in procs && j != i ensures LockShape(now, after, j, procs[j]) {
      assert LockShape(now, locks, j, procs[j]);
    }
  }

  lemma ReleaseInv(w: World, i: Inst, ok: bool)
    requires Inv(w) && PcOf(w, i).Releasing?
    ensures Inv(ReleaseStep(w, i, PcOf(w, i).claim, ok))
  {
    PutInv(w, i, Idle, false);
    if OwnsRow(w.locks, i, PcOf(w, i).claim.sym) {
      DropLock(w.now, w.locks, w.procs, i, PcOf(w, i).claim.sym);
    }
  }

  lemma DropLock(now: int, locks: map<Symbol, Lock>, procs: Procs, i: Inst, sym: Symbol)
    requires LocksOk(now, locks, procs) && OwnsRow(locks, i, sym)
    ensures LocksOk(now, locks - {sym}, procs[i := Idle])
  {
    forall j | j in procs && j != i ensures LockShape(now, locks - {sym}, j, procs[j]) {
      assert LockShape(now, locks, j, procs[j]);
    }
  }

  // ---------------------------------------------------------------- steps of a running execution

  /** `o` and `q` may replace the order record and progress of execution `oid`. */
  ghost predicate Continues(orders: Orders, hist: Hist, oid: nat, o: Order, q: Progress) {
    && oid in orders && oid in hist
    && o.inst == orders[oid].inst && o.cid == orders[oid].cid && OrderShape(o, q)
  }

  lemma AdvanceOrders(orders: Orders, hist: Hist, oid: nat, o: Order, q: Progress)
    requires OrdersOk(orders, hist) && CidsOk(orders) && Continues(orders, hist, oid, o, q)
    ensures OrdersOk(orders[oid := o], hist[oid := q]) && CidsOk(orders[oid := o])
  {
  }

  lemma AdvanceRow(orders: Orders, hist: Hist, trades: map<nat, Trade>, rowOwner: map<nat, nat>,
                   oid: nat, o: Order, q: Progress, row: Trade)
    requires RowsOk(orders, hist, trades, rowOwner) && Continues(orders, hist, oid, o, q)
    requires q.tid.Some? && q.tid == hist[oid].tid && RowShape(o, q, row)
    ensures RowsOk(orders[oid := o], hist[oid := q], trades[q.tid.value := row], rowOwner)
  {
    var tid := q.tid.value;
    assert tid in rowOwner && rowOwner[tid] == oid;
    assert forall t :: t in rowOwner && rowOwner[t] == oid ==> t == tid;
  }

  lemma AdvanceRowless(orders: Orders, hist: Hist, trades: map<nat, Trade>, rowOwner: map<nat, nat>,
                       oid: nat, o: Order, q: Progress)
    requires RowsOk(orders, hist, trades, rowOwner) && Continues(orders, hist, oid, o, q)
    requires q.tid.None? && hist[oid].tid.None?
    ensures RowsOk(orders[oid := o], hist[oid := q], trades, rowOwner)
  {
    assert forall t :: t in rowOwner ==> rowOwner[t] != oid;
  }

  lemma AddRow(orders: Orders, hist: Hist, trades: map<nat, Trade>, rowOwner: map<nat, nat>,
               oid: nat, o: Order, q: Progress, row: Trade)
    requires RowsOk(orders, hist, trades, rowOwner) && Continues(orders, hist, oid, o, q)
    requires q.tid.Some? && q.tid.value !in trades && hist[oid].tid.None? && RowShape(o, q, row)
    ensures RowsOk(orders[oid := o], hist[oid := q], trades[q.tid.value := row], rowOwner[q.tid.value := oid])
  {
    assert forall t :: t in rowOwner ==> rowOwner[t] != oid;
  }

  lemma AdvanceTickets(orders: Orders, hist: Hist, positions: map<nat, Inst>, ticketOwner: map<nat, nat>,
                       oid: nat, o: Order, q: Progress)
    requires TicketsOk(orders, hist, positions, ticketOwner) && Continues(orders, hist, oid, o, q)
    requires q.ticket == hist[oid].ticket
    ensures TicketsOk(orders[oid := o], hist[oid := q], positions, ticketOwner)
  {
  }

  lemma AddTicket(orders: Orders, hist: Hist, positions: map<nat, Inst>, ticketOwner: map<nat, nat>,
                  oid: nat, o: Order, q: Progress, t: nat)
    requires TicketsOk(orders, hist, positions, ticketOwner) && Continues(orders, hist, oid, o, q)
    requires t != 0 && t !in ticketOwner && hist[oid].ticket.None? && q.ticket == Some(t)
    ensures TicketsOk(orders[oid := o], hist[oid := q], positions[t := o.inst], ticketOwner[t := oid])
  {
    assert forall u :: u in ticketOwner ==> ticketOwner[u] != oid;
  }

  lemma AdvanceClosedRows(trades: map<nat, Trade>, positions: map<nat, Inst>, tid: nat, row: Trade)
    requires ClosedRowsOk(trades, positions) && row.outcome != TradeClosed
    ensures ClosedRowsOk(trades[tid := row], positions)
  {
  }

  lemma AddPosition(trades: map<nat, Trade>, positions: map<nat, Inst>, t: nat, i: Inst)
    requires ClosedRowsOk(trades, positions)
    requires forall tid :: tid in trades && trades[tid].ticket.Some? ==> trades[tid].ticket.value != t
    ensures ClosedRowsOk(trades, positions[t := i])
  {
  }

  /** A fresh ticket is on no row yet. */
  lemma FreshTicketOnNoRow(w: World, t: nat)
    requires OrdersOk(w.orders, w.hist) && RowsOk(w.orders, w.hist, w.trades, w.rowOwner)
    requires TicketsOk(w.orders, w.hist, w.positions, w.ticketOwner) && t !in w.ticketOwner
    ensures forall tid :: tid in w.trades && w.trades[tid].ticket.Some? ==> w.trades[tid].ticket.value != t
  {
    forall tid | tid in w.trades && w.trades[tid].ticket.Some? ensures w.trades[tid].ticket.value != t {
      var oid := w.rowOwner[tid];
      assert RowShape(w.orders[oid], w.hist[oid], w.trades[tid]);
      assert w.trades[tid].ticket == w.hist[oid].ticket;
    }
  }

  /** The program counter after an advance of execution `oid`. */
  ghost predicate CounterFits(orders: Orders, hist: Hist, procs: Procs, i: Inst, oid: nat, o: Order, q: Progress, pc: Pc) {
    && i in procs && procs[i].Working? && procs[i].oid == oid && oid in orders
    && o.inst == i && orders[oid].inst == i && o.cid == orders[oid].cid
    && ProcShape(orders[oid := o], hist[oid := q], i, pc)
    && (pc.Working? ==> pc.oid == oid && pc.claim == procs[i].claim)
    && (Holds(pc) ==> pc.claim == procs[i].claim) && !pc.Locking?
  }

  lemma AdvanceProcs(orders: Orders, hist: Hist, procs: Procs, i: Inst, oid: nat, o: Order, q: Progress, pc: Pc)
    requires ProcsOk(orders, hist, procs) && CounterFits(orders, hist, procs, i, oid, o, q, pc)
    ensures ProcsOk(orders[oid := o], hist[oid := q], procs[i := pc])
  {
    forall j | j in procs && j != i ensures ProcShape(orders[oid := o], hist[oid := q], j, procs[j]) {
      assert ProcShape(orders, hist, j, procs[j]);
    }
  }

  lemma AdvanceLocks(now: int, locks: map<Symbol, Lock>, procs: Procs, i: Inst, pc: Pc)
    requires LocksOk(now, locks, procs) && i in procs && Holds(procs[i])
    requires !pc.Locking? && (Holds(pc) ==> pc.claim == procs[i].claim)
    ensures LocksOk(now, locks, procs[i := pc])
  {
    assert LockShape(now, locks, i, procs[i]);
  }

  lemma AdvanceFaultless(orders: Orders, hist: Hist, procs: Procs, faulty: set<Inst>, more: set<Inst>,
                         i: Inst, oid: nat, o: Order, q: Progress, pc: Pc)
    requires FaultlessOk(orders, hist, procs, faulty) && CounterFits(orders, hist, procs, i, oid, o, q, pc)
    requires faulty <= more && oid in hist
    requires i !in more ==> CleanEnd(q) || CleanSoFar(oid, q, pc)
    ensures FaultlessOk(orders[oid := o], hist[oid := q], procs[i := pc], more)
  {
  }

  lemma AdvanceCalls(orders: Orders, hist: Hist, calls: multiset<Cid>, oid: nat, o: Order, q: Progress)
    requires CallsOk(orders, hist, calls) && CidsOk(orders) && Continues(orders, hist, oid, o, q)
    requires HasCalled(hist[oid]) ==> HasCalled(q)
    ensures CallsOk(orders[oid := o], hist[oid := q],
                    if HasCalled(q) && !HasCalled(hist[oid]) then calls + multiset{o.cid} else calls)
  {
    forall c | c in calls || c == o.cid ensures CidTaken(orders[oid := o], c) {
      if c == o.cid {
        assert orders[oid := o][oid].cid == c;
      } else {
        var k :| k in orders && orders[k].cid == c;
        assert orders[oid := o][k].cid == c;
      }
    }
  }

  /** Instance `i` is running execution `pc.oid`. */
  ghost predicate Running(w: World, i: Inst, pc: Pc) {
    Inv(w) && i in w.procs && w.procs[i] == pc && pc.Working?
  }

  lemma RunningFacts(w: World, i: Inst, pc: Pc)
    requires Running(w, i, pc)
    ensures ProcShape(w.orders, w.hist, i, pc) && OrderShape(w.orders[pc.oid], pc.p) && LockShape(w.now, w.locks, i, pc)
    ensures pc.p.tid.Some? ==>
      pc.p.tid.value in w.trades && RowShape(w.orders[pc.oid], pc.p, w.trades[pc.p.tid.value])
    ensures i !in w.faulty ==> CleanSoFar(pc.oid, pc.p, pc)
  {
    assert ProcShape(w.orders, w.hist, i, w.procs[i]);
    assert LockShape(w.now, w.locks, i, w.procs[i]);
    if pc.p.tid.Some? {
      assert w.rowOwner[pc.p.tid.value] == pc.oid;
    }
  }

  function AfterWrite(pc: Pc, stage: Stage): Pc
    requires pc.Working?
  {
    if stage == Completed || stage == Closed then Releasing(pc.claim)
    else Working(pc.claim, pc.oid, pc.p.(stage := stage), pc.verdict)
  }

  /** A write of the order record alone keeps the invariant if the record fits its new stage. */
  lemma WriteOrderInv(w: World, i: Inst, pc: Pc, o: Order, stage: Stage)
    requires Running(w, i, pc)
    requires o.inst == i && o.cid == pc.claim.cid && OrderShape(o, pc.p.(stage := stage))
    requires pc.p.stage != Journaled && stage != Journaled
    requires OpenStage(pc.p.stage) == OpenStage(stage)
    requires stage != Refused && stage != OutcomeTried
    requires stage == Closed <==> pc.p.stage == OutcomeTried || pc.p.stage == JournalFailed
    requires pc.p.stage != Refused
    ensures Inv(WriteOrder(w, i, pc, o, stage))
  {
    hide LocksOk, OrdersOk, RowsOk, TicketsOk, ClosedRowsOk, ProcsOk, CidsOk, CallsOk, FaultlessOk;
    RunningFacts(w, i, pc);
    var q, next := pc.p.(stage := stage), AfterWrite(pc, stage);
    AdvanceOrders(w.orders, w.hist, pc.oid, o, q);
    if q.tid.Some? {
      var row := w.trades[q.tid.value];
      AdvanceRow(w.orders, w.hist, w.trades, w.rowOwner, pc.oid, o, q, row);
      assert w.trades[q.tid.value := row] == w.trades;
    } else {
      AdvanceRowless(w.orders, w.hist, w.trades, w.rowOwner, pc.oid, o, q);
    }
    AdvanceTickets(w.orders, w.hist, w.positions, w.ticketOwner, pc.oid, o, q);
    AdvanceProcs(w.orders, w.hist, w.procs, i, pc.oid, o, q, next);
    AdvanceLocks(w.now, w.locks, w.procs, i, next);
    AdvanceCalls(w.orders, w.hist, w.calls, pc.oid, o, q);
    AdvanceFaultless(w.orders, w.hist, w.procs, w.faulty, w.faulty, i, pc.oid, o, q, next);
  }

  lemma NewRowInv(w: World, i: Inst, pc: Pc, tid: nat)
    requires Running(w, i, pc) && pc.p.stage == Approved && tid !in w.trades
    ensures pc.oid in w.orders && Inv(NewRow(w, i, pc, tid))
  {
    hide LocksOk, OrdersOk, RowsOk, TicketsOk, ClosedRowsOk, ProcsOk, CidsOk, CallsOk, FaultlessOk;
    RunningFacts(w, i, pc);
    var o, q := w.orders[pc.oid], pc.p.(stage := Journaled, tid := Some(tid));
    var row, next := Trade(TradePending, None, pc.claim.cid, i, w.now), Working(pc.claim, pc.oid, q, pc.verdict);
    AdvanceOrders(w.orders, w.hist, pc.oid, o, q);
    AddRow(w.orders, w.hist, w.trades, w.rowOwner, pc.oid, o, q, row);
    AdvanceClosedRows(w.trades, w.positions, tid, row);
    AdvanceTickets(w.orders, w.hist, w.positions, w.ticketOwner, pc.oid, o, q);
    AdvanceProcs(w.orders, w.hist, w.procs, i, pc.oid, o, q, next);
    AdvanceLocks(w.now, w.locks, w.procs, i, next);
    AdvanceCalls(w.orders, w.hist, w.calls, pc.oid, o, q);
    AdvanceFaultless(w.orders, w.hist, w.procs, w.faulty, w.faulty, i, pc.oid, o, q, next);
  }

  lemma UpdateRowInv(w: World, i: Inst, pc: Pc, row: Trade, q: Progress, fault: bool)
    requires Running(w, i, pc) && pc.p.tid.Some? && q.tid == pc.p.tid && q.ticket == pc.p.ticket
    requires pc.oid in w.orders && OrderShape(w.orders[pc.oid], q) && RowShape(w.orders[pc.oid], q, row)
    requires row.outcome != TradeClosed
    requires pc.p.stage != Journaled && (q.stage == Promoted || q.stage == OutcomeTried)
    requires q.stage == Promoted ==> pc.p.stage == SentWritten
    requires q.told.Some? ==> q.told.value == pc.verdict
    requires q.stage == OutcomeTried ==> pc.p.stage == Refused && (q.told.Some? || fault)
    ensures Inv(UpdateRow(if fault then Fault(w, i) else w, i, pc, row, q))
  {
    hide LocksOk, OrdersOk, RowsOk, TicketsOk, ClosedRowsOk, ProcsOk, CidsOk, CallsOk, FaultlessOk;
    RunningFacts(w, i, pc);
    var o, next := w.orders[pc.oid], Working(pc.claim, pc.oid, q, pc.verdict);
    AdvanceOrders(w.orders, w.hist, pc.oid, o, q);
    AdvanceRow(w.orders, w.hist, w.trades, w.rowOwner, pc.oid, o, q, row);
    AdvanceClosedRows(w.trades, w.positions, q.tid.value, row);
    AdvanceTickets(w.orders, w.hist, w.positions, w.ticketOwner, pc.oid, o, q);
    AdvanceProcs(w.orders, w.hist, w.procs, i, pc.oid, o, q, next);
    AdvanceLocks(w.now, w.locks, w.procs, i, next);
    AdvanceCalls(w.orders, w.hist, w.calls, pc.oid, o, q);
    AdvanceFaultless(w.orders, w.hist, w.procs, w.faulty, if fault then w.faulty + {i} else w.faulty,
                     i, pc.oid, o, q, next);
  }

  lemma SubmitTickets(w: World, oid: nat, o: Order, q: Progress)
    requires Inv(w) && Continues(w.orders, w.hist, oid, o, q) && w.hist[oid].ticket.None?
    requires q.ticket.Some? ==> FreshTicket(w, q.ticket.value)
    ensures q.ticket.None? ==> TicketsOk(w.orders[oid := o], w.hist[oid := q], w.positions, w.ticketOwner)
    ensures q.ticket.Some? ==>
      && TicketsOk(w.orders[oid := o], w.hist[oid := q], w.positions[q.ticket.value := o.inst],
                   w.ticketOwner[q.ticket.value := oid])
      && ClosedRowsOk(w.trades, w.positions[q.ticket.value := o.inst])
  {
    hide LocksOk, OrdersOk, RowsOk, TicketsOk, ClosedRowsOk, ProcsOk, CidsOk, CallsOk, FaultlessOk;
    if q.ticket.Some? {
      AddTicket(w.orders, w.hist, w.positions, w.ticketOwner, oid, o, q, q.ticket.value);
      FreshTicketOnNoRow(w, q.ticket.value);
      AddPosition(w.trades, w.positions, q.ticket.value, o.inst);
    } else {
      AdvanceTickets(w.orders, w.hist, w.positions, w.ticketOwner, oid, o, q);
    }
  }

  lemma SubmitInv(w: World, i: Inst, pc: Pc, stage: Stage, ticket: Option<nat>, verdict: State, fault: bool)
    requires Running(w, i, pc) && pc.p.stage == Journaled && IsVerdict(verdict)
    requires ticket.Some? ==> FreshTicket(w, ticket.value)
    requires (stage == Bought && ticket.Some? && verdict == FAILED) || (stage == Refused && (ticket.None? || fault))
    ensures pc.oid in w.orders && Inv(Submit(if fault then Fault(w, i) else w, i, pc, stage, ticket, verdict))
  {
    hide LocksOk, OrdersOk, RowsOk, TicketsOk, ClosedRowsOk, ProcsOk, CidsOk, CallsOk, FaultlessOk;
    RunningFacts(w, i, pc);
    var o, q := w.orders[pc.oid], pc.p.(stage := stage, ticket := ticket);
    var next := Working(pc.claim, pc.oid, q, verdict);
    assert pc.p.ticket.None? && pc.p.tid.Some?;
    AdvanceOrders(w.orders, w.hist, pc.oid, o, q);
    var row := w.trades[q.tid.value];
    AdvanceRow(w.orders, w.hist, w.trades, w.rowOwner, pc.oid, o, q, row);
    assert w.trades[q.tid.value := row] == w.trades;
    SubmitTickets(w, pc.oid, o, q);
    AdvanceProcs(w.orders, w.hist, w.procs, i, pc.oid, o, q, next);
    AdvanceLocks(w.now, w.locks, w.procs, i, next);
    AdvanceCalls(w.orders, w.hist, w.calls, pc.oid, o, q);
    AdvanceFaultless(w.orders, w.hist, w.procs, w.faulty, if fault then w.faulty + {i} else w.faulty,
                     i, pc.oid, o, q, next);
  }

  // ---------------------------------------------------------------- a new order, and the outside world

  lemma WriteIntentInv(w: World, i: Inst, oid: nat, ok: bool)
    requires Inv(w) && PcOf(w, i).Journaling?
    ensures Inv(WriteIntentStep(w, i, PcOf(w, i).claim, oid, ok))
  {
    hide LocksOk, OrdersOk, RowsOk, TicketsOk, ClosedRowsOk, ProcsOk, CidsOk, CallsOk, FaultlessOk;
    var claim := PcOf(w, i).claim;
    PutInv(w, i, Releasing(claim), false);
    if ok && oid !in w.orders && !CidTaken(w.orders, claim.cid) {
      NewOrderInv(w, i, claim, oid);
    }
  }

  lemma NewOrderInv(w: World, i: Inst, claim: Claim, oid: nat)
    requires Inv(w) && i in w.procs && w.procs[i] == Journaling(claim)
    requires oid !in w.orders && !CidTaken(w.orders, claim.cid)
    ensures Inv(WriteIntentStep(w, i, claim, oid, true))
  {
    hide LocksOk, OrdersOk, RowsOk, TicketsOk, ClosedRowsOk, ProcsOk, CidsOk, CallsOk, FaultlessOk;
    var o, p := Order(PENDING, None, claim.cid, i), Progress(IntentWritten, None, None, None);
    var pc := Working(claim, oid, p, FAILED);
    AdvanceLocks(w.now, w.locks, w.procs, i, pc);
    NewOrderRecord(w.orders, w.hist, oid, o, p);
    NewOrderRows(w.orders, w.hist, w.trades, w.rowOwner, oid, o, p);
    NewOrderTickets(w.orders, w.hist, w.positions, w.ticketOwner, oid, o, p);
    NewOrderProcs(w.orders, w.hist, w.procs, w.faulty, i, pc, o);
    NewOrderCids(w.orders, oid, o);
    NewOrderCalls(w.orders, w.hist, w.calls, oid, o, p);
  }

  lemma NewOrderRecord(orders: Orders, hist: Hist, oid: nat, o: Order, p: Progress)
    requires OrdersOk(orders, hist) && OrderShape(o, p)
    ensures OrdersOk(orders[oid := o], hist[oid := p])
  {
  }

  lemma NewOrderRows(orders: Orders, hist: Hist, trades: map<nat, Trade>, rowOwner: map<nat, nat>,
                     oid: nat, o: Order, p: Progress)
    requires RowsOk(orders, hist, trades, rowOwner) && oid !in orders && p.tid.None?
    ensures RowsOk(orders[oid := o], hist[oid := p], trades, rowOwner)
  {
    assert forall t :: t in rowOwner ==> rowOwner[t] != oid;
  }

  lemma NewOrderTickets(orders: Orders, hist: Hist, positions: map<nat, Inst>, ticketOwner: map<nat, nat>,
                        oid: nat, o: Order, p: Progress)
    requires TicketsOk(orders, hist, positions, ticketOwner) && oid !in orders && p.ticket.None?
    ensures TicketsOk(orders[oid := o], hist[oid := p], positions, ticketOwner)
  {
    assert forall t :: t in ticketOwner ==> ticketOwner[t] != oid;
  }

  lemma NewOrderProcs(orders: Orders, hist: Hist, procs: Procs, faulty: set<Inst>, i: Inst, pc: Pc, o: Order)
    requires ProcsOk(orders, hist, procs) && FaultlessOk(orders, hist, procs, faulty)
    requires i in procs && !procs[i].Working? && pc.Working? && pc.oid !in orders
    requires ProcShape(orders[pc.oid := o], hist[pc.oid := pc.p], i, pc) && pc.p.stage == IntentWritten
    ensures ProcsOk(orders[pc.oid := o], hist[pc.oid := pc.p], procs[i := pc])
    ensures FaultlessOk(orders[pc.oid := o], hist[pc.oid := pc.p], procs[i := pc], faulty)
  {
    forall j | j in procs && j != i ensures ProcShape(orders[pc.oid := o], hist[pc.oid := pc.p], j, procs[j]) {
      assert ProcShape(orders, hist, j, procs[j]);
    }
  }

  lemma NewOrderCids(orders: Orders, oid: nat, o: Order)
    requires CidsOk(orders) && oid !in orders && !CidTaken(orders, o.cid)
    ensures CidsOk(orders[oid := o])
  {
  }

  lemma NewOrderCalls(orders: Orders, hist: Hist, calls: multiset<Cid>, oid: nat, o: Order, p: Progress)
    requires CallsOk(orders, hist, calls) && oid !in orders && !CidTaken(orders, o.cid) && !HasCalled(p)
    ensures CallsOk(orders[oid := o], hist[oid := p], calls)
  {
    assert o.cid !in calls;
    forall c | c in calls ensures CidTaken(orders[oid := o], c) {
      var k :| k in orders && orders[k].cid == c;
      assert orders[oid := o][k].cid == c;
    }
  }

  lemma TickInv(w: World, delta: nat)
    requires Inv(w)
    ensures Inv(w.(now := w.now + delta))
  {
    forall i | i in w.procs ensures LockShape(w.now + delta, w.locks, i, w.procs[i]) {
      assert LockShape(w.now, w.locks, i, w.procs[i]);
    }
  }

  lemma BrokerClosesInv(w: World, t: nat)
    requires Inv(w)
    ensures Inv(w.(positions := w.positions - {t}))
  {
    hide LocksOk, OrdersOk, RowsOk, ProcsOk, CidsOk, CallsOk, FaultlessOk;
  }

  lemma TradeClosesInv(w: World, tid: nat)
    requires Inv(w)
    ensures Inv(TradeClosesStep(w, tid))
  {
    hide LocksOk, OrdersOk, RowsOk, TicketsOk, ClosedRowsOk, ProcsOk, CidsOk, CallsOk, FaultlessOk;
    if TradeClosesStep(w, tid) != w {
      CloseRow(w.orders, w.hist, w.trades, w.rowOwner, w.positions, tid);
    }
  }

  lemma CloseRow(orders: Orders, hist: Hist, trades: map<nat, Trade>, rowOwner: map<nat, nat>,
                 positions: map<nat, Inst>, tid: nat)
    requires RowsOk(orders, hist, trades, rowOwner) && ClosedRowsOk(trades, positions)
    requires tid in trades && trades[tid].outcome == TradeOpen
    requires trades[tid].ticket.None? || trades[tid].ticket.value !in positions
    ensures RowsOk(orders, hist, trades[tid := trades[tid].(outcome := TradeClosed)], rowOwner)
    ensures ClosedRowsOk(trades[tid := trades[tid].(outcome := TradeClosed)], positions)
  {
    assert RowShape(orders[rowOwner[tid]], hist[rowOwner[tid]], trades[tid]);
  }

  /** Every step keeps the invariant. */
  lemma StepInv(w: World, a: Act)
    requires Inv(w)
    ensures Inv(Step(w, a))
  {
    hide LocksOk, OrdersOk, RowsOk, TicketsOk, ClosedRowsOk, ProcsOk, CidsOk, CallsOk, FaultlessOk;
    match a
    case Tick(delta) => TickInv(w, delta);
    case Start(i, sym, cid) => PutInv(w, i, Locking(Claim(sym, w.now, cid)), PcOf(w, i).Working?);
    case TryLock(i, ok) => if PcOf(w, i).Locking? { TryLockInv(w, i, ok); }
    case Risk(i, answer) =>
      if PcOf(w, i).Locked? {
        var claim := PcOf(w, i).claim;
        PutInv(w, i, Journaling(claim), false);
        PutInv(w, i, Releasing(claim), false);
        PutInv(w, i, Idle, false);
      }
    case WriteIntent(i, oid, ok) => if PcOf(w, i).Journaling? { WriteIntentInv(w, i, oid, ok); }
    case Release(i, ok) => if PcOf(w, i).Releasing? { ReleaseInv(w, i, ok); }
    case Crash(i) => PutInv(w, i, Down, true);
    case Restart(i, force) => if PcOf(w, i).Down? { PutInv(w, i, Idle, false); }
    case BrokerCloses(t) => BrokerClosesInv(w, t);
    case TradeCloses(tid) => TradeClosesInv(w, tid);
    case _ => WorkInv(w, a);
  }

  lemma WorkInv(w: World, a: Act)
    requires Inv(w) && IsWork(a)
    ensures Inv(Step(w, a))
  {
    hide Inv;
    var pc := PcOf(w, a.i);
    if pc.Working? && pc.oid in w.orders {
      hide OrderWriteStep, RowWriteStep;
      if IsOrderWrite(a) {
        OrderWriteInv(w, a.i, pc, a);
      } else {
        RowWriteInv(w, a.i, pc, a);
      }
    }
  }

  lemma OrderWriteInv(w: World, i: Inst, pc: Pc, a: Act)
    requires Running(w, i, pc) && pc.oid in w.orders && IsOrderWrite(a) && a.i == i
    ensures Inv(OrderWriteStep(w, a))
  {
    hide Inv, WriteOrder, Abort, OrderShape, RowShape, LockShape, CleanSoFar, ProcShape;
    match a
    case WriteApproved(_, ok) => if pc.p.stage == IntentWritten { ApprovedInv(w, i, pc, ok); }
    case WriteSent(_, ok) => if pc.p.stage == Bought { SentInv(w, i, pc, ok); }
    case WriteFilled(_, ok) => if pc.p.stage == Promoted { FilledInv(w, i, pc, ok); }
    case WriteClosed(_, ok) => if pc.p.stage == OutcomeTried || pc.p.stage == JournalFailed { ClosedInv(w, i, pc, ok); }
  }

  lemma AbortInv(w: World, i: Inst, pc: Pc)
    requires Running(w, i, pc)
    ensures Inv(Abort(w, i, pc.claim))
  {
    hide LocksOk, OrdersOk, RowsOk, TicketsOk, ClosedRowsOk, ProcsOk, CidsOk, CallsOk, FaultlessOk;
    PutInv(w, i, Releasing(pc.claim), true);
  }

  lemma ApprovedInv(w: World, i: Inst, pc: Pc, ok: bool)
    requires Running(w, i, pc) && pc.p.stage == IntentWritten && pc.oid in w.orders
    ensures Inv(if ok then WriteOrder(w, i, pc, w.orders[pc.oid].(status := APPROVED), Approved) else Abort(w, i, pc.claim))
  {
    hide Inv, WriteOrder, Abort, LockShape, CleanSoFar, RowShape;
    RunningFacts(w, i, pc);
    if ok { WriteOrderInv(w, i, pc, w.orders[pc.oid].(status := APPROVED), Approved); } else { AbortInv(w, i, pc); }
  }

  lemma SentInv(w: World, i: Inst, pc: Pc, ok: bool)
    requires Running(w, i, pc) && pc.p.stage == Bought && pc.oid in w.orders
    ensures Inv(if ok then WriteOrder(w, i, pc, w.orders[pc.oid].(status := SENT, ticket := pc.p.ticket), SentWritten)
                else Abort(w, i, pc.claim))
  {
    hide Inv, WriteOrder, Abort, LockShape, CleanSoFar, RowShape;
    RunningFacts(w, i, pc);
    if ok {
      WriteOrderInv(w, i, pc, w.orders[pc.oid].(status := SENT, ticket := pc.p.ticket), SentWritten);
    } else {
      AbortInv(w, i, pc);
    }
  }

  lemma FilledInv(w: World, i: Inst, pc: Pc, ok: bool)
    requires Running(w, i, pc) && pc.p.stage == Promoted && pc.oid in w.orders
    ensures Inv(if ok then WriteOrder(w, i, pc, w.orders[pc.oid].(status := FILLED), Completed) else Abort(w, i, pc.claim))
  {
    hide Inv, WriteOrder, Abort, LockShape, CleanSoFar, RowShape;
    RunningFacts(w, i, pc);
    if ok { WriteOrderInv(w, i, pc, w.orders[pc.oid].(status := FILLED), Completed); } else { AbortInv(w, i, pc); }
  }

  lemma ClosedInv(w: World, i: Inst, pc: Pc, ok: bool)
    requires Running(w, i, pc) && (pc.p.stage == OutcomeTried || pc.p.stage == JournalFailed) && pc.oid in w.orders
    ensures Inv(if ok then WriteOrder(w, i, pc, w.orders[pc.oid].(status := pc.verdict), Closed) else Abort(w, i, pc.claim))
  {
    hide Inv, WriteOrder, Abort, LockShape, CleanSoFar, RowShape;
    RunningFacts(w, i, pc);
    if ok { WriteOrderInv(w, i, pc, w.orders[pc.oid].(status := pc.verdict), Closed); } else { AbortInv(w, i, pc); }
  }

  lemma RowWriteInv(w: World, i: Inst, pc: Pc, a: Act)
    requires Running(w, i, pc) && pc.oid in w.orders && IsRowWrite(a) && a.i == i
    ensures Inv(RowWriteStep(w, a))
  {
    hide Inv, WriteRowStep, CallStep, PromoteStep, WriteOutcomeStep, Abort;
    match a
    case WriteRow(_, tid, ok) => if pc.p.stage == Approved { WriteRowInv(w, i, pc, tid, ok); }
    case CallBroker(_, reply) => if pc.p.stage == Journaled { CallInv(w, i, pc, reply); }
    case PromoteRow(_, ok) =>
      AbortInv(w, i, pc);
      if pc.p.stage == SentWritten && HasRowIn(w, pc) { PromoteInv(w, i, pc); }
    case WriteOutcome(_, ok) => if pc.p.stage == Refused && HasRowIn(w, pc) { WriteOutcomeInv(w, i, pc, ok); }
  }

  lemma WriteRowInv(w: World, i: Inst, pc: Pc, tid: nat, ok: bool)
    requires Running(w, i, pc) && pc.p.stage == Approved && pc.oid in w.orders
    ensures Inv(WriteRowStep(w, i, pc, tid, ok))
  {
    hide Inv, WriteOrder, NewRow, LockShape, CleanSoFar, RowShape;
    RunningFacts(w, i, pc);
    if ok && tid !in w.trades {
      NewRowInv(w, i, pc, tid);
    } else if !ok {
      WriteOrderInv(w, i, pc, w.orders[pc.oid], JournalFailed);
    }
  }

  lemma CallInv(w: World, i: Inst, pc: Pc, reply: BrokerAnswer)
    requires Running(w, i, pc) && pc.p.stage == Journaled && pc.oid in w.orders
    ensures Inv(CallStep(w, i, pc, reply))
  {
    hide LocksOk, OrdersOk, RowsOk, TicketsOk, ClosedRowsOk, ProcsOk, CidsOk, CallsOk, FaultlessOk;
    match reply
    case Filled(t) => if FreshTicket(w, t) { SubmitInv(w, i, pc, Bought, Some(t), FAILED, false); }
    case Failed(hasMessage, raised, position) =>
      var verdict := if hasMessage && !raised then REJECTED else FAILED;
      if position.None? {
        SubmitInv(w, i, pc, Refused, None, verdict, false);
      } else if FreshTicket(w, position.value) {
        SubmitInv(w, i, pc, Refused, position, verdict, true);
      }
  }

  lemma PromoteInv(w: World, i: Inst, pc: Pc)
    requires Running(w, i, pc) && pc.p.stage == SentWritten && pc.oid in w.orders && HasRowIn(w, pc)
    ensures Inv(PromoteStep(w, i, pc))
  {
    hide LocksOk, OrdersOk, RowsOk, TicketsOk, ClosedRowsOk, ProcsOk, CidsOk, CallsOk, FaultlessOk;
    RunningFacts(w, i, pc);
    UpdateRowInv(w, i, pc, w.trades[pc.p.tid.value].(outcome := TradeOpen, ticket := pc.p.ticket),
                 pc.p.(stage := Promoted), false);
  }

  lemma WriteOutcomeInv(w: World, i: Inst, pc: Pc, ok: bool)
    requires Running(w, i, pc) && pc.p.stage == Refused && pc.oid in w.orders && HasRowIn(w, pc)
    ensures Inv(WriteOutcomeStep(w, i, pc, ok))
  {
    hide LocksOk, OrdersOk, RowsOk, TicketsOk, ClosedRowsOk, ProcsOk, CidsOk, CallsOk, FaultlessOk;
    RunningFacts(w, i, pc);
    var row, q := w.trades[pc.p.tid.value], pc.p.(stage := OutcomeTried, told := ToldAs(ok, pc.verdict));
    UpdateRowInv(w, i, pc, if ok then row.(outcome := FailedOutcome(pc.verdict)) else row, q, !ok);
  }

  /** The invariant holds in every state of every run. */
  lemma {:induction false} RunInv(acts: seq<Act>)
    ensures Inv(Run(acts))
  {
    if acts != [] {
      RunInv(acts[..|acts| - 1]);
      StepInv(Run(acts[..|acts| - 1]), acts[|acts| - 1]);
    }
  }
}
