/** What one step of the execution protocol leaves alone. */
module ProtocolFrames {
  import opened OrderState
  import opened Protocol
  import opened ProtocolInvariant
  import opened Wrappers

  /** What a step may touch: one instance's program counter, one order record, the submission
      history, the lock table. */
  datatype Scope = Scope(actor: Option<Inst>, own: Option<nat>, call: bool, lock: bool)

  function ScopeOf(w: World, a: Act): Scope {
    Scope(if a.Tick? || a.BrokerCloses? || a.TradeCloses? then None else Some(a.i),
          if IsWork(a) && PcOf(w, a.i).Working? then Some(PcOf(w, a.i).oid) else None,
          a.CallBroker?, a.TryLock? || a.Release?)
  }

  predicate Untouched(w: World, v: World, oid: nat)
    requires oid in w.orders && oid in w.hist
  {
    oid in v.orders && v.orders[oid] == w.orders[oid] && oid in v.hist && v.hist[oid] == w.hist[oid]
  }

  /** Records of other executions stay, and records keep their identity; new ones are PENDING; rows
      keep their stamp; only fresh tickets appear; and no instance starts working on an order that
      already exists. */
  ghost predicate Frame(w: World, v: World, s: Scope) {
    && v.now >= w.now
    && (forall oid :: oid in w.orders && oid in w.hist && s.own != Some(oid) ==> Untouched(w, v, oid))
    && (forall oid :: oid in w.orders ==>
          oid in v.orders && v.orders[oid].cid == w.orders[oid].cid && v.orders[oid].inst == w.orders[oid].inst)
    && (forall oid :: oid in v.orders && oid !in w.orders && s.own != Some(oid) ==> v.orders[oid].status == PENDING)
    && (forall tid :: tid in w.trades ==> tid in v.trades && v.trades[tid].openedAt == w.trades[tid].openedAt)
    && (forall t :: t in v.positions ==> if t in w.positions then v.positions[t] == w.positions[t] else t !in w.ticketOwner)
    && (forall i :: i in v.procs && v.procs[i].Working? ==>
          v.procs[i].oid !in w.orders || (i in w.procs && w.procs[i].Working? && w.procs[i].oid == v.procs[i].oid))
    && (forall i :: s.actor != Some(i) ==> PcOf(v, i) == PcOf(w, i))
    && (s.call || v.calls == w.calls)
    && (s.lock || v.locks == w.locks)
  }

  /** Every step stays within its scope. */
  lemma StepFrame(w: World, a: Act)
    requires Inv(w)
    ensures Frame(w, Step(w, a), ScopeOf(w, a))
  {
    PositionsHaveOwners(w);
    hide OrderWriteStep, RowWriteStep, OutsideStep, Frame, Inv;
    if IsOrderWrite(a) {
      OrderWriteFrame(w, a);
    } else if IsRowWrite(a) {
      RowWriteFrame(w, a);
    } else {
      OutsideFrame(w, a);
    }
  }

  lemma PositionsHaveOwners(w: World)
    requires Inv(w)
    ensures w.positions.Keys <= w.ticketOwner.Keys
  {
  }

  // ---------------------------------------------------------------- the writes

  lemma SameFrame(w: World, s: Scope)
    ensures Frame(w, w, s)
  {
  }

  lemma PutFrame(w: World, i: Inst, pc: Pc, s: Scope)
    requires s.actor == Some(i)
    requires !pc.Working?
    ensures Frame(w, Put(w, i, pc), s)
  {
  }

  lemma FaultFrame(w: World, i: Inst, v: World, s: Scope)
    requires Frame(Fault(w, i), v, s)
    ensures Frame(w, v, s)
  {
  }

  lemma FaultPutFrame(w: World, i: Inst, pc: Pc, s: Scope)
    requires s.actor == Some(i) && !pc.Working?
    ensures Frame(w, Put(Fault(w, i), i, pc), s)
  {
    hide Frame;
    PutFrame(Fault(w, i), i, pc, s);
    FaultFrame(w, i, Put(Fault(w, i), i, pc), s);
  }

  lemma AbortFrame(w: World, i: Inst, claim: Claim, s: Scope)
    requires s.actor == Some(i)
    ensures Frame(w, Abort(w, i, claim), s)
  {
    FaultPutFrame(w, i, Releasing(claim), s);
  }

  lemma WriteOrderFrame(w: World, i: Inst, pc: Pc, o: Order, stage: Stage, s: Scope)
    requires s.actor == Some(i)
    requires PcOf(w, i) == pc && pc.Working? && s.own == Some(pc.oid)
    requires pc.oid in w.orders && o.cid == w.orders[pc.oid].cid && o.inst == w.orders[pc.oid].inst
    ensures Frame(w, WriteOrder(w, i, pc, o, stage), s)
  {
  }

  lemma NewRowFrame(w: World, i: Inst, pc: Pc, tid: nat, s: Scope)
    requires s.actor == Some(i)
    requires PcOf(w, i) == pc && pc.Working? && pc.oid in w.orders && tid !in w.trades && s.own == Some(pc.oid)
    ensures Frame(w, NewRow(w, i, pc, tid), s)
  {
  }

  lemma UpdateRowFrame(w: World, i: Inst, pc: Pc, row: Trade, q: Progress, s: Scope)
    requires s.actor == Some(i)
    requires PcOf(w, i) == pc && pc.Working? && pc.oid in w.orders && HasRowIn(w, pc) && s.own == Some(pc.oid)
    requires row.openedAt == w.trades[pc.p.tid.value].openedAt
    ensures Frame(w, UpdateRow(w, i, pc, row, q), s)
  {
  }

  lemma SubmitFrame(w: World, i: Inst, pc: Pc, stage: Stage, ticket: Option<nat>, verdict: State, s: Scope)
    requires s.actor == Some(i)
    requires PcOf(w, i) == pc && pc.Working? && pc.oid in w.orders && (ticket.Some? ==> FreshTicket(w, ticket.value))
    requires w.positions.Keys <= w.ticketOwner.Keys && s.own == Some(pc.oid) && s.call
    ensures Frame(w, Submit(w, i, pc, stage, ticket, verdict), s)
  {
    hide Frame, Advance;
    var q := pc.p.(stage := stage, ticket := ticket);
    var next, calls := Working(pc.claim, pc.oid, q, verdict), w.calls + multiset{pc.claim.cid};
    AdvanceFrame(w, i, pc, q, next, s);
    var v := Advance(w, i, pc.oid, w.orders[pc.oid], q, next);
    PlacedFrame(w, v, calls, ticket, i, pc.oid, s);
    PlacedAdvance(w, i, pc, q, next, calls, ticket);
  }

  lemma AdvanceFrame(w: World, i: Inst, pc: Pc, q: Progress, next: Pc, s: Scope)
    requires s.actor == Some(i) && PcOf(w, i) == pc && pc.Working? && pc.oid in w.orders && s.own == Some(pc.oid)
    requires next.Working? && next.oid == pc.oid
    ensures Frame(w, Advance(w, i, pc.oid, w.orders[pc.oid], q, next), s)
  {
  }

  /** The history of a submission and the position it may open. */
  function Placing(v: World, calls: multiset<Cid>, ticket: Option<nat>, i: Inst, oid: nat): World {
    var called := v.(calls := calls);
    if ticket.None? then called
    else called.(positions := v.positions[ticket.value := i], ticketOwner := v.ticketOwner[ticket.value := oid])
  }

  lemma PlacedFrame(w: World, v: World, calls: multiset<Cid>, ticket: Option<nat>, i: Inst, oid: nat, s: Scope)
    requires Frame(w, v, s) && s.call && w.positions.Keys <= w.ticketOwner.Keys && (ticket.Some? ==> FreshTicket(w, ticket.value))
    ensures Frame(w, Placing(v, calls, ticket, i, oid), s)
  {
  }

  lemma PlacedAdvance(w: World, i: Inst, pc: Pc, q: Progress, next: Pc, calls: multiset<Cid>, ticket: Option<nat>)
    requires pc.Working? && pc.oid in w.orders
    ensures Placing(Advance(w, i, pc.oid, w.orders[pc.oid], q, next), calls, ticket, i, pc.oid)
            == Advance(Placing(w, calls, ticket, i, pc.oid), i, pc.oid, w.orders[pc.oid], q, next)
  {
  }

  // ---------------------------------------------------------------- the steps of a running execution

  lemma OrderWriteFrame(w: World, a: Act)
    requires IsOrderWrite(a)
    ensures Frame(w, OrderWriteStep(w, a), ScopeOf(w, a))
  {
    hide Frame, Abort, WriteOrder;
    var s, pc := ScopeOf(w, a), PcOf(w, a.i);
    SameFrame(w, s);
    if pc.Working? && pc.oid in w.orders {
      var o := w.orders[pc.oid];
      AbortFrame(w, a.i, pc.claim, s);
      match a
      case WriteApproved(i, _) => WriteOrderFrame(w, i, pc, o.(status := APPROVED), Approved, s);
      case WriteSent(i, _) => WriteOrderFrame(w, i, pc, o.(status := SENT, ticket := pc.p.ticket), SentWritten, s);
      case WriteFilled(i, _) => WriteOrderFrame(w, i, pc, o.(status := FILLED), Completed, s);
      case WriteClosed(i, _) => WriteOrderFrame(w, i, pc, o.(status := pc.verdict), Closed, s);
    }
  }

  lemma RowWriteFrame(w: World, a: Act)
    requires w.positions.Keys <= w.ticketOwner.Keys && IsRowWrite(a)
    ensures Frame(w, RowWriteStep(w, a), ScopeOf(w, a))
  {
    hide Frame, Abort, WriteRowStep, CallStep, PromoteStep, WriteOutcomeStep;
    var s, pc := ScopeOf(w, a), PcOf(w, a.i);
    SameFrame(w, s);
    if pc.Working? && pc.oid in w.orders {
      AbortFrame(w, a.i, pc.claim, s);
      match a
      case WriteRow(i, tid, ok) => WriteRowFrame(w, i, pc, tid, ok, s);
      case CallBroker(i, reply) => CallFrame(w, i, pc, reply, s);
      case PromoteRow(i, _) => if HasRowIn(w, pc) { PromoteFrame(w, i, pc, s); }
      case WriteOutcome(i, ok) => if HasRowIn(w, pc) { OutcomeFrame(w, i, pc, ok, s); }
    }
  }

  lemma WriteRowFrame(w: World, i: Inst, pc: Pc, tid: nat, ok: bool, s: Scope)
    requires s.actor == Some(i)
    requires PcOf(w, i) == pc && pc.Working? && pc.oid in w.orders && s.own == Some(pc.oid)
    ensures Frame(w, WriteRowStep(w, i, pc, tid, ok), s)
  {
    hide Frame, WriteOrder, NewRow;
    SameFrame(w, s);
    WriteOrderFrame(w, i, pc, w.orders[pc.oid], JournalFailed, s);
    if tid !in w.trades { NewRowFrame(w, i, pc, tid, s); }
  }

  lemma PromoteFrame(w: World, i: Inst, pc: Pc, s: Scope)
    requires s.actor == Some(i)
    requires PcOf(w, i) == pc && pc.Working? && pc.oid in w.orders && HasRowIn(w, pc) && s.own == Some(pc.oid)
    ensures Frame(w, PromoteStep(w, i, pc), s)
  {
    hide Frame, UpdateRow;
    var row := w.trades[pc.p.tid.value].(outcome := TradeOpen, ticket := pc.p.ticket);
    UpdateRowFrame(w, i, pc, row, pc.p.(stage := Promoted), s);
  }

  lemma OutcomeFrame(w: World, i: Inst, pc: Pc, ok: bool, s: Scope)
    requires s.actor == Some(i)
    requires PcOf(w, i) == pc && pc.Working? && pc.oid in w.orders && HasRowIn(w, pc) && s.own == Some(pc.oid)
    ensures Frame(w, WriteOutcomeStep(w, i, pc, ok), s)
  {
    hide Frame, UpdateRow, Fault;
    var row, q := w.trades[pc.p.tid.value], pc.p.(stage := OutcomeTried, told := ToldAs(ok, pc.verdict));
    if ok {
      UpdateRowFrame(w, i, pc, row.(outcome := FailedOutcome(pc.verdict)), q, s);
    } else {
      FaultedUpdateFrame(w, i, pc, row, q, s);
    }
  }

  lemma FaultedUpdateFrame(w: World, i: Inst, pc: Pc, row: Trade, q: Progress, s: Scope)
    requires s.actor == Some(i)
    requires PcOf(w, i) == pc && pc.Working? && pc.oid in w.orders && HasRowIn(w, pc) && s.own == Some(pc.oid)
    requires row.openedAt == w.trades[pc.p.tid.value].openedAt
    ensures Frame(w, UpdateRow(Fault(w, i), i, pc, row, q), s)
  {
    hide Frame, UpdateRow;
    UpdateRowFrame(Fault(w, i), i, pc, row, q, s);
    FaultFrame(w, i, UpdateRow(Fault(w, i), i, pc, row, q), s);
  }

  lemma FaultedSubmitFrame(w: World, i: Inst, pc: Pc, stage: Stage, ticket: Option<nat>, verdict: State, s: Scope)
    requires s.actor == Some(i)
    requires PcOf(w, i) == pc && pc.Working? && pc.oid in w.orders && (ticket.Some? ==> FreshTicket(w, ticket.value))
    requires w.positions.Keys <= w.ticketOwner.Keys && s.own == Some(pc.oid) && s.call
    ensures Frame(w, Submit(Fault(w, i), i, pc, stage, ticket, verdict), s)
  {
    hide Frame, Submit;
    SubmitFrame(Fault(w, i), i, pc, stage, ticket, verdict, s);
    FaultFrame(w, i, Submit(Fault(w, i), i, pc, stage, ticket, verdict), s);
  }

  lemma CallFrame(w: World, i: Inst, pc: Pc, reply: BrokerAnswer, s: Scope)
    requires s.actor == Some(i)
    requires PcOf(w, i) == pc && pc.Working? && pc.oid in w.orders && w.positions.Keys <= w.ticketOwner.Keys
    requires s.own == Some(pc.oid) && s.call
    ensures Frame(w, CallStep(w, i, pc, reply), s)
  {
    hide Frame, Submit, Fault;
    SameFrame(w, s);
    match reply
    case Filled(t) => if FreshTicket(w, t) { SubmitFrame(w, i, pc, Bought, Some(t), FAILED, s); }
    case Failed(hasMessage, raised, position) =>
      var verdict := if hasMessage && !raised then REJECTED else FAILED;
      if position.None? {
        SubmitFrame(w, i, pc, Refused, None, verdict, s);
      } else if FreshTicket(w, position.value) {
        FaultedSubmitFrame(w, i, pc, Refused, position, verdict, s);
      }
  }

  // ---------------------------------------------------------------- all other steps

  lemma OutsideFrame(w: World, a: Act)
    requires !IsWork(a)
    ensures Frame(w, OutsideStep(w, a), ScopeOf(w, a))
  {
    hide Frame, Put, Fault, GateCritical, TryLockStep, RiskStep, WriteIntentStep, ReleaseStep, TradeClosesStep;
    var s := ScopeOf(w, a);
    SameFrame(w, s);
    match a
    case Tick(delta) => TickFrame(w, delta, s);
    case Start(i, sym, cid) => PutFrame(w, i, Locking(Claim(sym, w.now, cid)), s);
    case TryLock(i, ok) => if PcOf(w, i).Locking? { LockFrame(w, i, PcOf(w, i).claim, ok, s); }
    case Risk(i, answer) => if PcOf(w, i).Locked? { RiskFrame(w, i, PcOf(w, i).claim, answer, s); }
    case WriteIntent(i, oid, ok) => if PcOf(w, i).Journaling? { IntentFrame(w, i, PcOf(w, i).claim, oid, ok, s); }
    case Release(i, ok) => if PcOf(w, i).Releasing? { ReleaseFrame(w, i, PcOf(w, i).claim, ok, s); }
    case Crash(i) => FaultPutFrame(w, i, Down, s);
    case Restart(i, force) => PutFrame(w, i, Idle, s);
    case BrokerCloses(t) => MarketFrame(w, t, s);
    case TradeCloses(tid) => TradeClosesFrame(w, tid, s);
  }

  lemma TickFrame(w: World, delta: nat, s: Scope)
    ensures Frame(w, w.(now := w.now + delta), s)
  {
  }

  lemma MarketFrame(w: World, t: nat, s: Scope)
    ensures Frame(w, w.(positions := w.positions - {t}), s)
  {
  }

  lemma TradeClosesFrame(w: World, tid: nat, s: Scope)
    ensures Frame(w, TradeClosesStep(w, tid), s)
  {
    hide Frame;
    SameFrame(w, s);
    if tid in w.trades {
      CloseRowFrame(w, tid, w.trades[tid].(outcome := TradeClosed), s);
    }
  }

  lemma CloseRowFrame(w: World, tid: nat, row: Trade, s: Scope)
    requires tid in w.trades && row.openedAt == w.trades[tid].openedAt
    ensures Frame(w, w.(trades := w.trades[tid := row]), s)
  {
  }

  lemma RiskFrame(w: World, i: Inst, claim: Claim, answer: RiskAnswer, s: Scope)
    requires s.actor == Some(i)
    ensures Frame(w, RiskStep(w, i, claim, answer), s)
  {
    PutFrame(w, i, Journaling(claim), s);
    PutFrame(w, i, Releasing(claim), s);
    PutFrame(w, i, Idle, s);
  }

  lemma LocksFrame(w: World, locks: map<Symbol, Lock>, v: World, s: Scope)
    requires s.lock && Frame(w.(locks := locks), v, s)
    ensures Frame(w, v, s)
  {
  }

  lemma LockFrame(w: World, i: Inst, claim: Claim, ok: bool, s: Scope)
    requires s.actor == Some(i)
    requires s.lock
    ensures Frame(w, TryLockStep(w, i, claim, ok), s)
  {
    hide Frame, Put;
    PutFrame(w, i, Idle, s);
    var locks := w.locks[claim.sym := Lock(i, claim.since)];
    PutFrame(w.(locks := locks), i, Locked(claim), s);
    LocksFrame(w, locks, Put(w.(locks := locks), i, Locked(claim)), s);
  }

  lemma ReleaseFrame(w: World, i: Inst, claim: Claim, ok: bool, s: Scope)
    requires s.actor == Some(i)
    requires s.lock
    ensures Frame(w, ReleaseStep(w, i, claim, ok), s)
  {
    hide Frame, Put;
    PutFrame(w, i, Idle, s);
    var locks := w.locks - {claim.sym};
    PutFrame(w.(locks := locks), i, Idle, s);
    LocksFrame(w, locks, Put(w.(locks := locks), i, Idle), s);
  }

  lemma IntentFrame(w: World, i: Inst, claim: Claim, oid: nat, ok: bool, s: Scope)
    requires s.actor == Some(i)
    ensures Frame(w, WriteIntentStep(w, i, claim, oid, ok), s)
  {
    hide Frame, Put, Advance, CidTaken;
    PutFrame(w, i, Releasing(claim), s);
    if oid !in w.orders {
      var p := Progress(IntentWritten, None, None, None);
      NewOrderFrame(w, i, oid, Order(PENDING, None, claim.cid, i), p, Working(claim, oid, p, FAILED), s);
    }
  }

  lemma NewOrderFrame(w: World, i: Inst, oid: nat, o: Order, p: Progress, pc: Pc, s: Scope)
    requires s.actor == Some(i)
    requires oid !in w.orders && o.status == PENDING && pc.Working? && pc.oid == oid
    ensures Frame(w, Advance(w, i, oid, o, p, pc), s)
  {
  }
}
