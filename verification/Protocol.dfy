/** The order execution protocol (execution/service.py, control_plane.py) as a state machine whose
    steps are the code between two awaits.  Any number of instances interleave; any write may fail
    and any instance may stop at any point.  Committed tables are maps. */
module Protocol {
  import opened OrderState
  import opened Wrappers

  type Inst = string
  type Symbol = string
  type Cid = string

  const LOCK_TTL := 30
  const PENDING_GRACE := 300

  datatype Outcome = TradePending | TradeOpen | TradeFailed | TradeRejected | TradeClosed

  datatype Lock = Lock(owner: Inst, at: int)

  datatype Order = Order(status: State, ticket: Option<nat>, cid: Cid, inst: Inst)

  datatype Trade = Trade(outcome: Outcome, ticket: Option<nat>, cid: Cid, inst: Inst, openedAt: int)

  /** What a call has claimed: its symbol, the clock reading stamped on the lock row, its client id. */
  datatype Claim = Claim(sym: Symbol, since: int, cid: Cid)

  /** How far an execution has come, named after the last thing that happened. */
  datatype Stage =
    | IntentWritten    // order PENDING
    | Approved         // order APPROVED
    | Journaled        // trade row PENDING; the broker call is next
    | JournalFailed    // no trade row; the order is to be failed
    | Bought           // the broker reported a fill
    | SentWritten      // order SENT with its ticket
    | Promoted         // trade row OPEN with its ticket
    | Completed        // order FILLED
    | Refused          // the broker reported a failure, or raised
    | OutcomeTried     // the trade row was to be failed; the write may have been lost
    | Closed           // order FAILED or REJECTED

  /** `ticket` is the position opened at the broker, if any; `told` is the verdict
      that reached the trade row, if one did. */
  datatype Progress = Progress(stage: Stage, tid: Option<nat>, ticket: Option<nat>, told: Option<State>)

  /** Where an instance stands. `verdict` is the status a failed execution ends in. */
  datatype Pc =
    | Idle
    | Down
    | Locking(claim: Claim)
    | Locked(claim: Claim)
    | Journaling(claim: Claim)
    | Working(claim: Claim, oid: nat, p: Progress, verdict: State)
    | Releasing(claim: Claim)

  datatype World = World(
    now: int,
    locks: map<Symbol, Lock>,
    orders: map<nat, Order>,
    trades: map<nat, Trade>,
    positions: map<nat, Inst>,
    procs: map<Inst, Pc>,
    // history, read by no step except to keep broker tickets fresh
    hist: map<nat, Progress>,
    rowOwner: map<nat, nat>,
    ticketOwner: map<nat, nat>,
    calls: multiset<Cid>,
    faulty: set<Inst>)

  datatype RiskAnswer = Allowed | Denied | Raised

  /** A fill with its ticket; or a reported failure, with or without a message, or an exception.
      `position` is one that exists at the broker in spite of the reported failure. */
  datatype BrokerAnswer =
    | Filled(ticket: nat)
    | Failed(hasMessage: bool, raised: bool, position: Option<nat>)

  datatype Act =
    | Tick(delta: nat)
    | Start(i: Inst, sym: Symbol, cid: Cid)
    | TryLock(i: Inst, ok: bool)
    | Risk(i: Inst, answer: RiskAnswer)
    | WriteIntent(i: Inst, newOid: nat, ok: bool)
    | WriteApproved(i: Inst, ok: bool)
    | WriteRow(i: Inst, newTid: nat, ok: bool)
    | CallBroker(i: Inst, reply: BrokerAnswer)
    | WriteSent(i: Inst, ok: bool)
    | PromoteRow(i: Inst, ok: bool)
    | WriteFilled(i: Inst, ok: bool)
    | WriteOutcome(i: Inst, ok: bool)
    | WriteClosed(i: Inst, ok: bool)
    | Release(i: Inst, ok: bool)
    | Crash(i: Inst)
    | Restart(i: Inst, force: bool)
    | BrokerCloses(ticket: nat)
    | TradeCloses(tid: nat)

  // ---------------------------------------------------------------- steps

  function PcOf(w: World, i: Inst): Pc { if i in w.procs then w.procs[i] else Idle }

  function Put(w: World, i: Inst, pc: Pc): World { w.(procs := w.procs[i := pc]) }

  /** A failed write or a lost process. */
  function Fault(w: World, i: Inst): World { w.(faulty := w.faulty + {i}) }

  /** The execution moves on: its order record becomes `o`, its progress `p`. */
  function Advance(w: World, i: Inst, oid: nat, o: Order, p: Progress, pc: Pc): World {
    w.(orders := w.orders[oid := o], hist := w.hist[oid := p], procs := w.procs[i := pc])
  }

  predicate CidTaken(orders: map<nat, Order>, cid: Cid) { exists oid :: oid in orders && orders[oid].cid == cid }

  predicate At(w: World, i: Inst, stage: Stage) {
    PcOf(w, i).Working? && PcOf(w, i).p.stage == stage && PcOf(w, i).oid in w.orders
  }

  /** The lock transaction: sweep an expired row, insert our own, one commit. */
  function TryLockStep(w: World, i: Inst, claim: Claim, ok: bool): World {
    if !ok then Put(w, i, Idle)
    else if claim.sym in w.locks && !(w.locks[claim.sym].at < claim.since - LOCK_TTL) then Put(w, i, Idle)
    else Put(w.(locks := w.locks[claim.sym := Lock(i, claim.since)]), i, Locked(claim))
  }

  function WriteIntentStep(w: World, i: Inst, claim: Claim, oid: nat, ok: bool): World {
    if !ok then Put(w, i, Releasing(claim))
    else if oid in w.orders || CidTaken(w.orders, claim.cid) then Put(w, i, Releasing(claim))
    else
      var p := Progress(IntentWritten, None, None, None);
      Advance(w, i, oid, Order(PENDING, None, claim.cid, i), p, Working(claim, oid, p, FAILED))
  }

  predicate FreshTicket(w: World, t: nat) { t != 0 && t !in w.ticketOwner }

  /** The submission: recorded in `calls`, with or without a position appearing at the broker. */
  function Submit(w: World, i: Inst, pc: Pc, stage: Stage, ticket: Option<nat>, verdict: State): World
    requires pc.Working? && pc.oid in w.orders
  {
    var q := pc.p.(stage := stage, ticket := ticket);
    var called := w.(calls := w.calls + multiset{pc.claim.cid});
    var placed :=
      if ticket.None? then called
      else called.(positions := w.positions[ticket.value := i], ticketOwner := w.ticketOwner[ticket.value := pc.oid]);
    Advance(placed, i, pc.oid, w.orders[pc.oid], q, Working(pc.claim, pc.oid, q, verdict))
  }

  function CallStep(w: World, i: Inst, pc: Pc, reply: BrokerAnswer): World
    requires pc.Working? && pc.oid in w.orders
  {
    match reply
    case Filled(t) => if FreshTicket(w, t) then Submit(w, i, pc, Bought, Some(t), FAILED) else w
    case Failed(hasMessage, raised, position) =>
      var verdict := if hasMessage && !raised then REJECTED else FAILED;
      if position.None? then Submit(w, i, pc, Refused, None, verdict)
      else if FreshTicket(w, position.value) then Submit(Fault(w, i), i, pc, Refused, position, verdict)
      else w
  }

  function ToldAs(ok: bool, verdict: State): Option<State> { if ok then Some(verdict) else None }

  function FailedOutcome(verdict: State): Outcome { if verdict == REJECTED then TradeRejected else TradeFailed }

  function RiskStep(w: World, i: Inst, claim: Claim, answer: RiskAnswer): World {
    match answer
    case Allowed => Put(w, i, Journaling(claim))
    case Denied => Put(w, i, Releasing(claim))
    case Raised => Put(w, i, Idle)
  }

  function Abort(w: World, i: Inst, claim: Claim): World { Put(Fault(w, i), i, Releasing(claim)) }

  /** One committed write to the order record. */
  function WriteOrder(w: World, i: Inst, pc: Pc, o: Order, stage: Stage): World
    requires pc.Working?
  {
    var q := pc.p.(stage := stage);
    Advance(w, i, pc.oid, o, q,
            if stage == Completed || stage == Closed then Releasing(pc.claim)
            else Working(pc.claim, pc.oid, q, pc.verdict))
  }

  function NewRow(w: World, i: Inst, pc: Pc, tid: nat): World
    requires pc.Working? && pc.oid in w.orders
  {
    var q := pc.p.(stage := Journaled, tid := Some(tid));
    var row := Trade(TradePending, None, pc.claim.cid, i, w.now);
    Advance(w.(trades := w.trades[tid := row], rowOwner := w.rowOwner[tid := pc.oid]),
            i, pc.oid, w.orders[pc.oid], q, Working(pc.claim, pc.oid, q, pc.verdict))
  }

  /** The trade row and the progress change together, in one commit. */
  function UpdateRow(w: World, i: Inst, pc: Pc, row: Trade, q: Progress): World
    requires pc.Working? && pc.oid in w.orders && pc.p.tid.Some?
  {
    Advance(w.(trades := w.trades[pc.p.tid.value := row]),
            i, pc.oid, w.orders[pc.oid], q, Working(pc.claim, pc.oid, q, pc.verdict))
  }

  predicate HasRowIn(w: World, pc: Pc) { pc.Working? && pc.p.tid.Some? && pc.p.tid.value in w.trades }

  function WriteRowStep(w: World, i: Inst, pc: Pc, tid: nat, ok: bool): World
    requires pc.Working? && pc.oid in w.orders
  {
    if !ok then WriteOrder(w, i, pc, w.orders[pc.oid], JournalFailed)
    else if tid in w.trades then w
    else NewRow(w, i, pc, tid)
  }

  function WriteOutcomeStep(w: World, i: Inst, pc: Pc, ok: bool): World
    requires pc.Working? && pc.oid in w.orders && HasRowIn(w, pc)
  {
    var q := pc.p.(stage := OutcomeTried, told := ToldAs(ok, pc.verdict));
    var row := w.trades[pc.p.tid.value];
    if ok then UpdateRow(w, i, pc, row.(outcome := FailedOutcome(pc.verdict)), q)
    else UpdateRow(Fault(w, i), i, pc, row, q)
  }

  function PromoteStep(w: World, i: Inst, pc: Pc): World
    requires pc.Working? && pc.oid in w.orders && HasRowIn(w, pc)
  {
    UpdateRow(w, i, pc, w.trades[pc.p.tid.value].(outcome := TradeOpen, ticket := pc.p.ticket), pc.p.(stage := Promoted))
  }

  function ReleaseStep(w: World, i: Inst, claim: Claim, ok: bool): World {
    if ok && claim.sym in w.locks && w.locks[claim.sym].owner == i
    then Put(w.(locks := w.locks - {claim.sym}), i, Idle)
    else Put(w, i, Idle)
  }

  function TradeClosesStep(w: World, tid: nat): World {
    if tid in w.trades && w.trades[tid].outcome == TradeOpen
       && (w.trades[tid].ticket.None? || w.trades[tid].ticket.value !in w.positions)
    then w.(trades := w.trades[tid := w.trades[tid].(outcome := TradeClosed)])
    else w
  }

  predicate IsOrderWrite(a: Act) { a.WriteApproved? || a.WriteSent? || a.WriteFilled? || a.WriteClosed? }

  predicate IsRowWrite(a: Act) { a.WriteRow? || a.CallBroker? || a.PromoteRow? || a.WriteOutcome? }

  /** The acts of an execution that has an order record. */
  predicate IsWork(a: Act) { IsOrderWrite(a) || IsRowWrite(a) }

  function OrderWriteStep(w: World, a: Act): World
    requires IsOrderWrite(a)
  {
    var pc := PcOf(w, a.i);
    match a
    case WriteApproved(i, ok) =>
      if !At(w, i, IntentWritten) then w
      else if !ok then Abort(w, i, pc.claim)
      else WriteOrder(w, i, pc, w.orders[pc.oid].(status := APPROVED), Approved)
    case WriteSent(i, ok) =>
      if !At(w, i, Bought) then w
      else if !ok then Abort(w, i, pc.claim)
      else WriteOrder(w, i, pc, w.orders[pc.oid].(status := SENT, ticket := pc.p.ticket), SentWritten)
    case WriteFilled(i, ok) =>
      if !At(w, i, Promoted) then w
      else if !ok then Abort(w, i, pc.claim)
      else WriteOrder(w, i, pc, w.orders[pc.oid].(status := FILLED), Completed)
    case WriteClosed(i, ok) =>
      if !At(w, i, OutcomeTried) && !At(w, i, JournalFailed) then w
      else if !ok then Abort(w, i, pc.claim)
      else WriteOrder(w, i, pc, w.orders[pc.oid].(status := pc.verdict), Closed)
  }

  function RowWriteStep(w: World, a: Act): World
    requires IsRowWrite(a)
  {
    var pc := PcOf(w, a.i);
    match a
    case WriteRow(i, tid, ok) => if At(w, i, Approved) then WriteRowStep(w, i, pc, tid, ok) else w
    case CallBroker(i, reply) => if At(w, i, Journaled) then CallStep(w, i, pc, reply) else w
    case PromoteRow(i, ok) =>
      if !At(w, i, SentWritten) || !HasRowIn(w, pc) then w
      else if !ok then Abort(w, i, pc.claim)
      else PromoteStep(w, i, pc)
    case WriteOutcome(i, ok) =>
      if At(w, i, Refused) && HasRowIn(w, pc) then WriteOutcomeStep(w, i, pc, ok) else w
  }

  /** A step that is not enabled leaves the world as it is. */
  function Step(w: World, a: Act): World {
    if IsOrderWrite(a) then OrderWriteStep(w, a)
    else if IsRowWrite(a) then RowWriteStep(w, a)
    else OutsideStep(w, a)
  }

  function OutsideStep(w: World, a: Act): World
    requires !IsWork(a)
  {
    match a
    case Tick(delta) => w.(now := w.now + delta)
    case Start(i, sym, cid) =>
      if PcOf(w, i).Idle? then Put(w, i, Locking(Claim(sym, w.now, cid))) else w
    case TryLock(i, ok) =>
      if PcOf(w, i).Locking? then TryLockStep(w, i, PcOf(w, i).claim, ok) else w
    case Risk(i, answer) =>
      if PcOf(w, i).Locked? then RiskStep(w, i, PcOf(w, i).claim, answer) else w
    case WriteIntent(i, oid, ok) =>
      if PcOf(w, i).Journaling? then WriteIntentStep(w, i, PcOf(w, i).claim, oid, ok) else w
    case Release(i, ok) =>
      if PcOf(w, i).Releasing? then ReleaseStep(w, i, PcOf(w, i).claim, ok) else w
    case Crash(i) => Put(Fault(w, i), i, Down)
    case Restart(i, force) =>
      if PcOf(w, i).Down? && (force || !GateCritical(w, i)) then Put(w, i, Idle) else w
    case BrokerCloses(t) => w.(positions := w.positions - {t})
    case TradeCloses(tid) => TradeClosesStep(w, tid)
  }

  // ---------------------------------------------------------------- the startup gate

  predicate NonTerminal(s: State) {
    s == PENDING || s == APPROVED || s == SENT || s == PARTIAL || s == RECOVERY_PENDING
  }

  predicate SeenAtBroker(w: World, i: Inst, ticket: Option<nat>) {
    ticket.Some? && ticket.value in w.positions && w.positions[ticket.value] == i
  }

  /** Startup order recovery ends with a critical issue: some non-terminal record has no open
      position under its ticket. */
  predicate RecoveryCritical(w: World, i: Inst) {
    exists oid :: oid in w.orders && w.orders[oid].inst == i && NonTerminal(w.orders[oid].status)
      && !SeenAtBroker(w, i, w.orders[oid].ticket)
  }

  predicate OpenRowFor(w: World, i: Inst, ticket: nat) {
    exists tid :: tid in w.trades && w.trades[tid].inst == i && w.trades[tid].outcome == TradeOpen
      && w.trades[tid].ticket == Some(ticket)
  }

  predicate Stale(w: World, tid: nat)
    requires tid in w.trades
  {
    w.trades[tid].outcome == TradePending && w.trades[tid].openedAt < w.now - PENDING_GRACE
  }

  /** Reconciliation ends with a critical issue: a position without an OPEN row, or an old PENDING
      row without a position. */
  predicate ReconcileCritical(w: World, i: Inst) {
    || (exists t :: t in w.positions && w.positions[t] == i && !OpenRowFor(w, i, t))
    || (exists tid :: tid in w.trades && w.trades[tid].inst == i && Stale(w, tid)
          && !SeenAtBroker(w, i, w.trades[tid].ticket))
  }

  predicate GateCritical(w: World, i: Inst) { RecoveryCritical(w, i) || ReconcileCritical(w, i) }

  // ---------------------------------------------------------------- runs

  function Init(): World {
    World(0, map[], map[], map[], map[], map[], map[], map[], map[], multiset{}, {})
  }

  function Run(acts: seq<Act>): World {
    if acts == [] then Init() else Step(Run(acts[..|acts| - 1]), acts[|acts| - 1])
  }
}
