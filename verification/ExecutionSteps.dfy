/** What each act of the state machine does to the committed tables, one act at a time, as the
    imperative code of an execution needs it. */
module ExecutionSteps {
  import opened OrderState
  import opened Protocol
  import opened ProtocolInvariant
  import opened ProtocolFrames
  import opened ProtocolTheorems
  import opened Wrappers

  /** The broker's answer to one submission; a refusal may hide a position that exists anyway. */
  datatype Reply = Accepted | Refusal(hasMessage: bool, raised: bool, hidden: bool)

  /** No row of the symbol, or one whose lease has run out. */
  predicate LockFree(locks: map<Symbol, Lock>, sym: Symbol, now: int) {
    sym !in locks || locks[sym].at < now - LOCK_TTL
  }

  // ---------------------------------------------------------------- one step at a time

  /** The tables after a write of the order record, and where the instance then stands. */
  ghost predicate Wrote(w: World, v: World, inst: Inst, o: Order, pc: Pc) {
    PcOf(w, inst).Working? && v.locks == w.locks && v.trades == w.trades
    && v.orders == w.orders[PcOf(w, inst).oid := o] && PcOf(v, inst) == pc
  }

  ghost predicate Aborted(w: World, v: World, inst: Inst) {
    PcOf(w, inst).Working? && v.locks == w.locks && v.trades == w.trades && v.orders == w.orders && v.hist == w.hist
    && PcOf(v, inst) == Releasing(PcOf(w, inst).claim)
  }

  /** The last write of an execution. */
  ghost predicate Ended(w: World, v: World, inst: Inst, o: Order, stage: Stage) {
    PcOf(w, inst).Working? && v.locks == w.locks && v.trades == w.trades
    && v.orders == w.orders[PcOf(w, inst).oid := o] && v.hist == w.hist[PcOf(w, inst).oid := PcOf(w, inst).p.(stage := stage)]
    && PcOf(v, inst) == Releasing(PcOf(w, inst).claim)
  }

  ghost predicate WroteRow(w: World, v: World, inst: Inst, tid: nat, row: Trade, pc: Pc) {
    v.now == w.now && v.locks == w.locks && v.orders == w.orders && v.trades == w.trades[tid := row] && PcOf(v, inst) == pc
  }

  lemma ApprovedStep(w: World, inst: Inst)
    requires At(w, inst, IntentWritten)
    ensures var pc := PcOf(w, inst);
            Wrote(w, Step(w, WriteApproved(inst, true)), inst, w.orders[pc.oid].(status := APPROVED),
                  Working(pc.claim, pc.oid, pc.p.(stage := Approved), pc.verdict))
    ensures Aborted(w, Step(w, WriteApproved(inst, false)), inst)
  {
    hide RowWriteStep, OutsideStep;
  }

  lemma SentStep(w: World, inst: Inst)
    requires At(w, inst, Bought)
    ensures var pc := PcOf(w, inst);
            Wrote(w, Step(w, WriteSent(inst, true)), inst, w.orders[pc.oid].(status := SENT, ticket := pc.p.ticket),
                  Working(pc.claim, pc.oid, pc.p.(stage := SentWritten), pc.verdict))
    ensures Aborted(w, Step(w, WriteSent(inst, false)), inst)
  {
    hide RowWriteStep, OutsideStep;
  }

  lemma FilledStep(w: World, inst: Inst)
    requires At(w, inst, Promoted)
    ensures var pc := PcOf(w, inst);
            Ended(w, Step(w, WriteFilled(inst, true)), inst, w.orders[pc.oid].(status := FILLED), Completed)
    ensures Aborted(w, Step(w, WriteFilled(inst, false)), inst)
  {
    hide RowWriteStep, OutsideStep;
  }

  lemma ClosedStep(w: World, inst: Inst)
    requires At(w, inst, OutcomeTried) || At(w, inst, JournalFailed)
    ensures var pc := PcOf(w, inst);
            Ended(w, Step(w, WriteClosed(inst, true)), inst, w.orders[pc.oid].(status := pc.verdict), Closed)
    ensures Aborted(w, Step(w, WriteClosed(inst, false)), inst)
  {
    hide RowWriteStep, OutsideStep;
  }

  lemma RowStep(w: World, inst: Inst, tid: nat)
    requires At(w, inst, Approved) && tid !in w.trades
    ensures var pc := PcOf(w, inst);
            WroteRow(w, Step(w, WriteRow(inst, tid, true)), inst, tid, Trade(TradePending, None, pc.claim.cid, inst, w.now),
                     Working(pc.claim, pc.oid, pc.p.(stage := Journaled, tid := Some(tid)), pc.verdict))
  {
    hide OrderWriteStep, OutsideStep, CallStep, PromoteStep, WriteOutcomeStep;
  }

  lemma NoRowStep(w: World, inst: Inst, tid: nat)
    requires At(w, inst, Approved)
    ensures var pc := PcOf(w, inst);
            Wrote(w, Step(w, WriteRow(inst, tid, false)), inst, w.orders[pc.oid],
                  Working(pc.claim, pc.oid, pc.p.(stage := JournalFailed), pc.verdict))
  {
    hide OrderWriteStep, OutsideStep, CallStep, PromoteStep, WriteOutcomeStep, NewRow;
  }

  lemma PromoteRowStep(w: World, inst: Inst)
    requires At(w, inst, SentWritten) && HasRowIn(w, PcOf(w, inst))
    ensures var pc := PcOf(w, inst);
            var tid := pc.p.tid.value;
            WroteRow(w, Step(w, PromoteRow(inst, true)), inst, tid, w.trades[tid].(outcome := TradeOpen, ticket := pc.p.ticket),
                     Working(pc.claim, pc.oid, pc.p.(stage := Promoted), pc.verdict))
    ensures Aborted(w, Step(w, PromoteRow(inst, false)), inst)
  {
    hide OrderWriteStep, OutsideStep, CallStep, WriteRowStep, WriteOutcomeStep;
  }

  lemma OutcomeStep(w: World, inst: Inst, ok: bool)
    requires At(w, inst, Refused) && HasRowIn(w, PcOf(w, inst))
    ensures var pc := PcOf(w, inst);
            var tid := pc.p.tid.value;
            WroteRow(w, Step(w, WriteOutcome(inst, ok)), inst, tid,
                     if ok then w.trades[tid].(outcome := FailedOutcome(pc.verdict)) else w.trades[tid],
                     Working(pc.claim, pc.oid, pc.p.(stage := OutcomeTried, told := ToldAs(ok, pc.verdict)), pc.verdict))
  {
    hide OrderWriteStep, OutsideStep, CallStep, WriteRowStep, PromoteStep;
  }

  function AnswerTo(reply: Reply, ticket: nat): BrokerAnswer {
    match reply
    case Accepted => BrokerAnswer.Filled(ticket)
    case Refusal(hasMessage, raised, hidden) => BrokerAnswer.Failed(hasMessage, raised, if hidden then Some(ticket) else None)
  }

  /** The positions after the broker's answer. */
  function Placed(positions: map<nat, Inst>, inst: Inst, answer: BrokerAnswer): map<nat, Inst> {
    match answer
    case Filled(t) => positions[t := inst]
    case Failed(_, _, position) => if position.Some? then positions[position.value := inst] else positions
  }

  function Submitted(pc: Pc, reply: Reply, ticket: nat): Pc
    requires pc.Working?
  {
    match reply
    case Accepted => Working(pc.claim, pc.oid, pc.p.(stage := Bought, ticket := Some(ticket)), FAILED)
    case Refusal(hasMessage, raised, hidden) =>
      Working(pc.claim, pc.oid, pc.p.(stage := Refused, ticket := if hidden then Some(ticket) else None),
              if hasMessage && !raised then REJECTED else FAILED)
  }

  lemma SubmitStep(w: World, inst: Inst, answer: BrokerAnswer)
    requires At(w, inst, Journaled) && (answer.Filled? ==> FreshTicket(w, answer.ticket))
    requires answer.Failed? && answer.position.Some? ==> FreshTicket(w, answer.position.value)
    ensures var pc, v := PcOf(w, inst), Step(w, CallBroker(inst, answer));
            && v.locks == w.locks && v.orders == w.orders && v.trades == w.trades
            && v.calls == w.calls + multiset{pc.claim.cid} && v.positions == Placed(w.positions, inst, answer)
            && PcOf(v, inst) == if answer.Filled? then Submitted(pc, Accepted, answer.ticket)
                                else Submitted(pc, Refusal(answer.hasMessage, answer.raised, answer.position.Some?),
                                               if answer.position.Some? then answer.position.value else 0)
  {
    hide OrderWriteStep, OutsideStep, PromoteStep, WriteRowStep, WriteOutcomeStep, CallStep;
    CallEffect(w, inst, PcOf(w, inst), answer);
  }

  lemma CallEffect(w: World, inst: Inst, pc: Pc, answer: BrokerAnswer)
    requires PcOf(w, inst) == pc && pc.Working? && pc.oid in w.orders && (answer.Filled? ==> FreshTicket(w, answer.ticket))
    requires answer.Failed? && answer.position.Some? ==> FreshTicket(w, answer.position.value)
    ensures var v := CallStep(w, inst, pc, answer);
            && v.locks == w.locks && v.orders == w.orders && v.trades == w.trades
            && v.calls == w.calls + multiset{pc.claim.cid} && v.positions == Placed(w.positions, inst, answer)
            && PcOf(v, inst) == if answer.Filled? then Submitted(pc, Accepted, answer.ticket)
                                else Submitted(pc, Refusal(answer.hasMessage, answer.raised, answer.position.Some?),
                                               if answer.position.Some? then answer.position.value else 0)
  {
    hide Submit, PcOf;
    if answer.Filled? {
      SubmitEffect(w, inst, pc, Bought, Some(answer.ticket), FAILED);
    } else {
      var verdict := if answer.hasMessage && !answer.raised then REJECTED else FAILED;
      if answer.position.None? {
        SubmitEffect(w, inst, pc, Refused, None, verdict);
      } else {
        SubmitEffect(Fault(w, inst), inst, pc, Refused, answer.position, verdict);
      }
    }
  }

  lemma SubmitEffect(w: World, inst: Inst, pc: Pc, stage: Stage, ticket: Option<nat>, verdict: State)
    requires pc.Working? && pc.oid in w.orders
    ensures var v := Submit(w, inst, pc, stage, ticket, verdict);
            && v.locks == w.locks && v.orders == w.orders && v.trades == w.trades
            && v.calls == w.calls + multiset{pc.claim.cid}
            && v.positions == (if ticket.Some? then w.positions[ticket.value := inst] else w.positions)
            && PcOf(v, inst) == Working(pc.claim, pc.oid, pc.p.(stage := stage, ticket := ticket), verdict)
  {
  }

  lemma StartEffect(w: World, inst: Inst, sym: Symbol, cid: Cid)
    requires PcOf(w, inst).Idle?
    ensures var v := Step(w, Start(inst, sym, cid));
            v.locks == w.locks && v.orders == w.orders && v.trades == w.trades && PcOf(v, inst) == Locking(Claim(sym, w.now, cid))
  {
    hide OrderWriteStep, RowWriteStep;
  }

  lemma TryLockEffect(w: World, inst: Inst, ok: bool)
    requires PcOf(w, inst).Locking?
    ensures LockOutcome(w, Step(w, TryLock(inst, ok)), inst, PcOf(w, inst).claim, ok)
  {
    hide OrderWriteStep, RowWriteStep, TryLockStep, RiskStep, WriteIntentStep, ReleaseStep, TradeClosesStep, GateCritical;
    hide LockOutcome;
    LockTransaction(w, inst, PcOf(w, inst).claim, ok);
  }

  ghost predicate LockOutcome(w: World, v: World, inst: Inst, claim: Claim, ok: bool) {
    && v.orders == w.orders && v.trades == w.trades
    && if ok && LockFree(w.locks, claim.sym, claim.since)
       then v.locks == w.locks[claim.sym := Lock(inst, claim.since)] && PcOf(v, inst) == Locked(claim)
       else v.locks == w.locks && PcOf(v, inst) == Idle
  }

  lemma LockTransaction(w: World, inst: Inst, claim: Claim, ok: bool)
    ensures LockOutcome(w, TryLockStep(w, inst, claim, ok), inst, claim, ok)
  {
  }

  lemma RiskEffect(w: World, inst: Inst, answer: RiskAnswer)
    requires PcOf(w, inst).Locked?
    ensures var v, claim := Step(w, Risk(inst, answer)), PcOf(w, inst).claim;
            && v.locks == w.locks && v.orders == w.orders && v.trades == w.trades
            && PcOf(v, inst) == (match answer case Allowed => Journaling(claim) case Denied => Releasing(claim) case Raised => Idle)
  {
    hide OrderWriteStep, RowWriteStep;
  }

  lemma IntentEffect(w: World, inst: Inst, oid: nat, ok: bool)
    requires PcOf(w, inst).Journaling?
    ensures IntentOutcome(w, Step(w, WriteIntent(inst, oid, ok)), inst, PcOf(w, inst).claim, oid, ok)
  {
    hide OrderWriteStep, RowWriteStep, WriteIntentStep, TryLockStep, RiskStep, ReleaseStep, TradeClosesStep, GateCritical;
    hide IntentOutcome;
    InsertEffect(w, inst, PcOf(w, inst).claim, oid, ok);
  }

  ghost predicate IntentOutcome(w: World, v: World, inst: Inst, claim: Claim, oid: nat, ok: bool) {
    && v.locks == w.locks && v.trades == w.trades
    && if !ok || oid in w.orders || CidTaken(w.orders, claim.cid)
       then v.orders == w.orders && PcOf(v, inst) == Releasing(claim)
       else && v.orders == w.orders[oid := Order(PENDING, None, claim.cid, inst)]
            && PcOf(v, inst) == Working(claim, oid, Progress(IntentWritten, None, None, None), FAILED)
  }

  lemma InsertEffect(w: World, inst: Inst, claim: Claim, oid: nat, ok: bool)
    ensures IntentOutcome(w, WriteIntentStep(w, inst, claim, oid, ok), inst, claim, oid, ok)
  {
    hide CidTaken;
  }

  lemma ReleaseEffect(w: World, inst: Inst, ok: bool)
    requires PcOf(w, inst).Releasing?
    ensures ReleaseOutcome(w, Step(w, Release(inst, ok)), inst, PcOf(w, inst).claim, ok)
  {
    hide OrderWriteStep, RowWriteStep, WriteIntentStep, TryLockStep, RiskStep, ReleaseStep, TradeClosesStep, GateCritical;
    hide ReleaseOutcome;
    ReleaseTransaction(w, inst, PcOf(w, inst).claim, ok);
  }

  ghost predicate ReleaseOutcome(w: World, v: World, inst: Inst, claim: Claim, ok: bool) {
    && v.orders == w.orders && v.trades == w.trades && PcOf(v, inst) == Idle
    && v.locks == if ok && OwnsRow(w.locks, inst, claim.sym) then w.locks - {claim.sym} else w.locks
  }

  lemma ReleaseTransaction(w: World, inst: Inst, claim: Claim, ok: bool)
    ensures ReleaseOutcome(w, ReleaseStep(w, inst, claim, ok), inst, claim, ok)
  {
  }

  // ---------------------------------------------------------------- what an execution leaves behind

  /** Execution `oid` of `inst` stands at progress `p` with status `s`, and nobody works on it. */
  ghost predicate Left(w: World, inst: Inst, cid: Cid, oid: nat, s: State, p: Progress) {
    && oid in w.orders && oid in w.hist && NobodyWorksOn(w, oid) && w.hist[oid] == p
    && w.orders[oid].status == s && w.orders[oid].inst == inst && w.orders[oid].cid == cid
  }

  /** What the invariant says of a running execution. */
  lemma Facts(trace: seq<Act>, inst: Inst)
    requires PcOf(Run(trace), inst).Working?
    ensures var w, pc := Run(trace), PcOf(Run(trace), inst);
            && At(w, inst, pc.p.stage) && pc.oid in w.hist && w.hist[pc.oid] == pc.p
            && pc.p.stage != Completed && pc.p.stage != Closed
            && (pc.p.tid.Some? <==> !RowlessStage(pc.p.stage))
            && (pc.p.tid.Some? ==> HasRowIn(w, pc))
            && w.orders[pc.oid] == Order(StatusAt(pc.p.stage), TicketAt(pc.p), pc.claim.cid, inst)
  {
    RunInv(trace);
    RunningFacts(Run(trace), inst, PcOf(Run(trace), inst));
    hide Run, Inv;
  }

  /** The ticket on the order record. */
  function TicketAt(p: Progress): Option<nat> {
    if p.stage == SentWritten || OpenStage(p.stage) then p.ticket else None
  }

  /** Once the one instance that ran an execution is releasing, nobody works on it. */
  lemma Alone(trace: seq<Act>, inst: Inst, oid: nat)
    requires !PcOf(Run(trace), inst).Working? && oid in Run(trace).orders && Run(trace).orders[oid].inst == inst
    ensures NobodyWorksOn(Run(trace), oid) && oid in Run(trace).hist
  {
    RunInv(trace);
    HistCovers(trace);
    var w := Run(trace);
    forall j | j in w.procs && w.procs[j].Working? ensures w.procs[j].oid != oid {
      assert ProcShape(w.orders, w.hist, j, w.procs[j]);
    }
  }

  /** A failed write leaves the execution where it was. */
  lemma AbortLeaves(before: seq<Act>, trace: seq<Act>, inst: Inst)
    requires PcOf(Run(before), inst).Working? && Aborted(Run(before), Run(trace), inst)
    ensures var pc := PcOf(Run(before), inst);
            Left(Run(trace), inst, pc.claim.cid, pc.oid, StatusAt(pc.p.stage), pc.p)
  {
    hide Run, NobodyWorksOn;
    Facts(before, inst);
    Alone(trace, inst, PcOf(Run(before), inst).oid);
  }

  /** The last write leaves it at its end. */
  lemma EndLeaves(before: seq<Act>, trace: seq<Act>, inst: Inst, o: Order, stage: Stage)
    requires PcOf(Run(before), inst).Working? && Ended(Run(before), Run(trace), inst, o, stage)
    requires o.inst == inst && o.cid == PcOf(Run(before), inst).claim.cid
    ensures var pc := PcOf(Run(before), inst);
            Left(Run(trace), inst, pc.claim.cid, pc.oid, o.status, pc.p.(stage := stage))
  {
    hide Run, NobodyWorksOn;
    Alone(trace, inst, PcOf(Run(before), inst).oid);
  }

  /** A client id has been submitted once if its execution has called the broker, else never. */
  lemma CallsAt(trace: seq<Act>, inst: Inst)
    requires PcOf(Run(trace), inst).Working?
    ensures var pc := PcOf(Run(trace), inst); Run(trace).calls[pc.claim.cid] == if HasCalled(pc.p) then 1 else 0
  {
    RunInv(trace);
    var w := Run(trace);
    assert ProcShape(w.orders, w.hist, inst, w.procs[inst]);
  }
}
