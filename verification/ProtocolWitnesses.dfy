/** Concrete runs of the execution protocol that show its weak spots, for every instance, symbol and
    client id. */
module ProtocolWitnesses {
  import opened OrderState
  import opened Protocol
  import opened ProtocolTheorems
  import opened Wrappers

  /** One more act at the end of a run. */
  lemma Next(acts: seq<Act>, a: Act, w: World, v: World)
    requires Run(acts) == w && Step(w, a) == v
    ensures Run(acts + [a]) == v
  {
    hide Step;
    assert (acts + [a])[..|acts + [a]| - 1] == acts;
  }

  // ---------------------------------------------------------------- up to the trade row

  function Admitted(i: Inst, sym: Symbol, cid: Cid): seq<Act> {
    [Start(i, sym, cid), TryLock(i, true), Risk(i, Allowed)]
  }

  function AdmittedWorld(i: Inst, sym: Symbol, cid: Cid): World {
    Init().(locks := map[sym := Lock(i, 0)], procs := map[i := Journaling(Claim(sym, 0, cid))])
  }

  lemma AdmittedRun(i: Inst, sym: Symbol, cid: Cid)
    ensures Run(Admitted(i, sym, cid)) == AdmittedWorld(i, sym, cid)
  {
    var claim := Claim(sym, 0, cid);
    var w1 := Init().(procs := map[i := Locking(claim)]);
    var w2 := Init().(locks := map[sym := Lock(i, 0)], procs := map[i := Locked(claim)]);
    hide OrderWriteStep, RowWriteStep, GateCritical;
    Next([], Start(i, sym, cid), Init(), w1);
    Next([] + [Start(i, sym, cid)], TryLock(i, true), w1, w2);
    Next([] + [Start(i, sym, cid)] + [TryLock(i, true)], Risk(i, Allowed), w2, AdmittedWorld(i, sym, cid));
    assert Admitted(i, sym, cid) == [] + [Start(i, sym, cid)] + [TryLock(i, true)] + [Risk(i, Allowed)];
  }

  /** The world of one execution that is the only one there is. */
  function Single(i: Inst, sym: Symbol, o: Order, p: Progress, pc: Pc): World {
    Init().(locks := map[sym := Lock(i, 0)], orders := map[0 := o], hist := map[0 := p], procs := map[i := pc])
  }

  function Row(i: Inst, cid: Cid): Trade { Trade(TradePending, None, cid, i, 0) }

  /** Order 0 stands APPROVED, its row 0 PENDING, the broker call is next. */
  function JournaledWorld(i: Inst, sym: Symbol, cid: Cid): World {
    var p := Progress(Journaled, Some(0), None, None);
    Single(i, sym, Order(APPROVED, None, cid, i), p, Working(Claim(sym, 0, cid), 0, p, FAILED))
      .(trades := map[0 := Row(i, cid)], rowOwner := map[0 := 0])
  }

  function JournaledActs(i: Inst, sym: Symbol, cid: Cid): seq<Act> {
    Admitted(i, sym, cid) + [WriteIntent(i, 0, true)] + [WriteApproved(i, true)] + [WriteRow(i, 0, true)]
  }

  lemma JournaledRun(i: Inst, sym: Symbol, cid: Cid)
    ensures Run(JournaledActs(i, sym, cid)) == JournaledWorld(i, sym, cid)
  {
    var claim, first := Claim(sym, 0, cid), Admitted(i, sym, cid);
    var p4, p5 := Progress(IntentWritten, None, None, None), Progress(Protocol.Approved, None, None, None);
    var w4 := Single(i, sym, Order(PENDING, None, cid, i), p4, Working(claim, 0, p4, FAILED));
    var w5 := Single(i, sym, Order(APPROVED, None, cid, i), p5, Working(claim, 0, p5, FAILED));
    AdmittedRun(i, sym, cid);
    hide Run;
    IntentStep(i, sym, cid, w4);
    Next(first, WriteIntent(i, 0, true), AdmittedWorld(i, sym, cid), w4);
    ApprovalStep(i, w4, w5, claim, cid);
    Next(first + [WriteIntent(i, 0, true)], WriteApproved(i, true), w4, w5);
    RowWrittenStep(i, sym, cid, w5);
    Next(first + [WriteIntent(i, 0, true)] + [WriteApproved(i, true)], WriteRow(i, 0, true), w5, JournaledWorld(i, sym, cid));
  }

  lemma IntentStep(i: Inst, sym: Symbol, cid: Cid, v: World)
    requires var p := Progress(IntentWritten, None, None, None);
             v == Single(i, sym, Order(PENDING, None, cid, i), p, Working(Claim(sym, 0, cid), 0, p, FAILED))
    ensures Step(AdmittedWorld(i, sym, cid), WriteIntent(i, 0, true)) == v
  {
    hide OrderWriteStep, RowWriteStep, GateCritical;
  }

  lemma ApprovalStep(i: Inst, w: World, v: World, claim: Claim, cid: Cid)
    requires var p := Progress(IntentWritten, None, None, None);
             w == Single(i, claim.sym, Order(PENDING, None, cid, i), p, Working(claim, 0, p, FAILED))
    requires var p := Progress(Protocol.Approved, None, None, None);
             v == Single(i, claim.sym, Order(APPROVED, None, cid, i), p, Working(claim, 0, p, FAILED))
    ensures Step(w, WriteApproved(i, true)) == v
  {
    hide OutsideStep, RowWriteStep;
  }

  lemma RowWrittenStep(i: Inst, sym: Symbol, cid: Cid, w: World)
    requires var p := Progress(Protocol.Approved, None, None, None);
             w == Single(i, sym, Order(APPROVED, None, cid, i), p, Working(Claim(sym, 0, cid), 0, p, FAILED))
    ensures Step(w, WriteRow(i, 0, true)) == JournaledWorld(i, sym, cid)
  {
    hide OutsideStep, OrderWriteStep, CallStep, PromoteStep, WriteOutcomeStep;
  }

  // ---------------------------------------------------------------- a clean start over a record still SENT

  /** The position is open under ticket 1; order and row stand as given. */
  function FilledWorld(i: Inst, sym: Symbol, o: Order, p: Progress, pc: Pc, row: Trade): World {
    Single(i, sym, o, p, pc).(trades := map[0 := row], rowOwner := map[0 := 0], positions := map[1 := i],
                              ticketOwner := map[1 := 0], calls := multiset{o.cid})
  }

  function SentActs(i: Inst, sym: Symbol, cid: Cid): seq<Act> {
    JournaledActs(i, sym, cid) + [CallBroker(i, BrokerAnswer.Filled(1))] + [WriteSent(i, true)]
  }

  function StoppedActs(i: Inst, sym: Symbol, cid: Cid): seq<Act> {
    SentActs(i, sym, cid) + [PromoteRow(i, true)] + [Crash(i)]
  }

  function SentWorld(i: Inst, sym: Symbol, cid: Cid): World {
    var p := Progress(SentWritten, Some(0), Some(1), None);
    FilledWorld(i, sym, Order(SENT, Some(1), cid, i), p, Working(Claim(sym, 0, cid), 0, p, FAILED), Row(i, cid))
  }

  function StoppedWorld(i: Inst, sym: Symbol, cid: Cid): World {
    FilledWorld(i, sym, Order(SENT, Some(1), cid, i), Progress(Promoted, Some(0), Some(1), None), Down,
                Row(i, cid).(outcome := TradeOpen, ticket := Some(1))).(faulty := {i})
  }

  lemma SentRun(i: Inst, sym: Symbol, cid: Cid)
    ensures Run(SentActs(i, sym, cid)) == SentWorld(i, sym, cid)
  {
    hide Run, Step;
    var p := Progress(Bought, Some(0), Some(1), None);
    var w := FilledWorld(i, sym, Order(APPROVED, None, cid, i), p, Working(Claim(sym, 0, cid), 0, p, FAILED), Row(i, cid));
    var acts := JournaledActs(i, sym, cid);
    JournaledRun(i, sym, cid);
    BoughtStep(i, sym, cid, w);
    TicketStep(i, sym, cid, w, SentWorld(i, sym, cid));
    hide JournaledWorld, SentWorld, JournaledActs, FilledWorld;
    Next(acts, CallBroker(i, BrokerAnswer.Filled(1)), JournaledWorld(i, sym, cid), w);
    Next(acts + [CallBroker(i, BrokerAnswer.Filled(1))], WriteSent(i, true), w, SentWorld(i, sym, cid));
  }

  lemma StoppedRun(i: Inst, sym: Symbol, cid: Cid)
    ensures Run(StoppedActs(i, sym, cid)) == StoppedWorld(i, sym, cid)
  {
    hide Run, Step;
    var p := Progress(Promoted, Some(0), Some(1), None);
    var w := FilledWorld(i, sym, Order(SENT, Some(1), cid, i), p, Working(Claim(sym, 0, cid), 0, p, FAILED),
                         Row(i, cid).(outcome := TradeOpen, ticket := Some(1)));
    var acts := SentActs(i, sym, cid);
    SentRun(i, sym, cid);
    PromotionStep(i, sym, cid, SentWorld(i, sym, cid), w);
    CrashStep(i, w, StoppedWorld(i, sym, cid));
    hide SentWorld, StoppedWorld, SentActs, FilledWorld;
    Next(acts, PromoteRow(i, true), SentWorld(i, sym, cid), w);
    Next(acts + [PromoteRow(i, true)], Crash(i), w, StoppedWorld(i, sym, cid));
  }

  lemma BoughtStep(i: Inst, sym: Symbol, cid: Cid, v: World)
    requires var p := Progress(Bought, Some(0), Some(1), None);
             v == FilledWorld(i, sym, Order(APPROVED, None, cid, i), p, Working(Claim(sym, 0, cid), 0, p, FAILED), Row(i, cid))
    ensures Step(JournaledWorld(i, sym, cid), CallBroker(i, BrokerAnswer.Filled(1))) == v
  {
    hide OutsideStep, OrderWriteStep, WriteRowStep, PromoteStep, WriteOutcomeStep;
  }

  lemma TicketStep(i: Inst, sym: Symbol, cid: Cid, w: World, v: World)
    requires var p := Progress(Bought, Some(0), Some(1), None);
             w == FilledWorld(i, sym, Order(APPROVED, None, cid, i), p, Working(Claim(sym, 0, cid), 0, p, FAILED), Row(i, cid))
    requires var p := Progress(SentWritten, Some(0), Some(1), None);
             v == FilledWorld(i, sym, Order(SENT, Some(1), cid, i), p, Working(Claim(sym, 0, cid), 0, p, FAILED), Row(i, cid))
    ensures Step(w, WriteSent(i, true)) == v
  {
    hide OutsideStep, RowWriteStep;
  }

  lemma PromotionStep(i: Inst, sym: Symbol, cid: Cid, w: World, v: World)
    requires var p := Progress(SentWritten, Some(0), Some(1), None);
             w == FilledWorld(i, sym, Order(SENT, Some(1), cid, i), p, Working(Claim(sym, 0, cid), 0, p, FAILED), Row(i, cid))
    requires var p := Progress(Promoted, Some(0), Some(1), None);
             v == FilledWorld(i, sym, Order(SENT, Some(1), cid, i), p, Working(Claim(sym, 0, cid), 0, p, FAILED),
                              Row(i, cid).(outcome := TradeOpen, ticket := Some(1)))
    ensures Step(w, PromoteRow(i, true)) == v
  {
    hide OutsideStep, OrderWriteStep, WriteRowStep, CallStep, WriteOutcomeStep;
  }

  lemma CrashStep(i: Inst, w: World, v: World)
    requires v == w.(faulty := w.faulty + {i}, procs := w.procs[i := Down])
    ensures Step(w, Crash(i)) == v
  {
    hide OrderWriteStep, RowWriteStep, GateCritical;
  }

  /** A process stops between promotion and FILLED and is started again without force: the start
      goes ahead, and the committed record stays SENT. */
  lemma CleanStartOverSentRecord(i: Inst, sym: Symbol, cid: Cid)
    ensures var stopped := StoppedActs(i, sym, cid);
            var w := Run(stopped + [Restart(i, false)]);
            && PcOf(Run(stopped), i).Down? && !GateCritical(Run(stopped), i) && PcOf(w, i).Idle?
            && !GateCritical(w, i) && 0 in w.orders && w.orders[0] == Order(SENT, Some(1), cid, i) && NonTerminal(w.orders[0].status)
  {
    StoppedRun(i, sym, cid);
    var w := StoppedWorld(i, sym, cid);
    hide Run;
    StoppedIsClean(i, sym, cid, w);
    var v := w.(procs := map[i := Idle]);
    StoppedIsClean(i, sym, cid, v);
    hide GateCritical;
    RestartStep(i, w, v);
    Next(StoppedActs(i, sym, cid), Restart(i, false), w, v);
  }

  lemma StoppedIsClean(i: Inst, sym: Symbol, cid: Cid, w: World)
    requires w == StoppedWorld(i, sym, cid).(procs := w.procs)
    ensures !GateCritical(w, i)
  {
    assert w.trades[0].ticket == Some(1);
    assert OpenRowFor(w, i, 1);
  }

  lemma RestartStep(i: Inst, w: World, v: World)
    requires PcOf(w, i).Down? && !GateCritical(w, i) && v == w.(procs := w.procs[i := Idle])
    ensures Step(w, Restart(i, false)) == v
  {
    hide OrderWriteStep, RowWriteStep, GateCritical;
  }

  // ---------------------------------------------------------------- a lost outcome write

  function RefusedWorld(i: Inst, sym: Symbol, cid: Cid, o: Order, p: Progress, pc: Pc): World {
    Single(i, sym, o, p, pc).(trades := map[0 := Row(i, cid)], rowOwner := map[0 := 0], calls := multiset{cid})
  }

  function LostActs(i: Inst, sym: Symbol, cid: Cid): seq<Act> {
    JournaledActs(i, sym, cid) + [CallBroker(i, BrokerAnswer.Failed(true, false, None))] + [WriteOutcome(i, false)]
    + [WriteClosed(i, true)] + [Tick(PENDING_GRACE + 1)]
  }

  /** The broker refuses, nothing crashes, only the write of the trade's outcome is lost: the order
      is REJECTED, there is no position, and after five minutes the gate is critical. */
  lemma LostOutcomeBlocks(i: Inst, sym: Symbol, cid: Cid)
    ensures var w := Run(LostActs(i, sym, cid));
            && 0 in w.orders && w.orders[0] == Order(REJECTED, None, cid, i) && w.positions == map[]
            && 0 in w.trades && w.trades[0].outcome == TradePending && GateCritical(w, i)
  {
    var claim, acts := Claim(sym, 0, cid), JournaledActs(i, sym, cid);
    var answer := BrokerAnswer.Failed(true, false, None);
    var p7 := Progress(Refused, Some(0), None, None);
    var p8, p9 := p7.(stage := OutcomeTried), p7.(stage := Closed);
    var approved, rejected := Order(APPROVED, None, cid, i), Order(REJECTED, None, cid, i);
    var w7 := RefusedWorld(i, sym, cid, approved, p7, Working(claim, 0, p7, REJECTED));
    var w8 := RefusedWorld(i, sym, cid, approved, p8, Working(claim, 0, p8, REJECTED)).(faulty := {i});
    var w9 := RefusedWorld(i, sym, cid, rejected, p9, Releasing(claim)).(faulty := {i});
    var w10 := w9.(now := PENDING_GRACE + 1);
    JournaledRun(i, sym, cid);
    hide Run;
    RefusalStep(i, sym, cid, w7);
    Next(acts, CallBroker(i, answer), JournaledWorld(i, sym, cid), w7);
    LostStep(i, sym, cid, w7, w8);
    Next(acts + [CallBroker(i, answer)], WriteOutcome(i, false), w7, w8);
    ClosingStep(i, sym, cid, w8, w9);
    Next(acts + [CallBroker(i, answer)] + [WriteOutcome(i, false)], WriteClosed(i, true), w8, w9);
    TickStep(w9, PENDING_GRACE + 1);
    Next(acts + [CallBroker(i, answer)] + [WriteOutcome(i, false)] + [WriteClosed(i, true)], Tick(PENDING_GRACE + 1), w9, w10);
    hide Step;
    assert Stale(w10, 0) && !SeenAtBroker(w10, i, w10.trades[0].ticket);
  }

  lemma RefusalStep(i: Inst, sym: Symbol, cid: Cid, v: World)
    requires var p := Progress(Refused, Some(0), None, None);
             v == RefusedWorld(i, sym, cid, Order(APPROVED, None, cid, i), p, Working(Claim(sym, 0, cid), 0, p, REJECTED))
    ensures Step(JournaledWorld(i, sym, cid), CallBroker(i, BrokerAnswer.Failed(true, false, None))) == v
  {
    hide OutsideStep, OrderWriteStep, WriteRowStep, PromoteStep, WriteOutcomeStep;
  }

  lemma LostStep(i: Inst, sym: Symbol, cid: Cid, w: World, v: World)
    requires var p := Progress(Refused, Some(0), None, None);
             w == RefusedWorld(i, sym, cid, Order(APPROVED, None, cid, i), p, Working(Claim(sym, 0, cid), 0, p, REJECTED))
    requires var p := Progress(OutcomeTried, Some(0), None, None);
             v == RefusedWorld(i, sym, cid, Order(APPROVED, None, cid, i), p, Working(Claim(sym, 0, cid), 0, p, REJECTED)).(faulty := {i})
    ensures Step(w, WriteOutcome(i, false)) == v
  {
    hide OutsideStep, OrderWriteStep, WriteRowStep, PromoteStep, CallStep;
  }

  lemma ClosingStep(i: Inst, sym: Symbol, cid: Cid, w: World, v: World)
    requires var p := Progress(OutcomeTried, Some(0), None, None);
             w == RefusedWorld(i, sym, cid, Order(APPROVED, None, cid, i), p, Working(Claim(sym, 0, cid), 0, p, REJECTED)).(faulty := {i})
    requires var p := Progress(Closed, Some(0), None, None);
             v == RefusedWorld(i, sym, cid, Order(REJECTED, None, cid, i), p, Releasing(Claim(sym, 0, cid))).(faulty := {i})
    ensures Step(w, WriteClosed(i, true)) == v
  {
    hide OutsideStep, RowWriteStep;
  }

  lemma TickStep(w: World, delta: nat)
    ensures Step(w, Tick(delta)) == w.(now := w.now + delta)
  {
    hide OrderWriteStep, RowWriteStep;
  }

  // ---------------------------------------------------------------- a stamp older than its commit

  /** A transaction that commits more than a lease after its clock reading inserts a row that is
      already stale: another instance sweeps it in the same second, and both are inside. */
  lemma StaleStampLetsTwoIn(a: Inst, b: Inst, sym: Symbol, cidA: Cid, cidB: Cid)
    requires a != b
    ensures var acts := [Start(a, sym, cidA)] + [Tick(LOCK_TTL + 1)] + [TryLock(a, true)] + [Start(b, sym, cidB)] + [TryLock(b, true)];
            var w := Run(acts);
            && PcOf(w, a) == Locked(Claim(sym, 0, cidA)) && PcOf(w, b) == Locked(Claim(sym, LOCK_TTL + 1, cidB))
            && w.now == LOCK_TTL + 1
  {
    var ca, cb := Claim(sym, 0, cidA), Claim(sym, LOCK_TTL + 1, cidB);
    var w1 := Init().(procs := map[a := Locking(ca)]);
    var w2 := w1.(now := LOCK_TTL + 1);
    var w3 := w2.(locks := map[sym := Lock(a, 0)], procs := map[a := Locked(ca)]);
    var w4 := w3.(procs := map[a := Locked(ca), b := Locking(cb)]);
    var w5 := w3.(locks := map[sym := Lock(b, LOCK_TTL + 1)], procs := map[a := Locked(ca), b := Locked(cb)]);
    hide Step, Run;
    LockingStep(a, sym, cidA, Init(), w1);
    TickStep(w1, LOCK_TTL + 1);
    SweepStep(a, w2, w3, ca);
    LockingStep(b, sym, cidB, w3, w4);
    SweepStep(b, w4, w5, cb);
    NoActs();
    assert [] + [Start(a, sym, cidA)] == [Start(a, sym, cidA)];
    Next([], Start(a, sym, cidA), Init(), w1);
    Next([Start(a, sym, cidA)], Tick(LOCK_TTL + 1), w1, w2);
    Next([Start(a, sym, cidA)] + [Tick(LOCK_TTL + 1)], TryLock(a, true), w2, w3);
    Next([Start(a, sym, cidA)] + [Tick(LOCK_TTL + 1)] + [TryLock(a, true)], Start(b, sym, cidB), w3, w4);
    Next([Start(a, sym, cidA)] + [Tick(LOCK_TTL + 1)] + [TryLock(a, true)] + [Start(b, sym, cidB)], TryLock(b, true), w4, w5);
  }

  lemma NoActs()
    ensures Run([]) == Init()
  {
  }

  lemma LockingStep(i: Inst, sym: Symbol, cid: Cid, w: World, v: World)
    requires PcOf(w, i).Idle? && v == w.(procs := w.procs[i := Locking(Claim(sym, w.now, cid))])
    ensures Step(w, Start(i, sym, cid)) == v
  {
    hide OrderWriteStep, RowWriteStep, GateCritical;
  }

  lemma SweepStep(i: Inst, w: World, v: World, claim: Claim)
    requires PcOf(w, i) == Locking(claim) && (claim.sym in w.locks ==> w.locks[claim.sym].at < claim.since - LOCK_TTL)
    requires v == w.(locks := w.locks[claim.sym := Lock(i, claim.since)], procs := w.procs[i := Locked(claim)])
    ensures Step(w, TryLock(i, true)) == v
  {
    hide OrderWriteStep, RowWriteStep, GateCritical;
  }

  // ---------------------------------------------------------------- a risk check that raises

  /** The call ends with an exception in the risk check and holds nothing any more, yet for the
      whole lease its row keeps every other instance off the symbol. */
  lemma RaisedRiskKeepsOthersOut(i: Inst, j: Inst, sym: Symbol, cidI: Cid, cidJ: Cid)
    requires i != j
    ensures var acts := [Start(i, sym, cidI)] + [TryLock(i, true)] + [Risk(i, Raised)] + [Tick(LOCK_TTL)] + [Start(j, sym, cidJ)] + [TryLock(j, true)];
            var w := Run(acts);
            && PcOf(w, i).Idle? && PcOf(w, j).Idle? && w.now == LOCK_TTL && w.locks == map[sym := Lock(i, 0)]
  {
    var ci, cj := Claim(sym, 0, cidI), Claim(sym, LOCK_TTL, cidJ);
    var w1 := Init().(procs := map[i := Locking(ci)]);
    var w2 := Init().(locks := map[sym := Lock(i, 0)], procs := map[i := Locked(ci)]);
    var w3 := w2.(procs := map[i := Idle]);
    var w4 := w3.(now := LOCK_TTL);
    var w5 := w4.(procs := map[i := Idle, j := Locking(cj)]);
    var w6 := w4.(procs := map[i := Idle, j := Idle]);
    hide Step, Run;
    NoActs();
    LockingStep(i, sym, cidI, Init(), w1);
    SweepStep(i, w1, w2, ci);
    RaisedStep(i, w2, w3);
    TickStep(w3, LOCK_TTL);
    LockingStep(j, sym, cidJ, w4, w5);
    HeldStep(j, w5, w6, cj);
    assert [] + [Start(i, sym, cidI)] == [Start(i, sym, cidI)];
    Next([], Start(i, sym, cidI), Init(), w1);
    Next([Start(i, sym, cidI)], TryLock(i, true), w1, w2);
    Next([Start(i, sym, cidI)] + [TryLock(i, true)], Risk(i, Raised), w2, w3);
    Next([Start(i, sym, cidI)] + [TryLock(i, true)] + [Risk(i, Raised)], Tick(LOCK_TTL), w3, w4);
    Next([Start(i, sym, cidI)] + [TryLock(i, true)] + [Risk(i, Raised)] + [Tick(LOCK_TTL)], Start(j, sym, cidJ), w4, w5);
    Next([Start(i, sym, cidI)] + [TryLock(i, true)] + [Risk(i, Raised)] + [Tick(LOCK_TTL)] + [Start(j, sym, cidJ)], TryLock(j, true), w5, w6);
  }

  lemma RaisedStep(i: Inst, w: World, v: World)
    requires PcOf(w, i).Locked? && v == w.(procs := w.procs[i := Idle])
    ensures Step(w, Risk(i, Raised)) == v
  {
    hide OrderWriteStep, RowWriteStep, GateCritical;
  }

  lemma HeldStep(i: Inst, w: World, v: World, claim: Claim)
    requires PcOf(w, i) == Locking(claim) && claim.sym in w.locks && !(w.locks[claim.sym].at < claim.since - LOCK_TTL)
    requires v == w.(procs := w.procs[i := Idle])
    ensures Step(w, TryLock(i, true)) == v
  {
    hide OrderWriteStep, RowWriteStep, GateCritical;
  }
}
