/** One market order from preflight to release (execution/service.py, execution/control_plane.py).
    Every commit goes to the committed tables; a shadow of the state machine moves along with it,
    and between any two commits other instances may do anything. */
module ExecutionService {
  import opened ExecutionSteps
  import opened OrderState
  import opened Protocol
  import opened ProtocolInvariant
  import opened ProtocolFrames
  import opened ProtocolTheorems
  import opened Wrappers

  predicate Ours(a: Act, inst: Inst) { !a.Tick? && !a.BrokerCloses? && !a.TradeCloses? && a.i == inst }

  /** What each await of one call meets. */
  datatype Answers = Answers(lock: bool, risk: RiskAnswer, intent: bool, approved: bool, row: bool, reply: Reply,
                             sent: bool, promote: bool, filled: bool, outcome: bool, closed: bool, release: bool)

  datatype Status = BlockedReport | FailedReport | RejectedReport | FilledReport

  /** What the caller gets: an exception, or a report. */
  datatype Outcome = RaisedError | Reported(status: Status, oid: nat, ticket: Option<nat>)

  /** `Leaks`: the risk check raised, and the lock stays until its lease ends. */
  datatype Preflight = Admitted(oid: nat) | Blocked | Leaks

  class Database {
    var now: int
    var locks: map<Symbol, Lock>
    var orders: map<nat, Order>
    var trades: map<nat, Trade>
    /** What the rest of the world does before each of our commits. */
    var script: seq<seq<Act>>
    var shadow: World
    ghost var trace: seq<Act>

    ghost predicate Valid()
      reads this
    {
      && shadow == Run(trace)
      && now == shadow.now && locks == shadow.locks && orders == shadow.orders && trades == shadow.trades
    }

    constructor (script: seq<seq<Act>>)
      ensures Valid() && trace == []
    {
      this.script, shadow, trace := script, Init(), [];
      now, locks, orders, trades := 0, map[], map[], map[];
    }

    method Commit(a: Act, locks: map<Symbol, Lock>, orders: map<nat, Order>, trades: map<nat, Trade>)
      requires Valid()
      requires Step(shadow, a).locks == locks && Step(shadow, a).orders == orders && Step(shadow, a).trades == trades
      modifies this`now, this`locks, this`orders, this`trades, this`shadow, this`trace
      ensures Valid() && trace == old(trace) + [a] && shadow == Step(old(shadow), a)
    {
      assert (trace + [a])[..|trace + [a]| - 1] == trace;
      shadow, trace := Step(shadow, a), trace + [a];
      now, this.locks, this.orders, this.trades := shadow.now, locks, orders, trades;
    }

    /** Other instances, the market and the clock move; orders nobody works on stay as they are. */
    method Await(inst: Inst)
      requires Valid()
      modifies this
      ensures Valid() && PcOf(shadow, inst) == old(PcOf(shadow, inst))
      ensures Silent(old(trace), trace, inst)
      ensures old(script) == [] ==> shadow == old(shadow) && script == []
      ensures forall oid :: oid in old(shadow).orders && NobodyWorksOn(old(shadow), oid) ==>
        Keeps(old(shadow), shadow, oid)
    {
      if script == [] {
        HistCovers(trace);
        return;
      }
      var acts := script[0];
      script := script[1..];
      HistCovers(trace);
      for k := 0 to |acts|
        invariant Valid() && PcOf(shadow, inst) == old(PcOf(shadow, inst))
        invariant Silent(old(trace), trace, inst)
        invariant forall oid :: oid in old(shadow).orders && NobodyWorksOn(old(shadow), oid) ==>
          Keeps(old(shadow), shadow, oid)
      {
        var a := acts[k];
        if !Ours(a, inst) {
          RunInv(trace);
          OthersStep(old(shadow), shadow, a, inst);
          var v := Step(shadow, a);
          Commit(a, v.locks, v.orders, v.trades);
        }
      }
    }

    // -------------------------------------------------------------- control plane

    /** Takes the symbol's row unless a row within its lease stands when we commit. */
    method AcquireExecutionLock(inst: Inst, sym: Symbol, cid: Cid, ok: bool) returns (acquired: bool)
      requires Valid() && PcOf(shadow, inst).Idle?
      modifies this
      ensures Valid() && Silent(old(trace), trace, inst)
      ensures !acquired ==> PcOf(shadow, inst).Idle?
      ensures acquired ==> ok && PcOf(shadow, inst).Locked? && ClaimFor(PcOf(shadow, inst).claim, sym, cid)
      ensures acquired ==> sym in locks && locks[sym] == Lock(inst, old(now))
      ensures ok && !acquired ==> !LockFree(locks, sym, old(now))
      ensures old(script) == [] ==>
        && script == [] && orders == old(orders) && acquired == (ok && LockFree(old(locks), sym, old(now)))
        && locks == if acquired then old(locks)[sym := Lock(inst, old(now))] else old(locks)
    {
      hide Run, Step, Inv, NobodyWorksOn;
      var cutoff := now - LOCK_TTL;
      var at := now;
      StartEffect(shadow, inst, sym, cid);
      Commit(Start(inst, sym, cid), locks, orders, trades);
      Await(inst);
      TryLockEffect(shadow, inst, ok);
      if !ok {
        Commit(TryLock(inst, false), locks, orders, trades);
        return false;
      }
      var swept := if sym in locks && locks[sym].at < cutoff then locks - {sym} else locks;
      if sym in swept {
        Commit(TryLock(inst, true), locks, orders, trades);
        return false;
      }
      assert swept[sym := Lock(inst, at)] == locks[sym := Lock(inst, at)];
      Commit(TryLock(inst, true), swept[sym := Lock(inst, at)], orders, trades);
      return true;
    }

    method ReleaseExecutionLock(inst: Inst, sym: Symbol, ok: bool)
      requires Valid() && PcOf(shadow, inst).Releasing? && PcOf(shadow, inst).claim.sym == sym
      modifies this
      ensures Valid() && PcOf(shadow, inst).Idle? && Silent(old(trace), trace, inst)
      ensures ok ==> !OwnsRow(locks, inst, sym)
      ensures old(script) == [] ==>
        script == [] && locks == if ok && OwnsRow(old(locks), inst, sym) then old(locks) - {sym} else old(locks)
      ensures forall oid :: oid in old(shadow).orders && NobodyWorksOn(old(shadow), oid) ==>
        Keeps(old(shadow), shadow, oid)
    {
      hide Run, Step, Inv, NobodyWorksOn;
      Await(inst);
      var after := locks;
      if ok && sym in locks && locks[sym].owner == inst {
        after := locks - {sym};
      }
      RunInv(trace);
      ReleaseKeeps(old(shadow), shadow, inst, ok);
      ReleaseEffect(shadow, inst, ok);
      Commit(Release(inst, ok), after, orders, trades);
    }

    /** The lock, the risk check, the durable intent.  A refusal gives the lock back; an exception
        in the risk check leaves our row standing. */
    method Preflight(inst: Inst, sym: Symbol, cid: Cid, newOid: nat, answers: Answers) returns (result: Preflight)
      requires Valid() && PcOf(shadow, inst).Idle?
      modifies this
      ensures Valid() && Silent(old(trace), trace, inst)
      ensures result.Admitted? ==> result.oid == newOid && Begun(shadow, inst, sym, cid, newOid)
      ensures !result.Admitted? ==> PcOf(shadow, inst).Idle?
      ensures result.Leaks? ==> answers.risk.Raised?
      ensures result.Admitted? ==> newOid !in old(orders)
      ensures result.Admitted? ==> answers.lock && answers.risk.Allowed? && answers.intent
      ensures old(script) == [] ==>
        && script == []
        && (result.Admitted? <==> Admissible(old(locks), old(orders), old(now), sym, cid, newOid, answers))
        && (result.Leaks? <==> TakesLock(old(locks), old(now), sym, answers) && answers.risk.Raised?)
        && locks == if TakesLock(old(locks), old(now), sym, answers)
                    then LocksAfter(old(locks), old(now), inst, sym, result.Blocked? && answers.release)
                    else old(locks)
    {
      hide Run, Step, Inv, NobodyWorksOn;
      var acquired := AcquireExecutionLock(inst, sym, cid, answers.lock);
      if !acquired {
        return Blocked;
      }
      Await(inst);
      RiskEffect(shadow, inst, answers.risk);
      Commit(Risk(inst, answers.risk), locks, orders, trades);
      if answers.risk.Raised? {
        return Leaks;
      }
      if answers.risk.Denied? {
        ReleaseExecutionLock(inst, sym, answers.release);
        return Blocked;
      }
      Grown(old(trace), trace);
      var written := PersistOrderIntent(inst, cid, newOid, answers.intent);
      if !written {
        ReleaseExecutionLock(inst, sym, answers.release);
        return Blocked;
      }
      return Admitted(newOid);
    }

    /** The durable intent; an id that is taken counts as a failed write. */
    method PersistOrderIntent(inst: Inst, cid: Cid, newOid: nat, ok: bool) returns (written: bool)
      requires Valid() && PcOf(shadow, inst).Journaling? && PcOf(shadow, inst).claim.cid == cid
      modifies this
      ensures Valid() && Silent(old(trace), trace, inst)
      ensures written ==> ok && newOid in orders && orders[newOid] == Order(PENDING, None, cid, inst)
                          && PcOf(shadow, inst) == Working(old(PcOf(shadow, inst)).claim, newOid, Progress(IntentWritten, None, None, None), FAILED)
      ensures written ==> newOid !in old(orders)
      ensures !written ==> PcOf(shadow, inst) == Releasing(old(PcOf(shadow, inst)).claim)
      ensures ok && !written ==> newOid in orders || CidTaken(orders, cid)
      ensures old(script) == [] ==>
        && script == [] && locks == old(locks)
        && written == (ok && newOid !in old(orders) && !CidTaken(old(orders), cid))
    {
      hide Run, Step, Inv, NobodyWorksOn, CidTaken;
      Await(inst);
      Grown(old(trace), trace);
      IntentEffect(shadow, inst, newOid, ok);
      var taken := CidTaken(orders, cid);
      if !ok || newOid in orders || taken {
        Commit(WriteIntent(inst, newOid, ok), locks, orders, trades);
        return false;
      }
      Commit(WriteIntent(inst, newOid, true), locks, orders[newOid := Order(PENDING, None, cid, inst)], trades);
      return true;
    }

    // -------------------------------------------------------------- service

    /** The order is APPROVED, the trade row written; a row that cannot be written fails the order.
        Any other end leaves the execution exactly where the answers say. */
    method Journal(inst: Inst, oid: nat, answers: Answers) returns (outcome: Option<Outcome>)
      requires Valid() && PcOf(shadow, inst).Working?
      requires var pc := PcOf(shadow, inst);
               pc.oid == oid && pc.p == Progress(IntentWritten, None, None, None) && pc.verdict == FAILED
      modifies this
      ensures Valid() && Silent(old(trace), trace, inst)
      ensures old(script) == [] ==> script == [] && locks == old(locks)
      ensures outcome.None? <==> answers.approved && answers.row
      ensures outcome.None? ==> AtBroker(shadow, inst, old(PcOf(shadow, inst)).claim, oid)
      ensures outcome.Some? ==> var claim := old(PcOf(shadow, inst)).claim;
        && PcOf(shadow, inst) == Releasing(claim) && outcome.value == OutcomeOf(answers, oid, None)
        && Left(shadow, inst, claim.cid, oid, StatusLeft(answers), Progress(StageLeft(answers), None, None, None))
    {
      hide Run, Step, Inv, NobodyWorksOn, Left;
      Await(inst);
      Facts(trace, inst);
      ApprovedStep(shadow, inst);
      if !answers.approved {
        ghost var before := trace;
        Commit(WriteApproved(inst, false), locks, orders, trades);
        AbortLeaves(before, trace, inst);
        return Some(RaisedError);
      }
      Commit(WriteApproved(inst, true), locks, orders[oid := orders[oid].(status := APPROVED)], trades);
      var written := CreatePendingTradeLog(inst, answers.row);
      if written {
        return None;
      }
      var closed := Close(inst, oid, FAILED, answers.closed);
      return Some(closed);
    }

    /** The PENDING trade row, under the order's client id, before any broker call. */
    method CreatePendingTradeLog(inst: Inst, ok: bool) returns (written: bool)
      requires Valid() && PcOf(shadow, inst).Working? && PcOf(shadow, inst).p.stage == Protocol.Approved
      modifies this
      ensures Valid() && Silent(old(trace), trace, inst) && written == ok
      ensures old(script) == [] ==> script == [] && locks == old(locks)
      ensures !ok ==> var pc := old(PcOf(shadow, inst));
        PcOf(shadow, inst) == Working(pc.claim, pc.oid, pc.p.(stage := JournalFailed), pc.verdict)
      ensures ok ==> PcOf(shadow, inst).Working? && var pc, tid := old(PcOf(shadow, inst)), PcOf(shadow, inst).p.tid;
        && tid.Some? && tid.value in trades && trades[tid.value] == Trade(TradePending, None, pc.claim.cid, inst, now)
        && PcOf(shadow, inst) == Working(pc.claim, pc.oid, pc.p.(stage := Journaled, tid := tid), pc.verdict)
    {
      hide Run, Step, Inv, NobodyWorksOn;
      Await(inst);
      Facts(trace, inst);
      if ok {
        var tid := Fresh(trades.Keys);
        RowStep(shadow, inst, tid);
        var row := Trade(TradePending, None, orders[PcOf(shadow, inst).oid].cid, inst, now);
        Commit(WriteRow(inst, tid, true), locks, orders, trades[tid := row]);
      } else {
        NoRowStep(shadow, inst, 0);
        Commit(WriteRow(inst, 0, false), locks, orders, trades);
      }
      return ok;
    }

    /** Writes the final status of a failed execution. */
    method Close(inst: Inst, oid: nat, verdict: State, ok: bool) returns (outcome: Outcome)
      requires Valid() && IsVerdict(verdict)
      requires PcOf(shadow, inst).Working? && PcOf(shadow, inst).oid == oid && PcOf(shadow, inst).verdict == verdict
      requires PcOf(shadow, inst).p.stage == JournalFailed || PcOf(shadow, inst).p.stage == OutcomeTried
      modifies this
      ensures Valid() && Silent(old(trace), trace, inst)
      ensures old(script) == [] ==> script == [] && locks == old(locks)
      ensures PcOf(shadow, inst) == Releasing(old(PcOf(shadow, inst)).claim)
      ensures outcome == if ok then Reported(ReportOf(verdict), oid, None) else RaisedError
      ensures ok ==> outcome.status == (if verdict == REJECTED then RejectedReport else FailedReport)
      ensures ok ==> oid in orders && orders[oid].status == verdict && orders[oid].ticket == outcome.ticket
      ensures var pc := old(PcOf(shadow, inst));
              if ok then Left(shadow, inst, pc.claim.cid, oid, verdict, pc.p.(stage := Closed))
              else Left(shadow, inst, pc.claim.cid, oid, APPROVED, pc.p)
    {
      hide Run, Step, Inv, NobodyWorksOn, Left;
      Await(inst);
      Facts(trace, inst);
      ClosedStep(shadow, inst);
      ghost var before := trace;
      if !ok {
        Commit(WriteClosed(inst, false), locks, orders, trades);
        AbortLeaves(before, trace, inst);
        return RaisedError;
      }
      var o := orders[oid].(status := verdict);
      Commit(WriteClosed(inst, true), locks, orders[oid := o], trades);
      EndLeaves(before, trace, inst, o, Closed);
      return Reported(ReportOf(verdict), oid, None);
    }

    /** The order becomes SENT and takes the ticket; a failed write leaves it APPROVED without. */
    method UpdateToSent(inst: Inst, ok: bool) returns (written: bool)
      requires Valid() && PcOf(shadow, inst).Working? && PcOf(shadow, inst).p.stage == Bought
      modifies this
      ensures Valid() && Silent(old(trace), trace, inst) && written == ok
      ensures old(script) == [] ==> script == [] && locks == old(locks)
      ensures ok ==> var pc := old(PcOf(shadow, inst));
        && PcOf(shadow, inst) == Working(pc.claim, pc.oid, pc.p.(stage := SentWritten), pc.verdict)
        && pc.oid in orders && orders[pc.oid] == Order(SENT, pc.p.ticket, pc.claim.cid, inst)
      ensures !ok ==> var pc := old(PcOf(shadow, inst));
        && PcOf(shadow, inst) == Releasing(pc.claim)
        && Left(shadow, inst, pc.claim.cid, pc.oid, APPROVED, pc.p) && orders[pc.oid].ticket.None?
    {
      hide Run, Step, Inv, NobodyWorksOn;
      Await(inst);
      Facts(trace, inst);
      SentStep(shadow, inst);
      ghost var before := trace;
      var oid, ticket := PcOf(shadow, inst).oid, PcOf(shadow, inst).p.ticket;
      if !ok {
        Commit(WriteSent(inst, false), locks, orders, trades);
        AbortLeaves(before, trace, inst);
        return false;
      }
      Commit(WriteSent(inst, true), locks, orders[oid := orders[oid].(status := SENT, ticket := ticket)], trades);
      return true;
    }

    /** The trade row becomes OPEN and takes the ticket; a failed write leaves it PENDING without. */
    method ConfirmTradeLog(inst: Inst, ok: bool) returns (confirmed: bool)
      requires Valid() && PcOf(shadow, inst).Working? && PcOf(shadow, inst).p.stage == SentWritten
      modifies this
      ensures Valid() && Silent(old(trace), trace, inst) && confirmed == ok
      ensures old(script) == [] ==> script == [] && locks == old(locks)
      ensures var pc := old(PcOf(shadow, inst));
              && pc.p.tid.Some? && pc.p.tid.value in trades
              && trades[pc.p.tid.value].outcome == (if ok then TradeOpen else TradePending)
              && trades[pc.p.tid.value].ticket == (if ok then pc.p.ticket else None)
      ensures ok ==> var pc := old(PcOf(shadow, inst));
        PcOf(shadow, inst) == Working(pc.claim, pc.oid, pc.p.(stage := Promoted), pc.verdict)
      ensures !ok ==> var pc := old(PcOf(shadow, inst));
        PcOf(shadow, inst) == Releasing(pc.claim) && Left(shadow, inst, pc.claim.cid, pc.oid, SENT, pc.p)
    {
      hide Run, Step, Inv, NobodyWorksOn;
      Await(inst);
      Facts(trace, inst);
      RowAt(trace, inst);
      PromoteRowStep(shadow, inst);
      ghost var before := trace;
      var tid, ticket := PcOf(shadow, inst).p.tid.value, PcOf(shadow, inst).p.ticket;
      if !ok {
        Commit(PromoteRow(inst, false), locks, orders, trades);
        AbortLeaves(before, trace, inst);
        return false;
      }
      Commit(PromoteRow(inst, true), locks, orders, trades[tid := trades[tid].(outcome := TradeOpen, ticket := ticket)]);
      return true;
    }

    /** A fill becomes durable in three writes: SENT with its ticket, the row OPEN, FILLED. */
    method Finalize(inst: Inst, oid: nat, ticket: nat, answers: Answers) returns (outcome: Outcome)
      requires Valid() && PcOf(shadow, inst).Working? && PcOf(shadow, inst).oid == oid
      requires PcOf(shadow, inst).p.stage == Bought && PcOf(shadow, inst).p.ticket == Some(ticket)
      modifies this
      ensures Valid() && Silent(old(trace), trace, inst)
      ensures old(script) == [] ==> script == [] && locks == old(locks)
      ensures PcOf(shadow, inst) == Releasing(old(PcOf(shadow, inst)).claim)
      ensures outcome == if answers.sent && answers.promote && answers.filled
                         then Reported(FilledReport, oid, Some(ticket)) else RaisedError
      ensures var pc, stage := old(PcOf(shadow, inst)), StageBought(answers);
              Left(shadow, inst, pc.claim.cid, oid, StatusAt(stage), pc.p.(stage := stage))
    {
      hide Run, Step, Inv, NobodyWorksOn, Left;
      var written := UpdateToSent(inst, answers.sent);
      if !written {
        return RaisedError;
      }
      var confirmed := ConfirmTradeLog(inst, answers.promote);
      if !confirmed {
        return RaisedError;
      }
      outcome := UpdateToFilled(inst, oid, ticket, answers.filled);
    }

    /** The order becomes FILLED; a failed write leaves it SENT with its OPEN row. */
    method UpdateToFilled(inst: Inst, oid: nat, ticket: nat, ok: bool) returns (outcome: Outcome)
      requires Valid() && PcOf(shadow, inst).Working? && PcOf(shadow, inst).oid == oid
      requires PcOf(shadow, inst).p.stage == Promoted && PcOf(shadow, inst).p.ticket == Some(ticket)
      modifies this
      ensures Valid() && Silent(old(trace), trace, inst)
      ensures old(script) == [] ==> script == [] && locks == old(locks)
      ensures PcOf(shadow, inst) == Releasing(old(PcOf(shadow, inst)).claim)
      ensures outcome == if ok then Reported(FilledReport, oid, Some(ticket)) else RaisedError
      ensures oid in orders && orders[oid] == Order(if ok then FILLED else SENT, Some(ticket), old(PcOf(shadow, inst)).claim.cid, inst)
      ensures var pc := old(PcOf(shadow, inst));
              if ok then Left(shadow, inst, pc.claim.cid, oid, FILLED, pc.p.(stage := Completed))
              else Left(shadow, inst, pc.claim.cid, oid, SENT, pc.p)
    {
      hide Run, Step, Inv, NobodyWorksOn, Left;
      Await(inst);
      Facts(trace, inst);
      FilledStep(shadow, inst);
      ghost var before := trace;
      if !ok {
        Commit(WriteFilled(inst, false), locks, orders, trades);
        AbortLeaves(before, trace, inst);
        return RaisedError;
      }
      var o := orders[oid].(status := FILLED);
      Commit(WriteFilled(inst, true), locks, orders[oid := o], trades);
      EndLeaves(before, trace, inst, o, Completed);
      return Reported(FilledReport, oid, Some(ticket));
    }

    /** The broker call itself, under a ticket never seen before: exactly one act of ours, the last
        one, submits, and it is the first submission of this client id. */
    method OpenOrder(inst: Inst, reply: Reply) returns (ticket: nat)
      requires Valid() && PcOf(shadow, inst).Working? && PcOf(shadow, inst).p.stage == Journaled
      modifies this
      ensures Valid() && old(trace) < trace && Silent(old(trace), trace[..|trace| - 1], inst)
      ensures trace[|trace| - 1] == CallBroker(inst, AnswerTo(reply, ticket))
      ensures old(script) == [] ==> script == [] && locks == old(locks)
      ensures var cid := old(PcOf(shadow, inst)).claim.cid; old(shadow).calls[cid] == 0 && shadow.calls[cid] == 1
      ensures reply.Accepted? || reply.hidden ==> ticket in shadow.positions && shadow.positions[ticket] == inst
      ensures PcOf(shadow, inst) == Submitted(old(PcOf(shadow, inst)), reply, ticket)
    {
      hide Run, Step, Inv, NobodyWorksOn;
      CallsAt(trace, inst);
      Await(inst);
      CallsAt(trace, inst);
      Facts(trace, inst);
      ticket := Fresh(shadow.ticketOwner.Keys);
      SubmitStep(shadow, inst, AnswerTo(reply, ticket));
      ghost var before := trace;
      Commit(CallBroker(inst, AnswerTo(reply, ticket)), locks, orders, trades);
      assert trace[..|trace| - 1] == before;
    }

    /** The submission and what follows from the broker's answer. */
    method Submission(inst: Inst, oid: nat, answers: Answers) returns (outcome: Outcome, ghost ticket: nat)
      requires Valid() && PcOf(shadow, inst).Working? && AtBroker(shadow, inst, PcOf(shadow, inst).claim, oid)
      requires answers.approved && answers.row
      modifies this
      ensures Valid() && old(trace) <= trace
      ensures old(script) == [] ==> script == [] && locks == old(locks)
      ensures PcOf(shadow, inst) == Releasing(old(PcOf(shadow, inst)).claim)
      ensures outcome == OutcomeOf(answers, oid, Some(ticket))
      ensures outcome.Reported? ==> outcome.oid == oid && oid in orders && Tells(outcome, orders[oid])
      ensures var pc := old(PcOf(shadow, inst));
              Left(shadow, inst, pc.claim.cid, oid, StatusLeft(answers),
                   Progress(StageLeft(answers), pc.p.tid, if Opens(answers) then Some(ticket) else None, Told(answers)))
      ensures Final(shadow, answers, inst, old(PcOf(shadow, inst)).claim.cid, oid)
    {
      hide Run, Step, Inv, NobodyWorksOn, Left, Final;
      ghost var pc := PcOf(shadow, inst);
      var t := OpenOrder(inst, answers.reply);
      ticket := t;
      if answers.reply.Accepted? {
        outcome := Finalize(inst, oid, t, answers);
      } else {
        outcome := Reject(inst, oid, answers);
      }
      LeftIsFinal(trace, answers, inst, pc.claim.cid, oid,
                  Progress(StageLeft(answers), pc.p.tid, if Opens(answers) then Some(ticket) else None, Told(answers)));
      ReportTells(shadow, answers, inst, pc.claim.cid, oid, Some(ticket));
    }

    /** A refusal with a message rejects, any other failure fails; the row is told first. */
    method Reject(inst: Inst, oid: nat, answers: Answers) returns (outcome: Outcome)
      requires Valid() && PcOf(shadow, inst).Working? && PcOf(shadow, inst).oid == oid && answers.reply.Refusal?
      requires PcOf(shadow, inst).p.stage == Refused && PcOf(shadow, inst).verdict == VerdictOf(answers.reply)
      modifies this
      ensures Valid() && Silent(old(trace), trace, inst)
      ensures old(script) == [] ==> script == [] && locks == old(locks)
      ensures PcOf(shadow, inst) == Releasing(old(PcOf(shadow, inst)).claim)
      ensures outcome == if answers.closed then Reported(ReportOf(VerdictOf(answers.reply)), oid, None) else RaisedError
      ensures outcome.Reported? ==>
        outcome.status == (if answers.reply.hasMessage && !answers.reply.raised then RejectedReport else FailedReport)
      ensures outcome.Reported? ==> oid in orders && Tells(outcome, orders[oid])
      ensures var pc := old(PcOf(shadow, inst));
              Left(shadow, inst, pc.claim.cid, oid, if answers.closed then VerdictOf(answers.reply) else APPROVED,
                   pc.p.(stage := if answers.closed then Closed else OutcomeTried, told := ToldAs(answers.outcome, VerdictOf(answers.reply))))
    {
      hide Run, Step, Inv, NobodyWorksOn, Left;
      var verdict := FAILED;
      if !answers.reply.raised && answers.reply.hasMessage {
        verdict := REJECTED;
      }
      UpdateTradeOutcome(inst, FailedOutcome(verdict), answers.outcome);
      outcome := Close(inst, oid, verdict, answers.closed);
    }

    /** The trade row of a refused order takes its outcome; a failed write is only logged and the
        row stays PENDING. */
    method UpdateTradeOutcome(inst: Inst, outcome: Protocol.Outcome, ok: bool)
      requires Valid() && PcOf(shadow, inst).Working? && PcOf(shadow, inst).p.stage == Refused
      requires outcome == FailedOutcome(PcOf(shadow, inst).verdict)
      modifies this
      ensures Valid() && Silent(old(trace), trace, inst)
      ensures old(script) == [] ==> script == [] && locks == old(locks)
      ensures var pc := old(PcOf(shadow, inst));
              && PcOf(shadow, inst) == Working(pc.claim, pc.oid, pc.p.(stage := OutcomeTried, told := ToldAs(ok, pc.verdict)), pc.verdict)
              && pc.p.tid.Some? && pc.p.tid.value in trades
              && trades[pc.p.tid.value].outcome == (if ok then outcome else TradePending)
    {
      hide Run, Step, Inv, NobodyWorksOn;
      Await(inst);
      Facts(trace, inst);
      RowAt(trace, inst);
      OutcomeStep(shadow, inst, ok);
      var tid := PcOf(shadow, inst).p.tid.value;
      if ok {
        Commit(WriteOutcome(inst, true), locks, orders, trades[tid := trades[tid].(outcome := outcome)]);
      } else {
        Commit(WriteOutcome(inst, false), locks, orders, trades);
      }
    }

    /** What an admitted call does before it gives the lock back. */
    method ExecuteAdmitted(inst: Inst, oid: nat, answers: Answers) returns (outcome: Outcome, ghost p: Progress)
      requires Valid() && PcOf(shadow, inst).Working?
      requires var pc := PcOf(shadow, inst);
               pc.oid == oid && pc.p == Progress(IntentWritten, None, None, None) && pc.verdict == FAILED
      modifies this
      ensures Valid() && old(trace) <= trace
      ensures old(script) == [] ==> script == [] && locks == old(locks)
      ensures PcOf(shadow, inst) == Releasing(old(PcOf(shadow, inst)).claim)
      ensures Left(shadow, inst, old(PcOf(shadow, inst)).claim.cid, oid, StatusLeft(answers), p)
      ensures p.stage == StageLeft(answers) && p.told == Told(answers)
      ensures (p.tid.Some? <==> answers.approved && answers.row) && (p.ticket.Some? <==> Opens(answers))
      ensures outcome == OutcomeOf(answers, oid, p.ticket)
    {
      hide Run, Step, Inv, NobodyWorksOn, Left, Final;
      var early := Journal(inst, oid, answers);
      p := Progress(StageLeft(answers), None, None, None);
      if early.Some? {
        outcome := early.value;
      } else {
        ghost var ticket, tid := 0, PcOf(shadow, inst).p.tid;
        outcome, ticket := Submission(inst, oid, answers);
        p := Progress(StageLeft(answers), tid, if Opens(answers) then Some(ticket) else None, Told(answers));
      }
    }

    /** The whole call.  What the caller gets, and what order, trade row and ticket are left
        committed, is determined by the answers, whether the call returns or raises.  Undisturbed, a
        call leaves its lock row exactly if it took the lock and the risk check raised or the
        release write failed. */
    method ExecuteMarketOrder(inst: Inst, sym: Symbol, cid: Cid, newOid: nat, answers: Answers) returns (outcome: Outcome, ghost admitted: bool)
      requires Valid() && PcOf(shadow, inst).Idle?
      modifies this
      ensures Valid() && old(trace) <= trace && PcOf(shadow, inst).Idle?
      ensures admitted ==> answers.lock && answers.risk.Allowed? && answers.intent
      ensures old(script) == [] ==>
        (admitted <==> Admissible(old(locks), old(orders), old(now), sym, cid, newOid, answers))
      ensures admitted ==> Final(shadow, answers, inst, cid, newOid) && outcome == OutcomeOf(answers, newOid, shadow.hist[newOid].ticket)
      ensures admitted && outcome.Reported? ==>
        && newOid in orders && outcome.oid == newOid && outcome.ticket == orders[newOid].ticket
        && (outcome.status == FilledReport <==> orders[newOid].status == FILLED)
        && (outcome.status == RejectedReport <==> orders[newOid].status == REJECTED)
        && (outcome.status == FailedReport <==> orders[newOid].status == FAILED)
      ensures admitted && outcome.RaisedError? ==>
        newOid in orders && orders[newOid].status in {PENDING, APPROVED, SENT}
      ensures admitted ==>
        && (outcome.Reported? && outcome.status == FilledReport <==>
              answers.approved && answers.row && answers.reply.Accepted? && answers.sent && answers.promote && answers.filled)
        && (outcome.Reported? && outcome.status == RejectedReport <==>
              answers.approved && answers.row && answers.reply.Refusal?
              && answers.reply.hasMessage && !answers.reply.raised && answers.closed)
        && (outcome.Reported? && outcome.status == FailedReport <==>
              answers.approved && answers.closed
              && (!answers.row || (answers.reply.Refusal? && (answers.reply.raised || !answers.reply.hasMessage))))
      ensures admitted && shadow.hist[newOid].ticket.Some? ==>
        var t := shadow.hist[newOid].ticket.value; t in shadow.positions || BrokerCloses(t) in trace[|old(trace)|..]
      ensures !admitted ==> Silent(old(trace), trace, inst)
      ensures !admitted ==> outcome == Reported(BlockedReport, 0, None) || (answers.risk.Raised? && outcome == RaisedError)
      ensures admitted && answers.release ==> !OwnsRow(locks, inst, sym)
      ensures old(script) == [] ==>
        locks == if TakesLock(old(locks), old(now), sym, answers)
                 then LocksAfter(old(locks), old(now), inst, sym, answers.release && !answers.risk.Raised?)
                 else old(locks)
    {
      hide Run, Step, Inv, NobodyWorksOn, Left, Final, OutcomeOf, StageLeft, StatusLeft, Told, Opens;
      var preflight := Preflight(inst, sym, cid, newOid, answers);
      admitted := preflight.Admitted?;
      if preflight.Leaks? {
        return RaisedError, false;
      }
      if preflight.Blocked? {
        return Reported(BlockedReport, 0, None), false;
      }
      ghost var p;
      outcome, p := ExecuteAdmitted(inst, newOid, answers);
      ghost var before := shadow;
      NobodyLeft(before, inst, cid, newOid, StatusLeft(answers), p);
      ReleaseExecutionLock(inst, sym, answers.release);
      LeftKeeps(before, shadow, inst, cid, newOid, StatusLeft(answers), p);
      LeftIsFinal(trace, answers, inst, cid, newOid, p);
      ReportTells(shadow, answers, inst, cid, newOid, shadow.hist[newOid].ticket);
      OutcomeMeaning(answers, newOid, shadow.hist[newOid].ticket);
      assert old(trace) + trace[|old(trace)|..] == trace;
      if p.ticket.Some? {
        OpenUnlessClosed(old(trace), trace[|old(trace)|..], newOid);
      }
    }
  }

  method Fresh(used: set<nat>) returns (n: nat)
    ensures n > 0 && n !in used
  {
    n := 1;
    var rest := used;
    while rest != {}
      invariant rest <= used && n > 0 && forall y :: y in used && y !in rest ==> y < n
      decreases rest
    {
      var x :| x in rest;
      rest := rest - {x};
      if x >= n { n := x + 1; }
    }
  }

  // ---------------------------------------------------------------- what the contracts speak of

  /** `after` extends `before`, and `inst` submitted nothing in between. */
  predicate Silent(before: seq<Act>, after: seq<Act>, inst: Inst) {
    before <= after && forall k :: |before| <= k < |after| ==> !(after[k].CallBroker? && after[k].i == inst)
  }

  /** What it takes to be admitted when nobody interferes. */
  predicate Admissible(locks: map<Symbol, Lock>, orders: map<nat, Order>, now: int, sym: Symbol, cid: Cid, oid: nat, a: Answers) {
    a.lock && LockFree(locks, sym, now) && a.risk.Allowed? && a.intent && oid !in orders && !CidTaken(orders, cid)
  }

  predicate TakesLock(locks: map<Symbol, Lock>, now: int, sym: Symbol, a: Answers) { a.lock && LockFree(locks, sym, now) }

  /** The lock table of a call that took the lock, given back or not. */
  function LocksAfter(locks: map<Symbol, Lock>, now: int, inst: Inst, sym: Symbol, givenBack: bool): map<Symbol, Lock> {
    if givenBack then locks - {sym} else locks[sym := Lock(inst, now)]
  }

  predicate ClaimFor(claim: Claim, sym: Symbol, cid: Cid) { claim.sym == sym && claim.cid == cid }

  ghost predicate Keeps(w: World, v: World, oid: nat) {
    oid in w.orders && oid in w.hist && Untouched(w, v, oid) && NobodyWorksOn(v, oid)
  }

  ghost predicate Begun(w: World, inst: Inst, sym: Symbol, cid: Cid, oid: nat) {
    var pc := PcOf(w, inst);
    && pc.Working? && ClaimFor(pc.claim, sym, cid) && pc.oid == oid
    && pc.p == Progress(IntentWritten, None, None, None) && pc.verdict == FAILED
  }

  /** Execution `oid` has its row and stands before the broker call. */
  ghost predicate AtBroker(w: World, inst: Inst, claim: Claim, oid: nat) {
    var pc := PcOf(w, inst);
    pc.Working? && pc.claim == claim && pc.oid == oid && pc.p.tid.Some? && pc.p == Progress(Journaled, pc.p.tid, None, None)
  }

  function VerdictOf(reply: Reply): State
    requires reply.Refusal?
  {
    if reply.hasMessage && !reply.raised then REJECTED else FAILED
  }

  function ReportOf(verdict: State): Status { if verdict == REJECTED then RejectedReport else FailedReport }

  /** What an admitted call ends in, read off the answers alone. */
  function OutcomeOf(a: Answers, oid: nat, ticket: Option<nat>): Outcome {
    if !a.approved then RaisedError
    else if !a.row then (if a.closed then Reported(FailedReport, oid, None) else RaisedError)
    else
      match a.reply
      case Accepted => if a.sent && a.promote && a.filled then Reported(FilledReport, oid, ticket) else RaisedError
      case Refusal(_, _, _) => if a.closed then Reported(ReportOf(VerdictOf(a.reply)), oid, None) else RaisedError
  }

  /** How far a call gets after a fill. */
  function StageBought(a: Answers): Stage {
    if !a.sent then Bought else if !a.promote then SentWritten else if !a.filled then Promoted else Completed
  }

  /** How far an admitted call gets. */
  function StageLeft(a: Answers): Stage {
    if !a.approved then IntentWritten
    else if !a.row then (if a.closed then Closed else JournalFailed)
    else if a.reply.Accepted? then StageBought(a)
    else if a.closed then Closed else OutcomeTried
  }

  /** The status its order is left with. */
  function StatusLeft(a: Answers): State {
    if StageLeft(a) == Closed
    then (if a.row && a.reply.Refusal? then VerdictOf(a.reply) else FAILED)
    else StatusAt(StageLeft(a))
  }

  /** A position was opened for it. */
  predicate Opens(a: Answers) { a.approved && a.row && (a.reply.Accepted? || a.reply.hidden) }

  /** The verdict its trade row was told, if it was told one. */
  function Told(a: Answers): Option<State> {
    if a.approved && a.row && a.reply.Refusal? then ToldAs(a.outcome, VerdictOf(a.reply)) else None
  }

  /** The committed records an admitted call leaves behind, returning or raising. */
  ghost predicate Final(w: World, a: Answers, inst: Inst, cid: Cid, oid: nat) {
    && oid in w.orders && oid in w.hist && NobodyWorksOn(w, oid)
    && var p := w.hist[oid];
       && p.stage == StageLeft(a) && p.told == Told(a)
       && (p.tid.Some? <==> a.approved && a.row) && (p.ticket.Some? <==> Opens(a))
       && w.orders[oid] == Order(StatusLeft(a), TicketAt(p), cid, inst)
       && (p.tid.Some? ==> p.tid.value in w.trades && RowLeft(w, a, p, w.trades[p.tid.value], inst, cid))
       && (p.ticket.Some? ==> p.ticket.value in w.ticketOwner && w.ticketOwner[p.ticket.value] == oid)
  }

  /** The trade row: OPEN with the ticket once promoted (CLOSED if the position has gone since),
      the outcome it was told if it was told one, and PENDING without a ticket otherwise. */
  predicate RowLeft(w: World, a: Answers, p: Progress, row: Trade, inst: Inst, cid: Cid) {
    && row.inst == inst && row.cid == cid
    && if OpenStage(StageLeft(a))
       then row.ticket == p.ticket && p.ticket.Some?
            && (row.outcome == TradeOpen || (row.outcome == TradeClosed && p.ticket.value !in w.positions))
       else row.ticket == None
            && row.outcome == (if Told(a).Some? then FailedOutcome(Told(a).value) else TradePending)
  }

  /** A report names the status and the ticket of the committed order. */
  predicate Tells(outcome: Outcome, order: Order) {
    && outcome.Reported? && outcome.ticket == order.ticket
    && match outcome.status
       case BlockedReport => false
       case FailedReport => order.status == FAILED
       case RejectedReport => order.status == REJECTED
       case FilledReport => order.status == FILLED
  }

  lemma ReportTells(w: World, a: Answers, inst: Inst, cid: Cid, oid: nat, ticket: Option<nat>)
    requires Final(w, a, inst, cid, oid) && (Opens(a) ==> w.hist[oid].ticket == ticket)
    ensures oid in w.orders
    ensures var outcome := OutcomeOf(a, oid, ticket);
            if outcome.Reported? then outcome.oid == oid && Tells(outcome, w.orders[oid])
            else w.orders[oid].status in {PENDING, APPROVED, SENT}
  {
    hide NobodyWorksOn;
  }

  /** Which answers lead to which report; all others end in an exception. */
  lemma OutcomeMeaning(a: Answers, oid: nat, ticket: Option<nat>)
    ensures OutcomeOf(a, oid, ticket) == Reported(FilledReport, oid, ticket)
       <==> a.approved && a.row && a.reply.Accepted? && a.sent && a.promote && a.filled
    ensures OutcomeOf(a, oid, ticket) == Reported(RejectedReport, oid, None)
       <==> a.approved && a.row && a.reply.Refusal? && a.reply.hasMessage && !a.reply.raised && a.closed
    ensures OutcomeOf(a, oid, ticket) == Reported(FailedReport, oid, None)
       <==> a.approved && a.closed && (!a.row || (a.reply.Refusal? && (a.reply.raised || !a.reply.hasMessage)))
    ensures var outcome := OutcomeOf(a, oid, ticket);
            outcome.RaisedError? || outcome == Reported(FilledReport, oid, ticket)
            || outcome == Reported(RejectedReport, oid, None) || outcome == Reported(FailedReport, oid, None)
  {
  }

  /** The committed order, row and ticket, read off the answers. */
  lemma FinalMeaning(w: World, a: Answers, inst: Inst, cid: Cid, oid: nat)
    requires Final(w, a, inst, cid, oid)
    ensures var o, filled := w.orders[oid], a.approved && a.row && a.reply.Accepted?;
            && o.cid == cid && o.inst == inst
            && (o.status == PENDING <==> !a.approved)
            && (o.status == SENT <==> filled && a.sent && !(a.promote && a.filled))
            && (o.status == FILLED <==> filled && a.sent && a.promote && a.filled)
            && (o.status == REJECTED <==> a.approved && a.row && a.closed && a.reply.Refusal? && a.reply.hasMessage && !a.reply.raised)
            && (o.status == FAILED <==>
                  a.approved && a.closed && (!a.row || (a.reply.Refusal? && (a.reply.raised || !a.reply.hasMessage))))
            && o.status in {PENDING, APPROVED, SENT, FILLED, REJECTED, FAILED}
            && (o.ticket.Some? <==> filled && a.sent)
            && (o.ticket.Some? ==> o.ticket == w.hist[oid].ticket)
    ensures var p := w.hist[oid];
            && (p.tid.Some? <==> a.approved && a.row)
            && (p.ticket.Some? <==> a.approved && a.row && (a.reply.Accepted? || a.reply.hidden))
            && (p.tid.Some? ==>
                  var row, told := w.trades[p.tid.value], a.reply.Refusal? && a.outcome;
                  && row.cid == cid && row.inst == inst
                  && (row.ticket.Some? <==> a.reply.Accepted? && a.sent && a.promote)
                  && (row.ticket.Some? ==> row.ticket == p.ticket)
                  && (row.outcome in {TradeOpen, TradeClosed} <==> row.ticket.Some?)
                  && (row.outcome == TradeRejected <==> told && a.reply.hasMessage && !a.reply.raised)
                  && (row.outcome == TradeFailed <==> told && (a.reply.raised || !a.reply.hasMessage))
                  && (row.outcome == TradeClosed ==> p.ticket.value !in w.positions))
  {
    hide NobodyWorksOn;
  }

  /** The row of a running execution that is not promoted yet. */
  lemma RowAt(trace: seq<Act>, inst: Inst)
    requires PcOf(Run(trace), inst).Working?
    requires PcOf(Run(trace), inst).p.stage == SentWritten || PcOf(Run(trace), inst).p.stage == Refused
    ensures PcOf(Run(trace), inst).p.tid.Some?
    ensures var w, tid := Run(trace), PcOf(Run(trace), inst).p.tid.value;
            tid in w.trades && w.trades[tid].outcome == TradePending && w.trades[tid].ticket.None?
  {
    RunInv(trace);
    RunningFacts(Run(trace), inst, PcOf(Run(trace), inst));
    hide Run, Inv;
  }

  lemma Grown(before: seq<Act>, after: seq<Act>)
    requires before <= after
    ensures Run(before).orders.Keys <= Run(after).orders.Keys
  {
    assert before + after[|before|..] == after;
    OrdersGrow(before, after[|before|..]);
  }

  lemma NobodyLeft(w: World, inst: Inst, cid: Cid, oid: nat, s: State, p: Progress)
    requires Left(w, inst, cid, oid, s, p)
    ensures oid in w.orders && NobodyWorksOn(w, oid)
  {
  }

  lemma LeftKeeps(w: World, v: World, inst: Inst, cid: Cid, oid: nat, s: State, p: Progress)
    requires Left(w, inst, cid, oid, s, p) && Keeps(w, v, oid)
    ensures Left(v, inst, cid, oid, s, p)
  {
    hide NobodyWorksOn;
  }

  lemma LeftIsFinal(trace: seq<Act>, a: Answers, inst: Inst, cid: Cid, oid: nat, p: Progress)
    requires Left(Run(trace), inst, cid, oid, StatusLeft(a), p)
    requires p.stage == StageLeft(a) && p.told == Told(a)
    requires (p.tid.Some? <==> a.approved && a.row) && (p.ticket.Some? <==> Opens(a))
    ensures Final(Run(trace), a, inst, cid, oid) && Run(trace).hist[oid] == p
  {
    RunInv(trace);
    var w := Run(trace);
    hide Run, LocksOk, ProcsOk, CidsOk, CallsOk, FaultlessOk, NobodyWorksOn;
    assert OrderShape(w.orders[oid], p);
    if p.tid.Some? {
      assert w.rowOwner[p.tid.value] == oid && RowShape(w.orders[oid], p, w.trades[p.tid.value]);
    }
  }

  lemma OthersStep(start: World, w: World, a: Act, inst: Inst)
    requires Inv(w) && !Ours(a, inst)
    ensures PcOf(Step(w, a), inst) == PcOf(w, inst)
    ensures forall oid :: Keeps(start, w, oid) ==> Keeps(start, Step(w, a), oid)
  {
    StepFrame(w, a);
    hide Step, Inv;
    forall oid | Keeps(start, w, oid) ensures Keeps(start, Step(w, a), oid) {
      AbandonedStep(w, a, oid);
    }
  }

  lemma ReleaseKeeps(start: World, w: World, inst: Inst, ok: bool)
    requires Inv(w)
    ensures forall oid :: Keeps(start, w, oid) ==> Keeps(start, Step(w, Release(inst, ok)), oid)
  {
    hide Step, Inv;
    forall oid | Keeps(start, w, oid) ensures Keeps(start, Step(w, Release(inst, ok)), oid) {
      AbandonedStep(w, Release(inst, ok), oid);
    }
  }
}
