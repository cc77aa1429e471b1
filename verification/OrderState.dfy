/** The in-memory order tracker and its transition table (execution/order_state.py). */
module OrderState {
  import opened Wrappers

  datatype State =
    | PENDING | APPROVED | SENT | FILLED | PARTIAL | CANCELLED | REJECTED | FAILED | RECOVERY_PENDING

  function ValidTransitions(s: State): set<State> {
    match s
    case PENDING => {APPROVED, SENT, FAILED, CANCELLED}
    case APPROVED => {SENT, REJECTED, CANCELLED, FAILED}
    case SENT => {FILLED, PARTIAL, REJECTED, CANCELLED, FAILED}
    case PARTIAL => {FILLED, CANCELLED}
    case FILLED => {}
    case CANCELLED => {}
    case REJECTED => {}
    case FAILED => {PENDING}
    case RECOVERY_PENDING => {FILLED, CANCELLED, REJECTED, FAILED}
  }

  predicate IsTerminal(s: State) { s == FILLED || s == CANCELLED || s == REJECTED }

  datatype Transition = Transition(from: State, to: State)

  /** The observable fields of a tracker. */
  datatype View = View(
    state: State, transitions: seq<Transition>, ticket: Option<int>,
    fillPrice: Option<real>, fillVolume: Option<real>, slippage: real, spread: real,
    errorCode: Option<int>, errorMessage: string, verified: bool, attempts: nat)

  datatype Op =
    | MoveTo(to: State)
    | Sent(ticket: int)
    | Filled(price: real, volume: real, slippage: real, spread: real)
    | Rejected(code: int, message: string)
    | Failed(message: string)
    | Verified

  function Move(v: View, to: State): View {
    if to in ValidTransitions(v.state)
    then v.(state := to, transitions := v.transitions + [Transition(v.state, to)])
    else v
  }

  function Apply(v: View, op: Op): View {
    match op
    case MoveTo(to) => Move(v, to)
    case Sent(t) => if SENT in ValidTransitions(v.state) then Move(v, SENT).(ticket := Some(t)) else v
    case Filled(p, vol, sl, sp) =>
      if FILLED in ValidTransitions(v.state)
      then Move(v, FILLED).(fillPrice := Some(p), fillVolume := Some(vol), slippage := sl, spread := sp)
      else v
    case Rejected(c, m) =>
      if REJECTED in ValidTransitions(v.state) then Move(v, REJECTED).(errorCode := Some(c), errorMessage := m) else v
    case Failed(m) =>
      if FAILED in ValidTransitions(v.state) then Move(v, FAILED).(errorMessage := m) else v
    case Verified => v.(verified := true, attempts := v.attempts + 1)
  }

  class OrderTracker {
    const orderId: string
    const createdAt: int
    var state: State
    var transitions: seq<Transition>
    var ticket: Option<int>
    var fillPrice: Option<real>
    var fillVolume: Option<real>
    var slippage: real
    var spread: real
    var errorCode: Option<int>
    var errorMessage: string
    var verified: bool
    var attempts: nat

    ghost function AsView(): View
      reads this
    {
      View(state, transitions, ticket, fillPrice, fillVolume, slippage, spread,
           errorCode, errorMessage, verified, attempts)
    }

    constructor (orderId: string, createdAt: int, state: State, ticket: Option<int>,
                 fillPrice: Option<real>, fillVolume: Option<real>)
      ensures this.orderId == orderId && this.createdAt == createdAt
      ensures AsView() == View(state, [], ticket, fillPrice, fillVolume, 0.0, 0.0, None, "", false, 0)
    {
      this.orderId, this.createdAt := orderId, createdAt;
      this.state, transitions, this.ticket := state, [], ticket;
      this.fillPrice, this.fillVolume, slippage, spread := fillPrice, fillVolume, 0.0, 0.0;
      errorCode, errorMessage, verified, attempts := None, "", false, 0;
    }

    method TransitionTo(to: State) returns (ok: bool)
      modifies this
      ensures AsView() == Apply(old(AsView()), MoveTo(to))
      ensures ok == (to in ValidTransitions(old(state)))
      ensures AsView() == if ok then old(AsView()).(state := to, transitions := old(transitions) + [Transition(old(state), to)])
                          else old(AsView())
    {
      if to !in ValidTransitions(state) {
        return false;
      }
      transitions := transitions + [Transition(state, to)];
      state := to;
      return true;
    }

    method MarkSent(brokerTicket: int)
      modifies this
      ensures AsView() == Apply(old(AsView()), Sent(brokerTicket))
      ensures if old(state) in {PENDING, APPROVED}
              then AsView() == old(AsView()).(state := SENT, transitions := old(transitions) + [Transition(old(state), SENT)],
                                              ticket := Some(brokerTicket))
              else AsView() == old(AsView())
    {
      var ok := TransitionTo(SENT);
      if ok {
        ticket := Some(brokerTicket);
      }
    }

    method MarkFilled(price: real, volume: real, slip: real, spreadAtFill: real)
      modifies this
      ensures AsView() == Apply(old(AsView()), Filled(price, volume, slip, spreadAtFill))
      ensures if old(state) in {SENT, PARTIAL, RECOVERY_PENDING}
              then AsView() == old(AsView()).(state := FILLED, transitions := old(transitions) + [Transition(old(state), FILLED)],
                                              fillPrice := Some(price), fillVolume := Some(volume), slippage := slip, spread := spreadAtFill)
              else AsView() == old(AsView())
    {
      var ok := TransitionTo(FILLED);
      if ok {
        fillPrice, fillVolume, slippage, spread := Some(price), Some(volume), slip, spreadAtFill;
      }
    }

    method MarkRejected(code: int, message: string)
      modifies this
      ensures AsView() == Apply(old(AsView()), Rejected(code, message))
      ensures if old(state) in {APPROVED, SENT, RECOVERY_PENDING}
              then AsView() == old(AsView()).(state := REJECTED, transitions := old(transitions) + [Transition(old(state), REJECTED)],
                                              errorCode := Some(code), errorMessage := message)
              else AsView() == old(AsView())
    {
      var ok := TransitionTo(REJECTED);
      if ok {
        errorCode, errorMessage := Some(code), message;
      }
    }

    method MarkFailed(message: string)
      modifies this
      ensures AsView() == Apply(old(AsView()), Failed(message))
      ensures if old(state) in {PENDING, APPROVED, SENT, RECOVERY_PENDING}
              then AsView() == old(AsView()).(state := FAILED, transitions := old(transitions) + [Transition(old(state), FAILED)],
                                              errorMessage := message)
              else AsView() == old(AsView())
    {
      var ok := TransitionTo(FAILED);
      if ok {
        errorMessage := message;
      }
    }

    method MarkVerified()
      modifies this
      ensures AsView() == Apply(old(AsView()), Verified)
      ensures AsView() == old(AsView()).(verified := true, attempts := old(attempts) + 1)
    {
      verified := true;
      attempts := attempts + 1;
    }
  }

  /** The table read by its columns: from where each state is reached. */
  lemma ReachedFrom(s: State, to: State)
    ensures to in ValidTransitions(s) <==>
      match to
      case PENDING => s == FAILED
      case APPROVED => s == PENDING
      case SENT => s == PENDING || s == APPROVED
      case PARTIAL => s == SENT
      case FILLED => s == SENT || s == PARTIAL || s == RECOVERY_PENDING
      case REJECTED => s == APPROVED || s == SENT || s == RECOVERY_PENDING
      case FAILED => s == PENDING || s == APPROVED || s == SENT || s == RECOVERY_PENDING
      case CANCELLED => !IsTerminal(s) && s != FAILED
      case RECOVERY_PENDING => false
  {
  }

  // ---------------------------------------------------------------- all call sequences

  function RunOps(v: View, ops: seq<Op>): View {
    if ops == [] then v else Apply(RunOps(v, ops[..|ops| - 1]), ops[|ops| - 1])
  }

  /** The audit list is a chain of table edges leading from `start` to the current state. */
  ghost predicate ChainedPath(start: State, path: seq<Transition>, end: State) {
    && (forall k :: 0 <= k < |path| ==> path[k].to in ValidTransitions(path[k].from))
    && (forall k :: 0 < k < |path| ==> path[k].from == path[k - 1].to)
    && (path != [] ==> path[0].from == start)
    && end == (if path == [] then start else path[|path| - 1].to)
  }

  lemma ExtendPath(start: State, path: seq<Transition>, end: State, to: State)
    requires ChainedPath(start, path, end) && to in ValidTransitions(end)
    ensures ChainedPath(start, path + [Transition(end, to)], to)
  {
    var longer := path + [Transition(end, to)];
    forall k | 0 <= k < |longer| ensures longer[k].to in ValidTransitions(longer[k].from) {
      if k < |path| { assert longer[k] == path[k]; }
    }
    forall k | 0 < k < |longer| ensures longer[k].from == longer[k - 1].to {
      assert longer[k - 1] == path[k - 1];
      if k < |path| { assert longer[k] == path[k]; }
    }
  }

  /** Every operation either leaves state and audit list alone or takes one edge of the table. */
  lemma ApplyIsOneEdge(v: View, op: Op)
    ensures var w := Apply(v, op);
            || (w.state == v.state && w.transitions == v.transitions)
            || (w.state in ValidTransitions(v.state) && w.transitions == v.transitions + [Transition(v.state, w.state)])
  {
  }

  /** Whatever is called in whatever order, the audit list stays a chained path of valid edges
      from the initial state to the current one. */
  lemma {:induction false} AuditIsAPath(v: View, ops: seq<Op>)
    requires v.transitions == []
    ensures ChainedPath(v.state, RunOps(v, ops).transitions, RunOps(v, ops).state)
  {
    if ops != [] {
      var u := RunOps(v, ops[..|ops| - 1]);
      AuditIsAPath(v, ops[..|ops| - 1]);
      ApplyIsOneEdge(u, ops[|ops| - 1]);
      var w := RunOps(v, ops);
      if w.transitions != u.transitions {
        ExtendPath(v.state, u.transitions, u.state, w.state);
      }
    }
  }

  /** FILLED, CANCELLED and REJECTED are absorbing: no call sequence changes anything but the
      verification marks; and no other state is absorbing. */
  lemma {:induction false} TerminalIsAbsorbing(v: View, ops: seq<Op>)
    ensures IsTerminal(v.state) ==>
              RunOps(v, ops) == v.(verified := RunOps(v, ops).verified, attempts := RunOps(v, ops).attempts)
    ensures IsTerminal(v.state) <==> forall op: Op :: Apply(v, op).state == v.state
  {
    if ops != [] {
      TerminalIsAbsorbing(v, ops[..|ops| - 1]);
    }
    if !IsTerminal(v.state) {
      var to := if v.state == PENDING then SENT else if v.state == FAILED then PENDING else CANCELLED;
      assert Apply(v, MoveTo(to)).state == to;
    }
  }

  /** The audit trail shows a move into SENT. */
  predicate WasSent(v: View) { exists k :: 0 <= k < |v.transitions| && v.transitions[k].to == SENT }

  predicate NeedsSent(v: View) { v.state == FILLED || v.state == PARTIAL || v.state == SENT || v.ticket.Some? }

  lemma ApplyNeedsSent(u: View, op: Op)
    requires u.state != RECOVERY_PENDING && (NeedsSent(u) ==> WasSent(u))
    ensures Apply(u, op).state != RECOVERY_PENDING && (NeedsSent(Apply(u, op)) ==> WasSent(Apply(u, op)))
  {
    var w := Apply(u, op);
    assert u.transitions <= w.transitions;
    if WasSent(u) {
      var k :| 0 <= k < |u.transitions| && u.transitions[k].to == SENT;
      assert w.transitions[k].to == SENT;
    } else if w.state == SENT {
      assert w.transitions[|w.transitions| - 1].to == SENT;
    }
  }

  /** A tracker created PENDING is only ever FILLED or PARTIAL after it was SENT, and it holds a
      broker ticket only if it was SENT. */
  lemma {:induction false} FilledWasSent(v: View, ops: seq<Op>)
    requires v.state == PENDING && v.transitions == [] && v.ticket.None?
    ensures RunOps(v, ops).state != RECOVERY_PENDING
    ensures NeedsSent(RunOps(v, ops)) ==> WasSent(RunOps(v, ops))
  {
    if ops != [] {
      FilledWasSent(v, ops[..|ops| - 1]);
      ApplyNeedsSent(RunOps(v, ops[..|ops| - 1]), ops[|ops| - 1]);
    }
  }
}
