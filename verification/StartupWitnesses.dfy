/** Concrete startups that go ahead over a trade row nobody can account for. */
module StartupWitnesses {
  import opened Broker
  import opened Enumeration
  import opened OrderState
  import opened Startup
  import opened Wrappers
  import Protocol
  import Recovery
  import Reconciler

  function Pending(ticket: Option<nat>): Reconciler.Row {
    Reconciler.Row(Protocol.Trade(Protocol.TradePending, ticket, "c", "i", 0), "EURUSD", None, None, None)
  }

  /** One PENDING row of instance "i", opened at time 0, without a position. */
  function LostRow(): Reconciler.Table { map[1 := Pending(None)] }

  lemma RowIsLost()
    ensures Reconciler.AnyLostPending(LostRow(), ByTicket([]), "i", 1000)
  {
    assert 1 in LostRow() && Reconciler.IsStaleRow(LostRow()[1], "i", 1000) && !Reconciler.AtBroker(LostRow()[1], ByTicket([]));
  }

  /** The query for stale rows fails: the lost row is old, yet the start goes ahead. */
  method UnreadableRowLetsStart() returns (started: bool)
    ensures Reconciler.AnyLostPending(LostRow(), ByTicket([]), "i", 1000) && started
  {
    RowIsLost();
    var a := Answers(true, Ok([]), Ok([]), true, Reconciler.Unreadable);
    ghost var seen;
    started, seen := StartLive("i", 1000, map[], LostRow(), a, false, false);
  }

  /** An execution of "i" that stopped after its approval, with the lost row. */
  function StoppedOrder(): Recovery.Table {
    map[0 := Recovery.Row(Protocol.Order(APPROVED, None, "c", "i"), None, None, Recovery.NoNote)]
  }

  /** Every query is answered: the start of "i" is refused, the start of a fresh "j" on the same
      tables goes ahead. */
  method FreshIdLetsStart() returns (same: bool, other: bool)
    ensures !same && other
  {
    var a := Answers(true, Ok([]), Ok([]), true, Reconciler.Readable(_ => true));
    var orders, trades := StoppedOrder(), LostRow();
    ghost var seen, unseen;
    assert 0 in Recovery.SelectedIds(orders, "i") && Recovery.Match(orders[0], ByTicket([])).None?;
    assert RecoveryBlocks(orders, "i", a.brokerForRecovery);
    same, seen := StartLive("i", 1000, orders, trades, a, false, false);
    assert Recovery.SelectedIds(orders, "j") == {};
    assert !RecoveryBlocks(orders, "j", a.brokerForRecovery);
    other, unseen := StartLive("j", 1000, orders, trades, a, false, false);
    FreshIdSeesOnlyPositions("j", 1000, orders, trades, a, unseen);
  }

  /** A stale row whose ticket is open and recorded, a lost row behind it, and the OPEN row. */
  function BlockedPass(): Reconciler.Table {
    map[1 := Pending(Some(5)), 2 := Pending(None),
        3 := Pending(Some(5)).(trade := Pending(Some(5)).trade.(outcome := Protocol.TradeOpen))]
  }

  function Five(): seq<Position> { [Position(5, "EURUSD", 1.0, 0.0, 0.0, 0.0)] }

  function Enumerated(): Reconciler.Orders { Reconciler.Orders([3], [5], [5], [1, 2]) }

  const NoFlush: Reconciler.PendingQuery := Reconciler.Readable(_ => false)

  /** The flush behind the first promotion fails: the pass ends there, and the report is clean
      although the row behind it is lost. */
  lemma FailedFlushHidesLostRow()
    ensures Reconciler.FairOrders(BlockedPass(), Five(), Enumerated(), "i", 1000)
    ensures Reconciler.Seen(BlockedPass(), [1, 2], ByTicket(Five()), NoFlush) == 1
    ensures Reconciler.AnyLostPending(BlockedPass(), ByTicket(Five()), "i", 1000)
    ensures var o := Enumerated();
            !Reconciler.HasCritical(Reconciler.Findings(BlockedPass(), Five(), o.(stale := o.stale[..1]), 0.01, 0.001))
  {
    IndexesOfPass();
    PassIsFair();
    PassHalts();
    hide Reconciler.FairOrders, Reconciler.Findings, Reconciler.HasCritical, Reconciler.AnyOrphan, Reconciler.LostAmong;
    Reconciler.CriticalIff(BlockedPass(), Five(), Enumerated(), "i", 1000, 0.01, 0.001, 1);
    NothingSeenIsWrong();
  }

  lemma PassIsFair()
    ensures Reconciler.FairOrders(BlockedPass(), Five(), Enumerated(), "i", 1000)
  {
    var t := BlockedPass();
    IndexesOfPass();
    assert Reconciler.OpenIds(t, "i") == {3} && Reconciler.StaleIds(t, "i", 1000) == {1, 2};
    assert ByTicket(Five()).Keys * Reconciler.OpenByTicket(t, [3]).Keys == {5};
    hide Reconciler.OpenByTicket, ByTicket;
  }

  lemma PassHalts()
    ensures Reconciler.Seen(BlockedPass(), [1, 2], ByTicket(Five()), NoFlush) == 1
    ensures Reconciler.AnyLostPending(BlockedPass(), ByTicket(Five()), "i", 1000)
  {
    var t, broker := BlockedPass(), ByTicket(Five());
    IndexesOfPass();
    assert [1, 2][..1] == [1] && [1][..0] == [];
    assert Reconciler.Halts(t, [1], broker, NoFlush);
    assert Reconciler.Seen(t, [], broker, NoFlush) == 0 && Reconciler.Seen(t, [1], broker, NoFlush) == 1;
    assert Reconciler.IsStaleRow(t[2], "i", 1000) && !Reconciler.AtBroker(t[2], broker);
  }

  lemma NothingSeenIsWrong()
    ensures !Reconciler.AnyOrphan(BlockedPass(), ByTicket(Five()), "i")
    ensures !Reconciler.LostAmong(BlockedPass(), [1, 2][..1], ByTicket(Five()))
  {
    var t := BlockedPass();
    IndexesOfPass();
    assert [1, 2][..1] == [1];
    assert 3 in t && Reconciler.IsOpenRow(t[3], "i") && Reconciler.RowTicket(t[3]) == 5;
  }

  lemma IndexesOfPass()
    ensures ByTicket(Five()) == map[5 := Five()[0]]
    ensures Reconciler.OpenByTicket(BlockedPass(), [3]) == map[5 := BlockedPass()[3]]
  {
    assert Five()[..0] == [] && [3][..0] == [];
  }
}
