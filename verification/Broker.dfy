/** Broker positions as the startup checks read them. */
module Broker {
  datatype Position = Position(ticket: nat, symbol: string, price: real, volume: real, stopLoss: real, takeProfit: real)

  /** The ticket index of a position list; a later position replaces an earlier one. */
  function ByTicket(ps: seq<Position>): map<nat, Position> {
    if ps == [] then map[] else ByTicket(ps[..|ps| - 1])[ps[|ps| - 1].ticket := ps[|ps| - 1]]
  }

  /** The keys of that index in the order they were first inserted. */
  function Tickets(ps: seq<Position>): seq<nat> {
    if ps == [] then []
    else
      var rest, t := Tickets(ps[..|ps| - 1]), ps[|ps| - 1].ticket;
      if t in rest then rest else rest + [t]
  }

  lemma {:induction false} TicketsAreKeys(ps: seq<Position>)
    ensures forall t :: t in Tickets(ps) <==> t in ByTicket(ps)
    ensures forall t :: t in ByTicket(ps) <==> exists k :: 0 <= k < |ps| && ps[k].ticket == t
    ensures forall t :: t in ByTicket(ps) ==> ByTicket(ps)[t].ticket == t
    ensures forall i, j :: 0 <= i < j < |Tickets(ps)| ==> Tickets(ps)[i] != Tickets(ps)[j]
  {
    if ps != [] {
      var front, last := ps[..|ps| - 1], ps[|ps| - 1];
      TicketsAreKeys(front);
      forall t ensures t in ByTicket(ps) <==> exists k :: 0 <= k < |ps| && ps[k].ticket == t {
        if t in ByTicket(front) {
          var k :| 0 <= k < |front| && front[k].ticket == t;
          assert ps[k].ticket == t;
        }
        if k :| 0 <= k < |ps| && ps[k].ticket == t && k < |front| {
          assert front[k].ticket == t;
        }
      }
    }
  }

  /** Position `k` is the last in the list with its ticket. */
  predicate LastOfTicket(ps: seq<Position>, k: nat) {
    k < |ps| && forall j :: k < j < |ps| ==> ps[j].ticket != ps[k].ticket
  }

  /** The index holds, under each ticket, the last position listed with it. */
  lemma {:induction false} ByTicketIsLast(ps: seq<Position>, k: nat)
    requires LastOfTicket(ps, k)
    ensures ps[k].ticket in ByTicket(ps) && ByTicket(ps)[ps[k].ticket] == ps[k]
  {
    if k < |ps| - 1 {
      assert ps[|ps| - 1].ticket != ps[k].ticket;
      ByTicketIsLast(ps[..|ps| - 1], k);
    }
  }
}
