/** The registry of trackers with its ticket index (execution/order_state.py). */
module OrderRegistry {
  import opened OrderState
  import opened Wrappers

  /** What the registry reads of a tracker. */
  datatype Entry = Entry(state: State, createdAt: int, ticket: Option<int>)

  type Orders = map<string, Entry>

  /** A ticket of zero counts as none, as the truth test in the source has it. */
  predicate HasTicket(e: Entry) { e.ticket.Some? && e.ticket.value != 0 }

  function TerminalIds(orders: Orders): set<string> { set id | id in orders && IsTerminal(orders[id].state) }

  function TicketsOf(orders: Orders, ids: set<string>): set<int> {
    set id | id in ids && id in orders && HasTicket(orders[id]) :: orders[id].ticket.value
  }

  function Lookup(orders: Orders, byTicket: map<int, string>, ticket: int): Option<string> {
    if ticket in byTicket && byTicket[ticket] != "" && byTicket[ticket] in orders
    then Some(byTicket[ticket]) else None
  }

  /** How many terminal orders a cleanup drops; a negative `maxKeep` slices away all of them. */
  function DropCount(terminal: nat, maxKeep: int): nat {
    if terminal <= maxKeep then 0 else if maxKeep < 0 then terminal else terminal - maxKeep
  }

  /** `removed` is a legitimate choice for a cleanup: the right number of terminal orders, none
      newer than a terminal order that stays. */
  ghost predicate OldestTerminal(orders: Orders, removed: set<string>, maxKeep: int) {
    && removed <= TerminalIds(orders)
    && |removed| == DropCount(|TerminalIds(orders)|, maxKeep)
    && forall r, k :: r in removed && k in TerminalIds(orders) - removed ==> orders[r].createdAt <= orders[k].createdAt
  }

  /** A record of the order table, as read back at start; `loadedAt` is the clock when its tracker is
      made, which is the creation time the tracker keeps. */
  datatype Record = Record(orderId: string, loadedAt: int, ticket: Option<int>,
                           fillPrice: Option<real>, fillVolume: Option<real>)

  class Registry {
    var orders: map<string, OrderTracker>
    var byTicket: map<int, string>

    ghost predicate Valid()
      reads this, orders.Values
    {
      forall id :: id in orders ==> orders[id].orderId == id
    }

    ghost function Snapshot(): Orders
      reads this, orders.Values
    {
      map id | id in orders :: Entry(orders[id].state, orders[id].createdAt, orders[id].ticket)
    }

    constructor ()
      ensures Valid() && orders == map[] && byTicket == map[]
    {
      orders, byTicket := map[], map[];
    }

    method Create(orderId: string, now: int) returns (tracker: OrderTracker)
      requires Valid()
      modifies this
      ensures Valid() && fresh(tracker) && orders == old(orders)[orderId := tracker] && byTicket == old(byTicket)
      ensures Snapshot() == old(Snapshot())[orderId := Entry(PENDING, now, None)]
    {
      tracker := new OrderTracker(orderId, now, PENDING, None, None, None);
      orders := orders[orderId := tracker];
    }

    method RegisterTicket(orderId: string, ticket: int)
      requires Valid()
      modifies this`byTicket
      ensures Valid() && byTicket == old(byTicket)[ticket := orderId]
    {
      byTicket := byTicket[ticket := orderId];
    }

    method GetByTicket(ticket: int) returns (tracker: Option<OrderTracker>)
      requires Valid()
      ensures tracker.Some? <==> Lookup(Snapshot(), byTicket, ticket).Some?
      ensures tracker.Some? ==> tracker.value.orderId == Lookup(Snapshot(), byTicket, ticket).value
      ensures tracker.Some? <==> ticket in byTicket && byTicket[ticket] != "" && byTicket[ticket] in orders
      ensures tracker.Some? ==> tracker.value == orders[byTicket[ticket]]
    {
      if ticket in byTicket && byTicket[ticket] != "" && byTicket[ticket] in orders {
        return Some(orders[byTicket[ticket]]);
      }
      return None;
    }

    /** Every reloaded order waits for recovery; later records win on a shared ticket. */
    method ReloadFromDb(records: seq<Record>) returns (loaded: nat)
      requires Valid()
      modifies this
      ensures Valid() && loaded == |records|
      ensures Snapshot() == Reloaded(old(Snapshot()), records)
      ensures byTicket == ReloadedTickets(old(byTicket), records)
    {
      loaded := 0;
      ghost var before, was := Snapshot(), byTicket;
      hide Reloaded, ReloadedTickets;
      ReloadNothing(before, was);
      while loaded < |records|
        invariant loaded <= |records| && Valid()
        invariant Snapshot() == Reloaded(before, records[..loaded])
        invariant byTicket == ReloadedTickets(was, records[..loaded])
      {
        ReloadStep(before, was, records, loaded);
        var r := records[loaded];
        var tracker := new OrderTracker(r.orderId, r.loadedAt, RECOVERY_PENDING, r.ticket, r.fillPrice, r.fillVolume);
        Index(tracker, if r.ticket.Some? && r.ticket.value != 0 then r.ticket else None);
        loaded := loaded + 1;
      }
      assert records[..|records|] == records;
    }

    method Index(tracker: OrderTracker, ticket: Option<int>)
      requires Valid()
      modifies this
      ensures Valid()
      ensures Snapshot() == old(Snapshot())[tracker.orderId := Entry(tracker.state, tracker.createdAt, tracker.ticket)]
      ensures byTicket == if ticket.Some? then old(byTicket)[ticket.value := tracker.orderId] else old(byTicket)
    {
      orders := orders[tracker.orderId := tracker];
      if ticket.Some? {
        byTicket := byTicket[ticket.value := tracker.orderId];
      }
    }

    method TerminalList() returns (terminal: seq<(string, int)>)
      requires Valid()
      ensures Lists(terminal, Snapshot(), TerminalIds(Snapshot()))
    {
      terminal := [];
      var rest := orders.Keys;
      ghost var seen: set<string> := {};
      while rest != {}
        invariant rest <= orders.Keys && seen == TerminalIds(Snapshot()) - rest
        invariant Lists(terminal, Snapshot(), seen)
        decreases rest
      {
        var id :| id in rest;
        rest := rest - {id};
        var o := orders[id];
        if IsTerminal(o.state) {
          Extend(terminal, Snapshot(), seen, id);
          terminal := terminal + [(o.orderId, o.createdAt)];
          seen := seen + {id};
        }
      }
    }

    /** Drops the oldest terminal orders beyond `maxKeep`, with their index entries. */
    method CleanupTerminal(maxKeep: int) returns (count: nat, ghost removed: set<string>)
      requires Valid()
      modifies this
      ensures Valid()
      ensures OldestTerminal(old(Snapshot()), removed, maxKeep) && count == |removed|
      ensures orders == old(orders) - removed && Snapshot() == old(Snapshot()) - removed
      ensures byTicket == old(byTicket) - TicketsOf(old(Snapshot()), removed)
    {
      removed := {};
      var terminal := TerminalList();
      ListLength(terminal, Snapshot(), TerminalIds(Snapshot()));
      if |terminal| <= maxKeep {
        return 0, {};
      }
      SortKeepsList(terminal, Snapshot(), TerminalIds(Snapshot()));
      terminal := SortByCreated(terminal);
      ListLength(terminal, Snapshot(), TerminalIds(Snapshot()));
      var n := if maxKeep < 0 then |terminal| else |terminal| - maxKeep;
      PrefixIsOldest(Snapshot(), terminal, n);
      removed := Ids(terminal[..n]);
      Remove(terminal[..n]);
      return n, removed;
    }

    method Remove(toRemove: seq<(string, int)>)
      requires Valid() && forall k :: 0 <= k < |toRemove| ==> toRemove[k].0 in orders
      requires forall i, j :: 0 <= i < j < |toRemove| ==> toRemove[i].0 != toRemove[j].0
      modifies this
      ensures Valid()
      ensures orders == old(orders) - Ids(toRemove) && Snapshot() == old(Snapshot()) - Ids(toRemove)
      ensures byTicket == old(byTicket) - TicketsOf(old(Snapshot()), Ids(toRemove))
    {
      ghost var before := Snapshot();
      for i := 0 to |toRemove|
        invariant orders == old(orders) - Ids(toRemove[..i])
        invariant byTicket == old(byTicket) - TicketsOf(before, Ids(toRemove[..i]))
      {
        var id := toRemove[i].0;
        TicketsStep(before, toRemove, i);
        var tracker := orders[id];
        orders := orders - {id};
        if tracker.ticket.Some? && tracker.ticket.value != 0 {
          byTicket := byTicket - {tracker.ticket.value};
        }
      }
      assert toRemove[..|toRemove|] == toRemove;
    }
  }

  lemma TicketsStep(orders: Orders, xs: seq<(string, int)>, i: nat)
    requires i < |xs| && xs[i].0 in orders
    ensures Ids(xs[..i + 1]) == Ids(xs[..i]) + {xs[i].0}
    ensures TicketsOf(orders, Ids(xs[..i + 1])) == TicketsOf(orders, Ids(xs[..i]))
              + if HasTicket(orders[xs[i].0]) then {orders[xs[i].0].ticket.value} else {}
  {
    var front, next := xs[..i], xs[..i + 1];
    assert next == front + [xs[i]];
    assert Ids(next) == Ids(front) + {xs[i].0} by {
      assert next[i].0 in Ids(next);
      forall x | x in Ids(front) ensures x in Ids(next) {
        var k :| 0 <= k < |front| && front[k].0 == x;
        assert next[k].0 == x;
      }
    }
  }

  function Reloaded(orders: Orders, records: seq<Record>): Orders {
    if records == [] then orders
    else
      var r := records[|records| - 1];
      Reloaded(orders, records[..|records| - 1])[r.orderId := Entry(RECOVERY_PENDING, r.loadedAt, r.ticket)]
  }

  function ReloadedTickets(byTicket: map<int, string>, records: seq<Record>): map<int, string> {
    if records == [] then byTicket
    else
      var r := records[|records| - 1];
      var rest := ReloadedTickets(byTicket, records[..|records| - 1]);
      if r.ticket.Some? && r.ticket.value != 0 then rest[r.ticket.value := r.orderId] else rest
  }

  lemma ReloadNothing(orders: Orders, byTicket: map<int, string>)
    ensures Reloaded(orders, []) == orders && ReloadedTickets(byTicket, []) == byTicket
  {
  }

  lemma ReloadStep(orders: Orders, byTicket: map<int, string>, records: seq<Record>, n: nat)
    requires n < |records|
    ensures Reloaded(orders, records[..n + 1]) == Reloaded(orders, records[..n])
              [records[n].orderId := Entry(RECOVERY_PENDING, records[n].loadedAt, records[n].ticket)]
    ensures ReloadedTickets(byTicket, records[..n + 1]) ==
              var rest := ReloadedTickets(byTicket, records[..n]);
              if records[n].ticket.Some? && records[n].ticket.value != 0
              then rest[records[n].ticket.value := records[n].orderId] else rest
  {
    assert records[..n + 1][..n] == records[..n];
  }

  /** After a reload an order is what its last record says, waiting for recovery. */
  lemma {:induction false} ReloadedIsLast(orders: Orders, records: seq<Record>, k: nat)
    requires k < |records| && forall j :: k < j < |records| ==> records[j].orderId != records[k].orderId
    ensures records[k].orderId in Reloaded(orders, records)
    ensures Reloaded(orders, records)[records[k].orderId] == Entry(RECOVERY_PENDING, records[k].loadedAt, records[k].ticket)
  {
    if k < |records| - 1 {
      assert records[|records| - 1].orderId != records[k].orderId;
      ReloadedIsLast(orders, records[..|records| - 1], k);
    }
  }

  /** Orders without a record and tickets without one are as before; zero is no ticket. */
  lemma {:induction false} ReloadedElsewhere(orders: Orders, byTicket: map<int, string>, records: seq<Record>, id: string, ticket: int)
    ensures (forall k :: 0 <= k < |records| ==> records[k].orderId != id) ==>
      (id in Reloaded(orders, records) <==> id in orders) && (id in orders ==> Reloaded(orders, records)[id] == orders[id])
    ensures (forall k :: 0 <= k < |records| ==> ticket == 0 || records[k].ticket != Some(ticket)) ==>
      (ticket in ReloadedTickets(byTicket, records) <==> ticket in byTicket)
      && (ticket in byTicket ==> ReloadedTickets(byTicket, records)[ticket] == byTicket[ticket])
  {
    if records != [] {
      ReloadedElsewhere(orders, byTicket, records[..|records| - 1], id, ticket);
    }
  }

  /** After a reload a ticket leads to the last record that carries it. */
  lemma {:induction false} ReloadedTicketIsLast(byTicket: map<int, string>, records: seq<Record>, k: nat, ticket: int)
    requires k < |records| && ticket != 0 && records[k].ticket == Some(ticket)
    requires forall j :: k < j < |records| ==> records[j].ticket != Some(ticket)
    ensures ticket in ReloadedTickets(byTicket, records) && ReloadedTickets(byTicket, records)[ticket] == records[k].orderId
  {
    if k < |records| - 1 {
      assert records[|records| - 1].ticket != Some(ticket);
      ReloadedTicketIsLast(byTicket, records[..|records| - 1], k, ticket);
    }
  }

  // ---------------------------------------------------------------- sorting by creation time

  function Ids(xs: seq<(string, int)>): set<string> { set k | 0 <= k < |xs| :: xs[k].0 }

  /** `xs` lists the ids of `ids`, each once, with its creation time. */
  ghost predicate Lists(xs: seq<(string, int)>, orders: Orders, ids: set<string>) {
    && Ids(xs) == ids
    && (forall k :: 0 <= k < |xs| ==> xs[k].0 in orders && xs[k].1 == orders[xs[k].0].createdAt)
    && (forall i, j :: 0 <= i < j < |xs| ==> xs[i].0 != xs[j].0)
  }

  ghost predicate Sorted(xs: seq<(string, int)>) { forall i, j :: 0 <= i < j < |xs| ==> xs[i].1 <= xs[j].1 }

  function Insert(x: (string, int), xs: seq<(string, int)>): seq<(string, int)> {
    if xs == [] || x.1 <= xs[0].1 then [x] + xs else [xs[0]] + Insert(x, xs[1..])
  }

  function SortByCreated(xs: seq<(string, int)>): seq<(string, int)> {
    if xs == [] then [] else Insert(xs[0], SortByCreated(xs[1..]))
  }

  lemma Extend(xs: seq<(string, int)>, orders: Orders, ids: set<string>, id: string)
    requires Lists(xs, orders, ids) && id !in ids && id in orders
    ensures Lists(xs + [(id, orders[id].createdAt)], orders, ids + {id})
  {
    var ys := xs + [(id, orders[id].createdAt)];
    assert ys[|xs|].0 == id;
    forall x | x in ids ensures x in Ids(ys) {
      var k :| 0 <= k < |xs| && xs[k].0 == x;
      assert ys[k].0 == x;
    }
  }

  lemma {:induction false} ListLength(xs: seq<(string, int)>, orders: Orders, ids: set<string>)
    requires Lists(xs, orders, ids)
    ensures |xs| == |ids|
  {
    if xs != [] {
      var front, last := xs[..|xs| - 1], xs[|xs| - 1];
      assert xs == front + [last];
      assert last.0 in ids;
      assert Ids(front) == ids - {last.0} by {
        forall x | x in ids && x != last.0 ensures x in Ids(front) {
          var k :| 0 <= k < |xs| && xs[k].0 == x;
          assert front[k].0 == x;
        }
      }
      ListLength(front, orders, ids - {last.0});
    }
  }

  lemma {:induction false} InsertMeaning(x: (string, int), xs: seq<(string, int)>)
    ensures multiset(Insert(x, xs)) == multiset(xs) + multiset{x}
    ensures Sorted(xs) ==> Sorted(Insert(x, xs))
  {
    if xs != [] {
      assert xs == [xs[0]] + xs[1..];
      if x.1 > xs[0].1 {
        InsertMeaning(x, xs[1..]);
        if Sorted(xs) {
          PrependSorted(xs[0], xs[1..], x, Insert(x, xs[1..]));
        }
        hide Sorted;
      }
    }
  }

  lemma PrependSorted(head: (string, int), xs: seq<(string, int)>, x: (string, int), tail: seq<(string, int)>)
    requires Sorted(tail) && multiset(tail) == multiset(xs) + multiset{x}
    requires head.1 <= x.1 && forall k :: 0 <= k < |xs| ==> head.1 <= xs[k].1
    ensures Sorted([head] + tail)
  {
    forall k | 0 <= k < |tail| ensures head.1 <= tail[k].1 {
      assert tail[k] in multiset(tail);
    }
  }

  lemma SortedTrivially()
    ensures Sorted([])
  {
  }

  lemma {:induction false} SortMeaning(xs: seq<(string, int)>)
    ensures Sorted(SortByCreated(xs)) && multiset(SortByCreated(xs)) == multiset(xs)
  {
    hide Sorted, Insert;
    if xs == [] {
      SortedTrivially();
    } else {
      SortMeaning(xs[1..]);
      InsertMeaning(xs[0], SortByCreated(xs[1..]));
      assert xs == [xs[0]] + xs[1..];
    }
  }

  lemma {:induction false} ListMultiset(xs: seq<(string, int)>, orders: Orders, ids: set<string>)
    requires Lists(xs, orders, ids)
    ensures forall p :: multiset(xs)[p] <= 1
    ensures forall p :: p in multiset(xs) <==> p.0 in ids && p.0 in orders && p.1 == orders[p.0].createdAt
  {
    if xs != [] {
      var front, last := xs[..|xs| - 1], xs[|xs| - 1];
      assert xs == front + [last];
      assert Lists(front, orders, Ids(front));
      ListMultiset(front, orders, Ids(front));
      assert last !in multiset(front);
      forall p ensures p in multiset(xs) <==> p.0 in ids && p.0 in orders && p.1 == orders[p.0].createdAt {
        if p.0 in ids {
          var k :| 0 <= k < |xs| && xs[k].0 == p.0;
          if k < |front| { assert front[k].0 == p.0; }
        }
        if p in multiset(front) { assert p.0 in Ids(front); }
      }
    }
  }

  lemma OnceMeansDistinct(ys: seq<(string, int)>, i: nat, j: nat)
    requires forall p :: multiset(ys)[p] <= 1
    requires i < j < |ys|
    ensures ys[i] != ys[j]
  {
    var a, b := ys[..j], ys[j..];
    assert ys == a + b;
    assert b[0] in multiset(b);
    assert multiset(ys)[ys[j]] == multiset(a)[ys[j]] + multiset(b)[ys[j]];
    assert a[i] in multiset(a);
  }

  lemma SameEntriesSameList(xs: seq<(string, int)>, ys: seq<(string, int)>, orders: Orders, ids: set<string>)
    requires Lists(xs, orders, ids) && multiset(ys) == multiset(xs)
    requires forall i, j :: 0 <= i < j < |ys| ==> ys[i] != ys[j]
    ensures Lists(ys, orders, ids)
  {
    forall k | 0 <= k < |ys| ensures ys[k].0 in ids && ys[k].0 in orders && ys[k].1 == orders[ys[k].0].createdAt {
      assert ys[k] in multiset(ys);
      var m :| 0 <= m < |xs| && xs[m] == ys[k];
      assert xs[m].0 in Ids(xs);
    }
    forall x | x in ids ensures x in Ids(ys) {
      var k :| 0 <= k < |xs| && xs[k].0 == x;
      assert xs[k] in multiset(xs);
      var m :| 0 <= m < |ys| && ys[m] == xs[k];
      assert ys[m].0 == x;
    }
  }

  lemma SortKeepsList(xs: seq<(string, int)>, orders: Orders, ids: set<string>)
    requires Lists(xs, orders, ids)
    ensures Lists(SortByCreated(xs), orders, ids) && Sorted(SortByCreated(xs))
  {
    SortMeaning(xs);
    ListMultiset(xs, orders, ids);
    var ys := SortByCreated(xs);
    forall i, j | 0 <= i < j < |ys| ensures ys[i] != ys[j] {
      OnceMeansDistinct(ys, i, j);
    }
    SameEntriesSameList(xs, ys, orders, ids);
  }

  lemma PrefixIsOldest(orders: Orders, sorted: seq<(string, int)>, n: nat)
    requires Lists(sorted, orders, TerminalIds(orders)) && Sorted(sorted) && n <= |sorted|
    ensures Ids(sorted[..n]) <= TerminalIds(orders) && |Ids(sorted[..n])| == n
    ensures forall r, k :: r in Ids(sorted[..n]) && k in TerminalIds(orders) - Ids(sorted[..n]) ==>
              orders[r].createdAt <= orders[k].createdAt
  {
    var cut := sorted[..n];
    assert Lists(cut, orders, Ids(cut));
    ListLength(cut, orders, Ids(cut));
    assert forall m :: 0 <= m < n ==> sorted[m] == cut[m] && cut[m].0 in Ids(cut);
    forall r, k | r in Ids(cut) && k in TerminalIds(orders) - Ids(cut)
      ensures orders[r].createdAt <= orders[k].createdAt
    {
      var i :| 0 <= i < |cut| && cut[i].0 == r;
      var j :| 0 <= j < |sorted| && sorted[j].0 == k;
      assert sorted[i] == cut[i];
    }
  }

  // ---------------------------------------------------------------- what a cleanup keeps

  /** Looking a ticket up after a cleanup: a removed order is never found, every order that is
      still there is found as before, except through a ticket that a removed order also held. */
  lemma LookupAfterCleanup(orders: Orders, byTicket: map<int, string>, removed: set<string>, ticket: int)
    ensures var before := Lookup(orders, byTicket, ticket);
            var after := Lookup(orders - removed, byTicket - TicketsOf(orders, removed), ticket);
            && (after.Some? ==> after.value !in removed && after.value in orders)
            && (before.Some? && before.value !in removed ==>
                  (after == before <==>
                     !exists id :: id in removed && id in orders && ticket != 0 && orders[id].ticket == Some(ticket)))
            && (before.None? ==> after.None?)
  {
  }

  /** With tickets unique to their orders (and index entries pointing at the holder), survivors
      are found exactly as before. */
  lemma UniqueTicketsSurvive(orders: Orders, byTicket: map<int, string>, removed: set<string>, ticket: int)
    requires forall id, t :: id in orders && t != 0 && orders[id].ticket == Some(t) && t in byTicket ==> byTicket[t] == id
    requires Lookup(orders, byTicket, ticket).Some? && Lookup(orders, byTicket, ticket).value !in removed
    ensures Lookup(orders - removed, byTicket - TicketsOf(orders, removed), ticket) == Lookup(orders, byTicket, ticket)
  {
  }

  /** A cleanup never touches an order that is not terminal. */
  lemma ActiveOrdersStay(orders: Orders, removed: set<string>, maxKeep: int)
    requires OldestTerminal(orders, removed, maxKeep)
    ensures forall id :: id in orders && !IsTerminal(orders[id].state) ==> id in orders - removed
    ensures |TerminalIds(orders - removed)| == |TerminalIds(orders)| - |removed|
    ensures |TerminalIds(orders - removed)| == if maxKeep < 0 then 0 else if |TerminalIds(orders)| <= maxKeep then |TerminalIds(orders)| else maxKeep
  {
    assert TerminalIds(orders - removed) == TerminalIds(orders) - removed;
    assert removed <= TerminalIds(orders) && |removed| == DropCount(|TerminalIds(orders)|, maxKeep);
    forall id | id in orders && !IsTerminal(orders[id].state) ensures id in orders - removed {
      assert id !in TerminalIds(orders);
    }
    hide OldestTerminal, TerminalIds;
  }
}
