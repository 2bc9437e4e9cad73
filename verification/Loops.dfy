/** What the settlement loops of release, confirm and cleanup come to: a loop over the listing of an
    order settles what the call picks of it, row after row, and the rows together are the effects
    that `Calls.Does` allows. */
module Loops {
  import opened Stock
  import opened Tables
  import opened Plans
  import opened Calls

  /** The call ran to its end with effects `es`. */
  ghost predicate Did(t: Tables, ms: seq<Movement>, call: Call, es: seq<Event>, t': Tables, ms': seq<Movement>) {
    Does(t, call, es) && t' == ApplyAll(t, es) && ms' == ms + LoggedAll(es)
  }

  /** Whether `inventory.stock.low` is due for a row. */
  predicate IsLow(r: Row) {
    GoAvailable(r) < r.safety
  }

  /** Likewise for a confirmation, which also publishes alerts. */
  ghost predicate DidConfirm(t: Tables, ms: seq<Movement>, alerts: seq<Cell>, order: string, es: seq<Event>, t': Tables, ms': seq<Movement>, alerts': seq<Cell>) {
    Did(t, ms, Call.ConfirmStock(order), es, t', ms') && alerts' == alerts + LowCells(t, es)
  }

  /** The cells a confirmation with effects `es` reports: one report for each reservation settled on
      a cell that was below its safety level before the call. */
  function LowCells(t: Tables, es: seq<Event>): seq<Cell> {
    if es == [] then []
    else
      var e := es[|es| - 1];
      LowCells(t, es[..|es| - 1]) + if IsLow(RowAt(t, e.Where())) then [e.Where()] else []
  }

  lemma LowCellsOneMore(t: Tables, es: seq<Event>, e: Event)
    ensures LowCells(t, es + [e]) == LowCells(t, es) + if IsLow(RowAt(t, e.Where())) then [e.Where()] else []
  {
    assert (es + [e])[..|es|] == es;
  }

  /** Deducting never changes what is available, so the check after the deduction is the check before it. */
  lemma DeductionKeepsLow(t: Tables, es: seq<Event>, c: Cell)
    requires Sound(t) && Listed(t.reservations, es, Confirming) && c in t.stocks
    ensures IsLow(RowAt(ApplyAll(t, es), c)) <==> IsLow(RowAt(t, c))
  {
    PlanIsLegal(t, es, Confirming);
    LegalRunKeepsInvariants(t, [], es);
    PlanOnStocks(t, es, Confirming, c);
    AvailableIsExact(t.stocks[c]);
    AvailableIsExact(RowAt(ApplyAll(t, es), c));
  }

  // ---------------------------------------------------------------- settlement loops

  /** `rows` are the rows of order `o`, in some order. */
  ghost predicate IsListing(m: map<Id, Reservation>, o: string, rows: seq<(Id, Reservation)>) {
    && (forall i :: 0 <= i < |rows| ==> rows[i].0 in m && m[rows[i].0] == rows[i].1 && rows[i].1.order == o)
    && (forall i, j :: 0 <= i < j < |rows| ==> rows[i].0 != rows[j].0)
    && (forall id :: id in m && m[id].order == o ==> exists i :: 0 <= i < |rows| && rows[i].0 == id)
  }

  /** The effects of a settlement loop over `rows`: it skips what the call does not pick. */
  function Chosen(call: Call, rows: seq<(Id, Reservation)>): seq<Event> {
    if rows == [] then []
    else
      var (id, v) := rows[|rows| - 1];
      Chosen(call, rows[..|rows| - 1]) + if call.Picks(v) then [Settle(id, v, call.How())] else []
  }

  lemma ChosenNext(call: Call, rows: seq<(Id, Reservation)>, n: nat)
    requires n < |rows|
    ensures Chosen(call, rows[..n + 1]) ==
            Chosen(call, rows[..n]) + if call.Picks(rows[n].1) then [Settle(rows[n].0, rows[n].1, call.How())] else []
  {
    assert rows[..n + 1][..n] == rows[..n];
  }

  lemma ChosenSkips(call: Call, rows: seq<(Id, Reservation)>, n: nat)
    requires n < |rows| && !call.Picks(rows[n].1)
    ensures Chosen(call, rows[..n + 1]) == Chosen(call, rows[..n])
  {
    ChosenNext(call, rows, n);
  }

  /** A loop that began on `t` and `ms` has been through `rows`. */
  ghost predicate Looped(t: Tables, ms: seq<Movement>, call: Call, rows: seq<(Id, Reservation)>, t': Tables, ms': seq<Movement>) {
    t' == ApplyAll(t, Chosen(call, rows)) && ms' == ms + LoggedAll(Chosen(call, rows))
  }

  lemma LoopStarts(t: Tables, ms: seq<Movement>, call: Call, rows: seq<(Id, Reservation)>)
    ensures Looped(t, ms, call, rows[..0], t, ms)
  {
    assert ms + LoggedAll([]) == ms;
  }

  lemma {:induction false} ChosenPrefix(call: Call, rows: seq<(Id, Reservation)>, n: nat)
    requires n <= |rows|
    ensures Chosen(call, rows[..n]) <= Chosen(call, rows)
    decreases |rows|
  {
    if n < |rows| {
      var front := rows[..|rows| - 1];
      ChosenPrefix(call, front, n);
      assert front[..n] == rows[..n];
    } else {
      assert rows[..n] == rows;
    }
  }

  /** Every row of the loop, together with what came before it, is part of the plan. */
  lemma ChosenIsListed(m: map<Id, Reservation>, call: Call, before: seq<Event>, rows: seq<(Id, Reservation)>, n: nat)
    requires Listed(m, before + Chosen(call, rows), call.How()) && n < |rows| && call.Picks(rows[n].1)
    ensures Listed(m, before + Chosen(call, rows[..n]) + [Settle(rows[n].0, rows[n].1, call.How())], call.How())
  {
    ChosenNext(call, rows, n);
    ChosenPrefix(call, rows, n + 1);
    var all := before + Chosen(call, rows);
    var some := before + Chosen(call, rows[..n]) + [Settle(rows[n].0, rows[n].1, call.How())];
    assert some == before + Chosen(call, rows[..n + 1]);
    assert some == all[..|some|];
    ListedPrefix(m, all, call.How(), |some|);
  }

  /** The same at the head of a plan. */
  lemma ChosenAdds(m: map<Id, Reservation>, call: Call, rows: seq<(Id, Reservation)>, n: nat)
    requires Listed(m, Chosen(call, rows), call.How()) && n < |rows| && call.Picks(rows[n].1)
    ensures Chosen(call, rows[..n + 1]) == Chosen(call, rows[..n]) + [Settle(rows[n].0, rows[n].1, call.How())]
    ensures Listed(m, Chosen(call, rows[..n + 1]), call.How())
  {
    ChosenNext(call, rows, n);
    ChosenPrefix(call, rows, n + 1);
    ListedPrefix(m, Chosen(call, rows), call.How(), |Chosen(call, rows[..n + 1])|);
  }

  lemma {:induction false} ChosenFrom(m: map<Id, Reservation>, call: Call, o: string, rows: seq<(Id, Reservation)>)
    requires forall i :: 0 <= i < |rows| ==> rows[i].0 in m && m[rows[i].0] == rows[i].1 && rows[i].1.order == o
    requires forall i, j :: 0 <= i < j < |rows| ==> rows[i].0 != rows[j].0
    ensures Listed(m, Chosen(call, rows), call.How())
    ensures forall e :: e in Chosen(call, rows) ==> e.Settle? && call.Picks(e.row) && e.row.order == o
    ensures forall e :: e in Chosen(call, rows) ==> exists i :: 0 <= i < |rows| && rows[i].0 == e.id
    decreases |rows|
  {
    if rows != [] {
      var n := |rows| - 1;
      var es := Chosen(call, rows[..n]);
      ChosenFrom(m, call, o, rows[..n]);
      assert forall i :: 0 <= i < |es| ==> es[i] in es;
      forall e | e in es ensures exists i :: 0 <= i < |rows| && rows[i].0 == e.id {
        var i :| 0 <= i < n && rows[..n][i].0 == e.id;
        assert rows[i].0 == e.id;
      }
    }
  }

  lemma {:induction false} ChosenIds(call: Call, rows: seq<(Id, Reservation)>)
    ensures forall i :: 0 <= i < |rows| && call.Picks(rows[i].1) ==> rows[i].0 in Ids(Chosen(call, rows))
    decreases |rows|
  {
    if rows != [] {
      var n := |rows| - 1;
      var es, v := Chosen(call, rows[..n]), rows[n].1;
      ChosenIds(call, rows[..n]);
      if call.Picks(v) {
        IdsOneMore(es, Settle(rows[n].0, v, call.How()));
        assert Chosen(call, rows) == es + [Settle(rows[n].0, v, call.How())];
      } else {
        assert Chosen(call, rows) == es;
      }
      forall i | 0 <= i < n && call.Picks(rows[i].1) ensures rows[i].0 in Ids(es) {
        assert rows[..n][i] == rows[i];
      }
    }
  }

  /** The loop over a whole listing settles what the call picks of that order, and no more. */
  lemma ListingIsPlanned(m: map<Id, Reservation>, call: Call, o: string, rows: seq<(Id, Reservation)>)
    requires IsListing(m, o, rows)
    ensures Listed(m, Chosen(call, rows), call.How())
    ensures forall e :: e in Chosen(call, rows) ==> e.Settle? && call.Picks(e.row) && e.row.order == o
    ensures forall id :: id in m && m[id].order == o && call.Picks(m[id]) ==> id in Ids(Chosen(call, rows))
  {
    ChosenFrom(m, call, o, rows);
    ChosenIds(call, rows);
    forall id | id in m && m[id].order == o && call.Picks(m[id]) ensures id in Ids(Chosen(call, rows)) {
      var i :| 0 <= i < |rows| && rows[i].0 == id;
    }
  }

  /** The next row of the loop: it is there, its cell covers it, and what the Go code writes back is
      the exact effect. */
  lemma RowIsSettledExactly(t: Tables, call: Call, es: seq<Event>, id: Id, v: Reservation)
    requires Sound(t) && Listed(t.reservations, es + [Settle(id, v, call.How())], call.How())
    ensures var u := ApplyAll(t, es);
            var e := Settle(id, v, call.How());
            && v.cell in u.stocks
            && InBounds(u.stocks[v.cell])
            && id in u.reservations && u.reservations[id] == v
            && GoStep(u.stocks[v.cell], e) == Bump(u.stocks[v.cell], e)
            && Check(GoStep(u.stocks[v.cell], e))
  {
    var e := Settle(id, v, call.How());
    NextOfPlan(t, es, e, call.How());
    ClampIsIdleExactlyWhenCovered(ApplyAll(t, es).stocks[v.cell], v.qty);
  }

  lemma ApplyWritten(u: Tables, e: Event)
    requires e.Where() in u.stocks && GoStep(u.stocks[e.Where()], e) == Bump(u.stocks[e.Where()], e)
    ensures Tables(u.stocks[e.Where() := GoStep(u.stocks[e.Where()], e)], Rewrite(u.reservations, e)) == Apply(u, e)
  {
  }

  /** One turn of a settlement loop takes the tables from the effects so far to the effects with this row. */
  lemma Turn(t: Tables, call: Call, es: seq<Event>, id: Id, v: Reservation)
    requires Sound(t) && Listed(t.reservations, es + [Settle(id, v, call.How())], call.How())
    ensures var e := Settle(id, v, call.How());
            var u := ApplyAll(t, es);
            && v.cell in u.stocks && Check(GoStep(u.stocks[v.cell], e))
            && Tables(u.stocks[v.cell := GoStep(u.stocks[v.cell], e)], Rewrite(u.reservations, e)) == ApplyAll(t, es + [e])
            && LoggedAll(es + [e]) == LoggedAll(es) + Logged(e)
  {
    RowIsSettledExactly(t, call, es, id, v);
    ApplyWritten(ApplyAll(t, es), Settle(id, v, call.How()));
    ApplyOneMore(t, es, Settle(id, v, call.How()));
  }

  /** Whether the row just settled raises an alert is decided by the tables before the call. */
  lemma AlertTurn(t: Tables, es: seq<Event>, id: Id, v: Reservation, low: bool)
    requires Sound(t) && Listed(t.reservations, es + [Settle(id, v, Confirming)], Confirming)
    requires low == IsLow(RowAt(ApplyAll(t, es + [Settle(id, v, Confirming)]), v.cell))
    ensures LowCells(t, es + [Settle(id, v, Confirming)]) == LowCells(t, es) + if low then [v.cell] else []
  {
    var e := Settle(id, v, Confirming);
    assert (es + [e])[|es|] == e;
    CounterCoversReservation(t, id);
    LowCellsOneMore(t, es, e);
    DeductionKeepsLow(t, es + [e], v.cell);
  }

  /** The `int64` count of a loop over one order is the wrapped sum. */
  lemma CountTurn(count: int, es: seq<Event>, e: Event, o: string)
    requires e.Settle? && e.row.order == o && e.row.status == Reserved
    requires count == Counted(es, o)
    ensures Wrap(count + e.row.qty) == Counted(es + [e], o)
  {
    PlannedOneMore(es, e, AllOfOrder(o));
    WrapSum(Planned(es, AllOfOrder(o)), e.row.qty);
  }

  lemma CountNext(call: Call, rows: seq<(Id, Reservation)>, n: nat, o: string, count: int)
    requires n < |rows| && call.Picks(rows[n].1) && rows[n].1.order == o
    requires count == Counted(Chosen(call, rows[..n]), o)
    ensures Wrap(count + rows[n].1.qty) == Counted(Chosen(call, rows[..n + 1]), o)
  {
    ChosenNext(call, rows, n);
    CountTurn(count, Chosen(call, rows[..n]), Settle(rows[n].0, rows[n].1, call.How()), o);
  }

  /** Release and confirm have one order to deal with. */
  lemma OneOrderDone(m: map<Id, Reservation>, call: Call, rows: seq<(Id, Reservation)>)
    requires (call.ReleaseStock? || call.ConfirmStock?) && IsListing(m, call.order, rows)
    ensures Enumerates(m, call, Chosen(call, rows))
  {
    ListingIsPlanned(m, call, call.order, rows);
  }

  /** The count of an order's live quantity, exact exactly when an `int64` holds it. */
  ghost predicate IsCount(m: map<Id, Reservation>, o: string, count: int) {
    var held := Held(m, AllOfOrder(o));
    count == Wrap(held) && (count == held <==> held <= MAX_INT64)
  }

  lemma OneOrderMeaning(t: Tables, ms: seq<Movement>, nextId: Id, call: Call, es: seq<Event>)
    requires Consistent(t, ms, nextId) && (call.ReleaseStock? || call.ConfirmStock?) && Does(t, call, es)
    ensures Consistent(ApplyAll(t, es), ms + LoggedAll(es), nextId)
    ensures SettledTables(t, call, ApplyAll(t, es))
    ensures call.ConfirmStock? ==> SameAvailability(t, ApplyAll(t, es))
    ensures IsCount(t.reservations, call.order, Counted(es, call.order))
  {
    SettlementMeaning(t, call, es);
    CountIsExactWhenItFits(t, call, es);
    SettlingStaysConsistent(t, ms, nextId, call, es);
    if call.ConfirmStock? {
      LoweredIsAsAvailable(t, call, ApplyAll(t, es));
    }
  }

  /** Confirming lowers both counters alike. */
  lemma LoweredIsAsAvailable(t: Tables, call: Call, t': Tables)
    requires call.ConfirmStock? && SettledTables(t, call, t')
    ensures SameAvailability(t, t')
  {
  }

  ghost predicate SameAvailability(t: Tables, t': Tables) {
    forall c :: c in t.stocks ==> c in t'.stocks && Available(t'.stocks[c]) == Available(t.stocks[c])
  }

  // ---------------------------------------------------------------- the loops of cleanup

  /** What ListExpiredReservations selects. */
  predicate IsExpired(v: Reservation, now: int) {
    v.status == Reserved && v.expiry <= now
  }

  /** Exactly the orders with a reservation that the first listing selects. */
  ghost predicate AreExpired(m: map<Id, Reservation>, now: int, orders: seq<string>) {
    && (forall id :: id in m && IsExpired(m[id], now) ==> m[id].order in orders)
    && (forall o :: o in orders ==> exists id :: id in m && IsExpired(m[id], now) && m[id].order == o)
  }

  /** The live reservations a cleanup at `now` removes. */
  function DueIds(t: Tables, now: int): set<Id> {
    set id | id in t.reservations && t.reservations[id].status == Reserved && IsDue(t.reservations[id].expiry, now)
  }

  /** The tables after a cleanup, said without its listing, locks and loops. */
  ghost predicate Swept(t: Tables, now: int, t': Tables) {
    && t'.stocks.Keys == t.stocks.Keys
    && (forall c :: c in t.stocks ==>
          t'.stocks[c] == t.stocks[c].(reserved := t.stocks[c].reserved - Held(t.reservations, Due(now, c))))
    && t'.reservations == map id | id in t.reservations && id !in DueIds(t, now) :: t.reservations[id]
  }

  /** A second cleanup at the same time finds nothing to do. */
  lemma SweptOnce(t: Tables, now: int, t': Tables)
    requires Swept(t, now, t')
    ensures DueIds(t', now) == {}
  {
    forall id | id in t'.reservations ensures id !in DueIds(t', now) {
      assert t'.reservations[id] == t.reservations[id];
    }
  }

  /** A cleanup on `t` has settled, with `es`, what is due of the first `k` of its orders. */
  ghost predicate PartlySwept(t: Tables, call: Call, es: seq<Event>, k: nat)
    requires call.Cleanup?
  {
    && k <= |call.orders|
    && Listed(t.reservations, es, Expiring)
    && (forall e :: e in es ==> e.Settle? && call.Picks(e.row) && e.row.order in call.orders[..k])
    && (forall id :: id in t.reservations && call.Picks(t.reservations[id]) && t.reservations[id].order in call.orders[..k] ==> id in Ids(es))
  }

  /** A listing made after part of the work lists what the tables held of that order at the start. */
  lemma ListingIsOriginal(t: Tables, call: Call, es: seq<Event>, k: nat, rows: seq<(Id, Reservation)>)
    requires call.Cleanup? && k < |call.orders| && PartlySwept(t, call, es, k) && call.orders[k] !in call.orders[..k]
    requires IsListing(ApplyAll(t, es).reservations, call.orders[k], rows)
    ensures IsListing(t.reservations, call.orders[k], rows)
  {
    PlanOnReservations(t, es, Expiring);
    IdsAreSettled(es);
    forall id | id in Ids(es) ensures id in t.reservations && t.reservations[id].order in call.orders[..k] {
      var e :| e in es && e.Settle? && e.id == id;
      var i :| 0 <= i < |es| && es[i] == e;
    }
  }

  /** One more order: the plan so far and the loop over its listing make the plan of one order more. */
  lemma SweepNext(t: Tables, call: Call, es: seq<Event>, k: nat, rows: seq<(Id, Reservation)>)
    requires call.Cleanup? && k < |call.orders| && PartlySwept(t, call, es, k) && call.orders[k] !in call.orders[..k]
    requires IsListing(t.reservations, call.orders[k], rows)
    ensures PartlySwept(t, call, es + Chosen(call, rows), k + 1)
  {
    var o, more := call.orders[k], Chosen(call, rows);
    ListingIsPlanned(t.reservations, call, o, rows);
    assert call.orders[..k + 1] == call.orders[..k] + [o];
    OrdersApart(t.reservations, es, more, call.orders[..k], o);
    IdsConcat(es, more);
  }

  /** Plans for different orders make one plan. */
  lemma OrdersApart(m: map<Id, Reservation>, es: seq<Event>, more: seq<Event>, before: seq<string>, o: string)
    requires Listed(m, es, Expiring) && Listed(m, more, Expiring) && o !in before
    requires forall e :: e in es ==> e.Settle? && e.row.order in before
    requires forall e :: e in more ==> e.Settle? && e.row.order == o
    ensures Listed(m, es + more, Expiring)
  {
    var all := es + more;
    forall i, j | 0 <= i < j < |all| ensures all[i].id != all[j].id {
      if i < |es| <= j {
        assert es[i] in es && more[j - |es|] in more;
      }
    }
  }

  lemma SettledIsSwept(t: Tables, call: Call, t': Tables)
    requires call.Cleanup? && FoundAll(t, call) && SettledTables(t, call, t')
    ensures Swept(t, call.now, t')
  {
    forall id | id in t.reservations ensures call.Picks(t.reservations[id]) <==> id in DueIds(t, call.now) {
    }
  }

  /** When the last order is done the tables are swept, and the count is that of the due reservations. */
  lemma SweepDone(t: Tables, call: Call, es: seq<Event>)
    requires Sound(t) && call.Cleanup? && FoundAll(t, call) && PartlySwept(t, call, es, |call.orders|)
    ensures Does(t, call, es)
    ensures Swept(t, call.now, ApplyAll(t, es))
    ensures |es| == |DueIds(t, call.now)|
  {
    assert call.orders[..|call.orders|] == call.orders;
    SettlementMeaning(t, call, es);
    SettledIsSwept(t, call, ApplyAll(t, es));
    SweptCount(t, call, es);
  }

  /** A cleanup that found no order changes nothing, and there was nothing due. */
  lemma NothingDue(t: Tables, ms: seq<Movement>, call: Call)
    requires Sound(t) && call.Cleanup? && FoundAll(t, call) && call.orders == []
    ensures Does(t, call, []) && ApplyAll(t, []) == t && ms + LoggedAll([]) == ms
    ensures Swept(t, call.now, t) && |DueIds(t, call.now)| == 0
  {
    assert PartlySwept(t, call, [], 0);
    SweepDone(t, call, []);
  }

  lemma SweptCount(t: Tables, call: Call, es: seq<Event>)
    requires call.Cleanup? && FoundAll(t, call) && Enumerates(t.reservations, call, es)
    ensures |es| == |DueIds(t, call.now)|
  {
    EnumeratedIds(t.reservations, call, es);
    assert Ids(es) == DueIds(t, call.now);
    CountIds(t.reservations, es, Expiring);
  }

  lemma {:induction false} CountIds(m: map<Id, Reservation>, es: seq<Event>, how: Ending)
    requires Listed(m, es, how)
    ensures |Ids(es)| == |es|
    decreases |es|
  {
    if es != [] {
      var n := |es| - 1;
      ListedPrefix(m, es, how, n);
      CountIds(m, es[..n], how);
    }
  }

  /** The invariant of the service: the tables are sound, the log replays to them, every id in use
      has been issued, and every row belongs to a named warehouse. */
  ghost predicate Consistent(t: Tables, ms: seq<Movement>, nextId: Id) {
    && Sound(t)
    && Books(t, ms)
    && (forall id :: id in t.reservations ==> id < nextId)
    && (forall c :: c in t.stocks ==> c.warehouse != "")
  }

  /** Settling keeps it. */
  lemma SettlingStaysConsistent(t: Tables, ms: seq<Movement>, nextId: Id, call: Call, es: seq<Event>)
    requires Consistent(t, ms, nextId) && call.Settles() && Does(t, call, es)
    ensures Consistent(ApplyAll(t, es), ms + LoggedAll(es), nextId)
  {
    DoesIsLegal(t, call, es);
    LegalRunKeepsInvariants(t, ms, es);
    PlanOnReservations(t, es, call.How());
    PlanKeepsCells(t, es, call.How());
  }

  /** So does any other effect of the code on a named warehouse. */
  lemma EventStaysConsistent(t: Tables, ms: seq<Movement>, nextId: Id, e: Event, nextId': Id)
    requires Consistent(t, ms, nextId) && Legal(t, e) && nextId <= nextId'
    requires e.Where().warehouse != "" && (e.Hold? ==> e.id < nextId')
    ensures Consistent(Apply(t, e), ms + Logged(e), nextId')
  {
    LegalKeepsSound(t, e);
    LegalKeepsBooks(t, ms, e);
  }

  /** The rows a transfer writes are its two effects. */
  lemma MovedIsApplied(t: Tables, a: Cell, b: Cell, q: int, reference: string)
    requires a != b && a in t.stocks
    ensures Apply(Apply(t, Dispatch(a, q, reference)), Arrive(b, q, reference)) ==
            Tables(t.stocks[a := t.stocks[a].(total := t.stocks[a].total - q)]
                           [b := RowAt(t, b).(total := RowAt(t, b).total + q)], t.reservations)
  {
  }

  /** A transfer that passed its guards and the CHECKs. */
  lemma TransferIsCall(t: Tables, ms: seq<Movement>, nextId: Id, sku: string, source: string, target: string, qty: int, reference: string)
    requires Consistent(t, ms, nextId) && source != target && source != "" && target != ""
    requires CanMove(t, Cell(sku, source), Cell(sku, target), qty)
    ensures var d, a := Dispatch(Cell(sku, source), qty, reference), Arrive(Cell(sku, target), qty, reference);
            && Does(t, Transfer(sku, source, target, qty, reference), [d, a])
            && ApplyAll(t, [d, a]) == Apply(Apply(t, d), a)
            && LoggedAll([d, a]) == [Logged(d)[0], Logged(a)[0]]
            && Consistent(Apply(Apply(t, d), a), ms + LoggedAll([d, a]), nextId)
  {
    var d, a := Dispatch(Cell(sku, source), qty, reference), Arrive(Cell(sku, target), qty, reference);
    TwoEvents(t, d, a);
    SingleEvent(t, d);
    ApplyOneMore(t, [d], a);
    assert [d] + [a] == [d, a];
    EventStaysConsistent(t, ms, nextId, d, nextId);
    EventStaysConsistent(Apply(t, d), ms + Logged(d), nextId, a, nextId);
    assert ms + Logged(d) + Logged(a) == ms + LoggedAll([d, a]);
  }
}
