/** Totals of a SKU over all its warehouses: what GetStockBySKU adds up, against the reservations
    and the movement log. */
module Skus {
  import opened Stock
  import opened Tables
  import opened Calls

  datatype Column = TotalQty | ReservedQty | AvailableQty

  function Value(r: Row, col: Column): int {
    if col == TotalQty then r.total else if col == ReservedQty then r.reserved else Available(r)
  }

  ghost function Values(m: map<Cell, Row>, sku: string, col: Column): map<Cell, int> {
    map c | c in m :: if c.sku == sku then Value(m[c], col) else 0
  }

  /** The sum of a column over the rows of a SKU. */
  ghost function Whole(m: map<Cell, Row>, sku: string, col: Column): int {
    Sum(Values(m, sku, col))
  }

  lemma {:induction false} SumOfZeros<K>(m: map<K, int>)
    requires forall k :: k in m ==> m[k] == 0
    ensures Sum(m) == 0
    decreases |m|
  {
    if m != map[] {
      var k :| k in m;
      SumWithout(m, k);
      SumOfZeros(m - {k});
    }
  }

  // ---------------------------------------------------------------- reserved

  /** Live quantities by cell. */
  ghost function HeldAt(cells: set<Cell>, m: map<Id, Reservation>, sku: string): map<Cell, int> {
    map c | c in cells :: if c.sku == sku then Held(m, AtCell(c)) else 0
  }

  /** Summing the live reservations cell by cell or all at once is the same. */
  lemma {:induction false} HeldByCells(cells: set<Cell>, m: map<Id, Reservation>, sku: string)
    requires forall id :: id in m && m[id].status == Reserved ==> m[id].cell in cells
    ensures Sum(HeldAt(cells, m, sku)) == Held(m, AllOfSku(sku))
    decreases |m|
  {
    if m == map[] {
      forall c | c in cells ensures Held(m, AtCell(c)) == 0 {
        HeldNone(m, AtCell(c));
      }
      SumOfZeros(HeldAt(cells, m, sku));
      HeldNone(m, AllOfSku(sku));
    } else {
      var id :| id in m;
      var v, rest := m[id], m - {id};
      HeldByCells(cells, rest, sku);
      HeldDrop(m, id, AllOfSku(sku));
      forall c ensures Held(rest, AtCell(c)) == Held(m, AtCell(c)) - Weight(AtCell(c), v) {
        HeldDrop(m, id, AtCell(c));
      }
      if v.status == Reserved && v.cell.sku == sku {
        SumPut(HeldAt(cells, rest, sku), v.cell, Held(m, AtCell(v.cell)));
        assert HeldAt(cells, m, sku) == HeldAt(cells, rest, sku)[v.cell := Held(m, AtCell(v.cell))];
      } else {
        assert HeldAt(cells, m, sku) == HeldAt(cells, rest, sku);
      }
    }
  }

  /** The reserved total of a SKU is the sum of its live reservations over all orders and warehouses. */
  lemma ReservedOfSku(t: Tables, sku: string)
    requires Sound(t)
    ensures Whole(t.stocks, sku, ReservedQty) == Held(t.reservations, AllOfSku(sku))
  {
    HeldByCells(t.stocks.Keys, t.reservations, sku);
    forall c | c in t.stocks ensures t.stocks[c].reserved == Held(t.reservations, AtCell(c)) {
      assert RowAt(t, c).reserved == Held(t.reservations, AtCell(c));
    }
    assert Values(t.stocks, sku, ReservedQty) == HeldAt(t.stocks.Keys, t.reservations, sku);
  }

  // ---------------------------------------------------------------- totals

  ghost function TotalsAt(cells: set<Cell>, ms: seq<Movement>, sku: string): map<Cell, int> {
    map c | c in cells :: if c.sku == sku then LedgerTotal(ms, AtCell(c)) else 0
  }

  lemma {:induction false} TotalsByCells(cells: set<Cell>, ms: seq<Movement>, sku: string)
    requires forall m :: m in ms ==> m.cell in cells
    ensures Sum(TotalsAt(cells, ms, sku)) == LedgerTotal(ms, AllOfSku(sku))
    decreases |ms|
  {
    if ms == [] {
      SumOfZeros(TotalsAt(cells, ms, sku));
    } else {
      var n := |ms| - 1;
      var c := ms[n].cell;
      assert ms[n] in ms;
      TotalsByCells(cells, ms[..n], sku);
      if c.sku == sku {
        SumPut(TotalsAt(cells, ms[..n], sku), c, LedgerTotal(ms, AtCell(c)));
        assert TotalsAt(cells, ms, sku) == TotalsAt(cells, ms[..n], sku)[c := LedgerTotal(ms, AtCell(c))];
      } else {
        assert TotalsAt(cells, ms, sku) == TotalsAt(cells, ms[..n], sku);
      }
    }
  }

  /** Cells without a row count for nothing. */
  lemma {:induction false} MoreCells(m: map<Cell, int>, m': map<Cell, int>)
    requires m.Keys <= m'.Keys && forall c :: c in m ==> m'[c] == m[c]
    requires forall c :: c in m' && c !in m ==> m'[c] == 0
    ensures Sum(m') == Sum(m)
    decreases |m'|
  {
    if c :| c in m' && c !in m {
      SumWithout(m', c);
      MoreCells(m, m' - {c});
    } else {
      assert m' == m;
    }
  }

  /** The total of a SKU is what its movements add up to. */
  lemma TotalOfSku(t: Tables, ms: seq<Movement>, sku: string)
    requires Books(t, ms)
    ensures Whole(t.stocks, sku, TotalQty) == LedgerTotal(ms, AllOfSku(sku))
  {
    var moved := set m | m in ms :: m.cell;
    var all := t.stocks.Keys + moved;
    TotalsByCells(all, ms, sku);
    forall c ensures RowAt(t, c).total == LedgerTotal(ms, AtCell(c)) {}
    MoreCells(Values(t.stocks, sku, TotalQty), TotalsAt(all, ms, sku));
  }

  /** IN - OUT over the log: receipts less confirmations, transfers not counted. */
  function ReceivedLessConfirmed(ms: seq<Movement>, sku: string): int {
    if ms == [] then 0
    else
      var m := ms[|ms| - 1];
      ReceivedLessConfirmed(ms[..|ms| - 1], sku)
      + if m.cell.sku != sku then 0 else if m.kind == In then m.qty else if m.kind == Out then -m.qty else 0
  }

  /** What transfers add to a SKU. */
  function Transferred(ms: seq<Movement>, sku: string): int {
    LedgerTotal(ms, AllOfSku(sku)) - ReceivedLessConfirmed(ms, sku)
  }

  lemma {:induction false} TransferredConcat(a: seq<Movement>, b: seq<Movement>, sku: string)
    ensures Transferred(a + b, sku) == Transferred(a, sku) + Transferred(b, sku)
    decreases |b|
  {
    if b == [] {
      assert a + b == a;
    } else {
      var n := |b| - 1;
      TransferredConcat(a, b[..n], sku);
      assert (a + b)[..|a + b| - 1] == a + b[..n];
    }
  }

  lemma TransferredByEvent(e: Event, sku: string)
    ensures Transferred(Logged(e), sku) ==
            if e.Where().sku != sku then 0 else if e.Arrive? then e.qty else if e.Dispatch? then -e.qty else 0
  {
    if !e.SetSafety? {
      var m := Logged(e)[0];
      assert Logged(e) == [m] && [m][..0] == [];
      assert LedgerTotal([m], AllOfSku(sku)) == MovedTotal(AllOfSku(sku), m);
      assert ReceivedLessConfirmed([m], sku) == if m.cell.sku == sku && m.kind == In then m.qty else if m.cell.sku == sku && m.kind == Out then -m.qty else 0;
      assert m.cell == e.Where() && (e.Settle? ==> m.kind in {Out, Release});
    }
  }

  lemma {:induction false} PlansDoNotTransfer(es: seq<Event>, sku: string)
    requires forall e :: e in es ==> !e.Arrive? && !e.Dispatch?
    ensures Transferred(LoggedAll(es), sku) == 0
    decreases |es|
  {
    if es != [] {
      var n := |es| - 1;
      assert es[n] in es;
      PlansDoNotTransfer(es[..n], sku);
      TransferredConcat(LoggedAll(es[..n]), Logged(es[n]), sku);
      TransferredByEvent(es[n], sku);
    }
  }

  /** A transfer moves stock between cells of one SKU: the SKU as a whole sees nothing. */
  lemma CallsDoNotTransfer(t: Tables, call: Call, es: seq<Event>, sku: string)
    requires Does(t, call, es)
    ensures Transferred(LoggedAll(es), sku) == 0
  {
    if call.Transfer? {
      var d, a := es[0], es[1];
      assert es == [d] + [a];
      LoggedConcat([d], [a]);
      SingleEvent(t, d);
      SingleEvent(t, a);
      TransferredConcat(Logged(d), Logged(a), sku);
      TransferredByEvent(d, sku);
      TransferredByEvent(a, sku);
    } else {
      PlansDoNotTransfer(es, sku);
    }
  }

  lemma {:induction false} TransfersCancel(t: Tables, h: seq<Step>, sku: string)
    requires Serial(t, h)
    ensures Transferred(LoggedAll(Effects(h)), sku) == 0
    decreases |h|
  {
    if h != [] {
      var n := |h| - 1;
      TransfersCancel(t, h[..n], sku);
      CallsDoNotTransfer(Replay(t, h[..n]), h[n].call, h[n].events, sku);
      LoggedConcat(Effects(h[..n]), h[n].events);
      TransferredConcat(LoggedAll(Effects(h[..n])), LoggedAll(h[n].events), sku);
    }
  }

  /** SKU conservation: after any run from empty tables the stock of a SKU is what was received less
      what was confirmed, and its reserved part is the sum of its live reservations. */
  lemma SkuConservation(h: seq<Step>, sku: string)
    requires Serial(NO_TABLES, h)
    ensures var t := Replay(NO_TABLES, h);
            && Whole(t.stocks, sku, TotalQty) == ReceivedLessConfirmed(LoggedAll(Effects(h)), sku)
            && Whole(t.stocks, sku, ReservedQty) == Held(t.reservations, AllOfSku(sku))
  {
    var t, ms := Replay(NO_TABLES, h), LoggedAll(Effects(h));
    EmptyTablesAreSound();
    RunsKeepTheBooks(NO_TABLES, [], h);
    assert [] + ms == ms;
    TotalOfSku(t, ms, sku);
    ReservedOfSku(t, sku);
    TransfersCancel(NO_TABLES, h, sku);
  }

  // ---------------------------------------------------------------- what GetStockBySKU reports

  lemma WholeWithout(m: map<Cell, Row>, c: Cell, sku: string, col: Column)
    requires c in m && c.sku == sku
    ensures Whole(m, sku, col) == Whole(m - {c}, sku, col) + Value(m[c], col)
  {
    SumWithout(Values(m, sku, col), c);
    assert Values(m - {c}, sku, col) == Values(m, sku, col) - {c};
  }

  lemma WholeOfNone(m: map<Cell, Row>, sku: string, col: Column)
    requires forall c :: c in m ==> c.sku != sku
    ensures Whole(m, sku, col) == 0
  {
    SumOfZeros(Values(m, sku, col));
  }

  /** Available and reserved make up the total, and neither is negative. */
  lemma {:induction false} WholeSplits(m: map<Cell, Row>, sku: string)
    requires forall c :: c in m ==> InBounds(m[c])
    ensures Whole(m, sku, AvailableQty) + Whole(m, sku, ReservedQty) == Whole(m, sku, TotalQty)
    ensures 0 <= Whole(m, sku, AvailableQty) && 0 <= Whole(m, sku, ReservedQty)
    decreases |m|
  {
    if c :| c in m && c.sku == sku {
      WholeSplits(m - {c}, sku);
      WholeWithout(m, c, sku, AvailableQty);
      WholeWithout(m, c, sku, ReservedQty);
      WholeWithout(m, c, sku, TotalQty);
    } else {
      WholeOfNone(m, sku, AvailableQty);
      WholeOfNone(m, sku, ReservedQty);
      WholeOfNone(m, sku, TotalQty);
    }
  }

  /** The running sums when the rows in `left` are still to be visited. */
  ghost predicate Summed(m: map<Cell, Row>, left: map<Cell, Row>, sku: string, available: int, reserved: int) {
    && (forall c :: c in left ==> c in m && left[c] == m[c])
    && available == Wrap(Whole(m, sku, AvailableQty) - Whole(left, sku, AvailableQty))
    && reserved == Wrap(Whole(m, sku, ReservedQty) - Whole(left, sku, ReservedQty))
  }

  lemma ReportTurn(m: map<Cell, Row>, left: map<Cell, Row>, c: Cell, sku: string, available: int, reserved: int)
    requires Summed(m, left, sku, available, reserved)
    requires c in left && c.sku == sku && InBounds(m[c])
    ensures Summed(m, left - {c}, sku, Wrap(available + GoAvailable(m[c])), Wrap(reserved + m[c].reserved))
  {
    AvailableIsExact(m[c]);
    SumTurn(m, left, c, sku, AvailableQty);
    SumTurn(m, left, c, sku, ReservedQty);
  }

  lemma SumTurn(m: map<Cell, Row>, left: map<Cell, Row>, c: Cell, sku: string, col: Column)
    requires c in left && c in m && left[c] == m[c] && c.sku == sku
    ensures Wrap(Wrap(Whole(m, sku, col) - Whole(left, sku, col)) + Value(m[c], col)) == Wrap(Whole(m, sku, col) - Whole(left - {c}, sku, col))
  {
    WholeWithout(left, c, sku, col);
    WrapSum(Whole(m, sku, col) - Whole(left, sku, col), Value(m[c], col));
  }

  lemma ReportDone(m: map<Cell, Row>, left: map<Cell, Row>, sku: string, available: int, reserved: int)
    requires Summed(m, left, sku, available, reserved) && forall c :: c in left ==> c.sku != sku
    ensures available == Wrap(Whole(m, sku, AvailableQty)) && reserved == Wrap(Whole(m, sku, ReservedQty))
  {
    WholeOfNone(left, sku, AvailableQty);
    WholeOfNone(left, sku, ReservedQty);
  }

  /** The response fields are `int64` sums.  They report the exact sums exactly when these fit. */
  lemma ReportIsExactWhenItFits(t: Tables, sku: string)
    requires Sound(t)
    ensures Wrap(Whole(t.stocks, sku, AvailableQty)) == Whole(t.stocks, sku, AvailableQty) <==> Whole(t.stocks, sku, AvailableQty) <= MAX_INT64
    ensures Wrap(Whole(t.stocks, sku, ReservedQty)) == Whole(t.stocks, sku, ReservedQty) <==> Whole(t.stocks, sku, ReservedQty) <= MAX_INT64
  {
    WholeSplits(t.stocks, sku);
  }

  /** Two full warehouses are enough for it to report a negative stock. */
  lemma ReportCanWrap(a: Cell, b: Cell) returns (t: Tables)
    requires a != b && a.sku == b.sku
    ensures Sound(t) && Whole(t.stocks, a.sku, AvailableQty) == 2 * MAX_INT64
    ensures Wrap(Whole(t.stocks, a.sku, AvailableQty)) < 0
  {
    var r := Row(MAX_INT64, 0, 0);
    t := Tables(map[a := r, b := r], map[]);
    forall c ensures Held(t.reservations, AtCell(c)) == 0 {
      HeldNone(t.reservations, AtCell(c));
    }
    WholeWithout(t.stocks, a, a.sku, AvailableQty);
    WholeWithout(t.stocks - {a}, b, a.sku, AvailableQty);
    WholeOfNone(t.stocks - {a} - {b}, a.sku, AvailableQty);
  }
}
