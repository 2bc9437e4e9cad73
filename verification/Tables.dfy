/** The inventory tables, and the primitive effects the use cases have on them.

    Every use case is a sequence of effects (`Event`).  An event is `Legal` when the state it
    meets is one in which the code would produce it; legal events keep the invariants `Sound`
    and `Books` that tie stock rows, reservations and the movement log together. */
module Tables {
  import opened Stock

  type Id = nat

  datatype Cell = Cell(sku: string, warehouse: string)

  datatype Status = Reserved | Confirmed | Released

  datatype Reservation = Reservation(order: string, cell: Cell, qty: int, status: Status, expiry: int)

  datatype Kind = In | Out | Reserve | Release | TransferIn | TransferOut

  datatype Movement = Movement(kind: Kind, cell: Cell, qty: int, reference: string)

  /** `product_stocks` by its UNIQUE (sku, warehouse_id), and `stock_reservations` by id. */
  datatype Tables = Tables(stocks: map<Cell, Row>, reservations: map<Id, Reservation>)

  const NO_TABLES: Tables := Tables(map[], map[])

  /** Go's zero time, which `IsZero` recognises. */
  const ZERO_TIME: int := 0

  /** How a reservation leaves RESERVED: release and confirm keep the row with another status,
      expiry deletes it. */
  datatype Ending = Releasing | Confirming | Expiring

  datatype Event =
    | Receive(cell: Cell, qty: int, reference: string)
    | Dispatch(cell: Cell, qty: int, reference: string)  // leaves the source of a transfer
    | Arrive(cell: Cell, qty: int, reference: string)    // reaches its destination
    | Hold(id: Id, row: Reservation)
    | Settle(id: Id, row: Reservation, how: Ending)
    | SetSafety(cell: Cell, level: int)
  {
    function Where(): Cell {
      if Hold? || Settle? then row.cell else cell
    }
  }

  // ---------------------------------------------------------------- effects

  function RowAt(t: Tables, c: Cell): Row {
    if c in t.stocks then t.stocks[c] else EMPTY_ROW
  }

  /** The exact change of a stock row. */
  function Bump(r: Row, e: Event): Row {
    match e
    case Receive(_, q, _) => r.(total := r.total + q)
    case Dispatch(_, q, _) => r.(total := r.total - q)
    case Arrive(_, q, _) => r.(total := r.total + q)
    case Hold(_, v) => r.(reserved := r.reserved + v.qty)
    case Settle(_, v, Confirming) => r.(total := r.total - v.qty, reserved := r.reserved - v.qty)
    case Settle(_, v, _) => r.(reserved := r.reserved - v.qty)
    case SetSafety(_, level) => r.(safety := level)
  }

  /** What the Go code computes for the row instead. */
  function GoStep(r: Row, e: Event): Row {
    match e
    case Receive(_, q, _) => GoAddTotal(r, q)
    case Dispatch(_, q, _) => GoTakeTotal(r, q)
    case Arrive(_, q, _) => GoAddTotal(r, q)
    case Hold(_, v) => GoReserve(r, v.qty)
    case Settle(_, v, Confirming) => GoDeduct(r, v.qty)
    case Settle(_, v, _) => GoRelease(r, v.qty)
    case SetSafety(_, level) => r.(safety := level)
  }

  /** INSERT, UPDATE ... SET status WHERE id, and DELETE WHERE id; the last two do not mind a missing row. */
  function Rewrite(m: map<Id, Reservation>, e: Event): map<Id, Reservation> {
    match e
    case Hold(id, v) => m[id := v]
    case Settle(id, _, Expiring) => m - {id}
    case Settle(id, _, how) => if id in m then m[id := Ended(m[id], how)] else m
    case _ => m
  }

  function Ended(v: Reservation, how: Ending): Reservation {
    v.(status := if how == Confirming then Confirmed else Released)
  }

  function RewriteAll(m: map<Id, Reservation>, es: seq<Event>): map<Id, Reservation> {
    if es == [] then m else Rewrite(RewriteAll(m, es[..|es| - 1]), es[|es| - 1])
  }

  function Apply(t: Tables, e: Event): Tables {
    Tables(t.stocks[e.Where() := Bump(RowAt(t, e.Where()), e)], Rewrite(t.reservations, e))
  }

  function ApplyAll(t: Tables, es: seq<Event>): Tables {
    if es == [] then t else Apply(ApplyAll(t, es[..|es| - 1]), es[|es| - 1])
  }

  lemma {:induction false} ReservationsAfter(t: Tables, es: seq<Event>)
    ensures ApplyAll(t, es).reservations == RewriteAll(t.reservations, es)
    decreases |es|
  {
    if es != [] {
      ReservationsAfter(t, es[..|es| - 1]);
    }
  }

  /** The rows an event appends to `stock_movements`. */
  function Logged(e: Event): seq<Movement> {
    match e
    case Receive(c, q, ref) => [Movement(In, c, q, ref)]
    case Dispatch(c, q, ref) => [Movement(TransferOut, c, q, ref)]
    case Arrive(c, q, ref) => [Movement(TransferIn, c, q, ref)]
    case Hold(_, v) => [Movement(Reserve, v.cell, v.qty, v.order)]
    case Settle(_, v, Confirming) => [Movement(Out, v.cell, v.qty, v.order)]
    case Settle(_, v, _) => [Movement(Release, v.cell, v.qty, v.order)]
    case SetSafety(_, _) => []
  }

  function LoggedAll(es: seq<Event>): seq<Movement> {
    if es == [] then [] else LoggedAll(es[..|es| - 1]) + Logged(es[|es| - 1])
  }

  lemma ApplyOneMore(t: Tables, es: seq<Event>, e: Event)
    ensures ApplyAll(t, es + [e]) == Apply(ApplyAll(t, es), e)
    ensures LoggedAll(es + [e]) == LoggedAll(es) + Logged(e)
  {
    assert (es + [e])[..|es|] == es;
  }

  lemma {:induction false} ApplyConcat(t: Tables, a: seq<Event>, b: seq<Event>)
    ensures ApplyAll(t, a + b) == ApplyAll(ApplyAll(t, a), b)
    decreases |b|
  {
    if b == [] {
      assert a + b == a;
    } else {
      var n := |b| - 1;
      ApplyConcat(t, a, b[..n]);
      assert (a + b)[..|a + b| - 1] == a + b[..n];
    }
  }

  lemma Regroup<X>(a: seq<X>, b: seq<X>, c: seq<X>)
    ensures a + (b + c) == a + b + c
  {
  }

  lemma LoggedOneMore(es: seq<Event>, e: Event)
    ensures LoggedAll(es + [e]) == LoggedAll(es) + Logged(e)
  {
    assert (es + [e])[..|es|] == es;
  }

  lemma {:induction false} LoggedConcat(a: seq<Event>, b: seq<Event>)
    ensures LoggedAll(a + b) == LoggedAll(a) + LoggedAll(b)
    decreases |b|
  {
    if b == [] {
      assert a + b == a;
    } else {
      var front, e := b[..|b| - 1], b[|b| - 1];
      calc {
        LoggedAll(a + b);
      == { assert a + b == a + front + [e]; }
        LoggedAll(a + front + [e]);
      == { LoggedOneMore(a + front, e); }
        LoggedAll(a + front) + Logged(e);
      == { LoggedConcat(a, front); }
        LoggedAll(a) + LoggedAll(front) + Logged(e);
      == { Regroup(LoggedAll(a), LoggedAll(front), Logged(e)); }
        LoggedAll(a) + (LoggedAll(front) + Logged(e));
      == { assert b == front + [e]; LoggedOneMore(front, e); }
        LoggedAll(a) + LoggedAll(b);
      }
    }
  }

  // ---------------------------------------------------------------- sums

  /** The sum of the values of a map. */
  ghost function Sum<K>(m: map<K, int>): int {
    if m == map[] then 0 else var k :| k in m; m[k] + Sum(m - {k})
  }

  lemma {:induction false} SumWithout<K>(m: map<K, int>, k: K)
    requires k in m
    ensures Sum(m) == m[k] + Sum(m - {k})
    decreases |m|
  {
    var j :| j in m && Sum(m) == m[j] + Sum(m - {j});
    if j != k {
      SumWithout(m - {j}, k);
      SumWithout(m - {k}, j);
      assert m - {j} - {k} == m - {k} - {j};
    }
  }

  lemma SumPut<K>(m: map<K, int>, k: K, v: int)
    ensures Sum(m[k := v]) == Sum(m) - (if k in m then m[k] else 0) + v
  {
    SumWithout(m[k := v], k);
    assert m[k := v] - {k} == m - {k};
    if k in m {
      SumWithout(m, k);
    } else {
      assert m - {k} == m;
    }
  }

  /** The reservations (or movements) a sum ranges over. */
  datatype Scope =
    | AtCell(cell: Cell)
    | OfOrder(order: string, cell: Cell)
    | AllOfOrder(order: string)
    | AllOfSku(sku: string)
    | Due(now: int, cell: Cell)

  predicate Covers(f: Scope, order: string, cell: Cell, expiry: int) {
    match f
    case AtCell(c) => c == cell
    case OfOrder(o, c) => o == order && c == cell
    case AllOfOrder(o) => o == order
    case AllOfSku(s) => s == cell.sku
    case Due(now, c) => c == cell && IsDue(expiry, now)
  }

  predicate IsDue(expiry: int, now: int) {
    expiry <= now && expiry != ZERO_TIME
  }

  function Weight(f: Scope, v: Reservation): int {
    if v.status == Reserved && Covers(f, v.order, v.cell, v.expiry) then v.qty else 0
  }

  ghost function Weights(m: map<Id, Reservation>, f: Scope): map<Id, int> {
    map id | id in m :: Weight(f, m[id])
  }

  /** The quantity still RESERVED in a scope. */
  ghost function Held(m: map<Id, Reservation>, f: Scope): int {
    Sum(Weights(m, f))
  }

  lemma HeldPut(m: map<Id, Reservation>, id: Id, v: Reservation, f: Scope)
    ensures Held(m[id := v], f) == Held(m, f) - (if id in m then Weight(f, m[id]) else 0) + Weight(f, v)
  {
    SumPut(Weights(m, f), id, Weight(f, v));
    assert Weights(m[id := v], f) == Weights(m, f)[id := Weight(f, v)];
  }

  lemma HeldDrop(m: map<Id, Reservation>, id: Id, f: Scope)
    requires id in m
    ensures Held(m - {id}, f) == Held(m, f) - Weight(f, m[id])
  {
    SumWithout(Weights(m, f), id);
    assert Weights(m - {id}, f) == Weights(m, f) - {id};
  }

  lemma {:induction false} HeldNone(m: map<Id, Reservation>, f: Scope)
    requires forall id :: id in m ==> Weight(f, m[id]) == 0
    ensures Held(m, f) == 0
    decreases |m|
  {
    if m == map[] {
      assert Weights(m, f) == map[];
    } else {
      var id :| id in m;
      HeldDrop(m, id, f);
      HeldNone(m - {id}, f);
    }
  }

  /** One reservation is part of every sum that covers it. */
  lemma {:induction false} HeldAtLeast(m: map<Id, Reservation>, id: Id, f: Scope)
    requires forall i :: i in m ==> 0 <= m[i].qty
    requires id in m
    ensures 0 <= Weight(f, m[id]) <= Held(m, f)
    decreases |m|
  {
    HeldDrop(m, id, f);
    var m' := m - {id};
    if m' == map[] {
      HeldNone(m', f);
    } else {
      var j :| j in m';
      HeldAtLeast(m', j, f);
    }
  }

  /** What one event does to the RESERVED quantity of a scope. */
  lemma HeldAfter(m: map<Id, Reservation>, e: Event, f: Scope)
    requires e.Hold? ==> e.id !in m && e.row.status == Reserved
    requires e.Settle? ==> e.id in m && m[e.id] == e.row && e.row.status == Reserved
    ensures Held(Rewrite(m, e), f) == Held(m, f) + (if e.Hold? then Weight(f, e.row) else if e.Settle? then -Weight(f, e.row) else 0)
  {
    match e
    case Hold(id, v) => HeldPut(m, id, v, f);
    case Settle(id, _, Expiring) => HeldDrop(m, id, f);
    case Settle(id, v, how) => HeldPut(m, id, Ended(v, how), f);
    case _ =>
  }

  // ---------------------------------------------------------------- the movement log

  function MovedReserved(f: Scope, m: Movement): int {
    if !Covers(f, m.reference, m.cell, ZERO_TIME) then 0
    else match m.kind
      case Reserve => m.qty
      case Release => -m.qty
      case Out => -m.qty
      case _ => 0
  }

  function MovedTotal(f: Scope, m: Movement): int {
    if !Covers(f, m.reference, m.cell, ZERO_TIME) then 0
    else match m.kind
      case In => m.qty
      case TransferIn => m.qty
      case Out => -m.qty
      case TransferOut => -m.qty
      case _ => 0
  }

  /** RESERVE - RELEASE - OUT over the log. */
  function LedgerReserved(ms: seq<Movement>, f: Scope): int {
    if ms == [] then 0 else LedgerReserved(ms[..|ms| - 1], f) + MovedReserved(f, ms[|ms| - 1])
  }

  /** IN + TRANSFER_IN - OUT - TRANSFER_OUT over the log. */
  function LedgerTotal(ms: seq<Movement>, f: Scope): int {
    if ms == [] then 0 else LedgerTotal(ms[..|ms| - 1], f) + MovedTotal(f, ms[|ms| - 1])
  }

  /** What one event adds to the two ledgers of a scope. */
  function ReservedChange(f: Scope, e: Event): int {
    if e.Hold? then Weight(f, e.row.(status := Reserved, expiry := ZERO_TIME))
    else if e.Settle? then -Weight(f, e.row.(status := Reserved, expiry := ZERO_TIME))
    else 0
  }

  function TotalChange(f: Scope, e: Event): int {
    match e
    case Receive(c, q, ref) => if Covers(f, ref, c, ZERO_TIME) then q else 0
    case Arrive(c, q, ref) => if Covers(f, ref, c, ZERO_TIME) then q else 0
    case Dispatch(c, q, ref) => if Covers(f, ref, c, ZERO_TIME) then -q else 0
    case Settle(_, v, Confirming) => if Covers(f, v.order, v.cell, ZERO_TIME) then -v.qty else 0
    case _ => 0
  }

  lemma LedgerAppend(ms: seq<Movement>, e: Event, f: Scope)
    ensures LedgerReserved(ms + Logged(e), f) == LedgerReserved(ms, f) + ReservedChange(f, e)
    ensures LedgerTotal(ms + Logged(e), f) == LedgerTotal(ms, f) + TotalChange(f, e)
  {
    if e.SetSafety? {
      assert ms + Logged(e) == ms;
    } else {
      assert (ms + Logged(e))[..|ms|] == ms;
    }
  }

  // ---------------------------------------------------------------- invariants

  /** Both reservations are live and the idempotence scan of ReserveStock would take one for the other. */
  predicate Clash(v: Reservation, w: Reservation) {
    v.status == Reserved && w.status == Reserved && v.order == w.order && v.cell == w.cell && v.qty == w.qty
  }

  /** The stored rows are in bounds, a reserved counter is the sum of the live reservations of its
      cell, a live reservation has a stock row, and no two live reservations agree on order, cell
      and quantity. */
  ghost predicate Sound(t: Tables) {
    && (forall c :: c in t.stocks ==> InBounds(t.stocks[c]))
    && (forall c :: RowAt(t, c).reserved == Held(t.reservations, AtCell(c)))
    && (forall id :: id in t.reservations ==> IsQuantity(t.reservations[id].qty))
    && (forall id :: id in t.reservations && t.reservations[id].status == Reserved ==> t.reservations[id].cell in t.stocks)
    && (forall i, j :: i in t.reservations && j in t.reservations && i != j ==> !Clash(t.reservations[i], t.reservations[j]))
  }

  /** The log replays to the tables: every total, and every live quantity by cell, by order and
      cell, by order and by SKU. */
  ghost predicate Books(t: Tables, ms: seq<Movement>) {
    && (forall c :: RowAt(t, c).total == LedgerTotal(ms, AtCell(c)))
    && (forall f: Scope :: !f.Due? ==> Held(t.reservations, f) == LedgerReserved(ms, f))
  }

  lemma EmptyTablesAreSound()
    ensures Sound(NO_TABLES) && Books(NO_TABLES, [])
  {
    forall f: Scope ensures Held(NO_TABLES.reservations, f) == 0 {
      HeldNone(NO_TABLES.reservations, f);
    }
  }

  /** The states in which the code emits the event. */
  predicate Legal(t: Tables, e: Event) {
    match e
    case Receive(c, q, _) => IsQuantity(q) && RowAt(t, c).total + q <= MAX_INT64
    case Arrive(c, q, _) => IsQuantity(q) && RowAt(t, c).total + q <= MAX_INT64
    case Dispatch(c, q, _) => IsQuantity(q) && c in t.stocks && q <= Available(t.stocks[c])
    case Hold(id, v) =>
      && id !in t.reservations
      && v.status == Reserved
      && IsQuantity(v.qty)
      && v.cell in t.stocks
      && v.qty <= Available(t.stocks[v.cell])
      && forall i :: i in t.reservations ==> !Clash(t.reservations[i], v)
    case Settle(id, v, _) => id in t.reservations && t.reservations[id] == v && v.status == Reserved
    case SetSafety(c, _) => c in t.stocks
  }

  predicate LegalAll(t: Tables, es: seq<Event>) {
    es == [] || (LegalAll(t, es[..|es| - 1]) && Legal(ApplyAll(t, es[..|es| - 1]), es[|es| - 1]))
  }

  /** A live reservation is covered by its cell's reserved counter. */
  lemma CounterCoversReservation(t: Tables, id: Id)
    requires Sound(t) && id in t.reservations && t.reservations[id].status == Reserved
    ensures t.reservations[id].cell in t.stocks
    ensures t.reservations[id].qty <= t.stocks[t.reservations[id].cell].reserved
  {
    var c := t.reservations[id].cell;
    HeldAtLeast(t.reservations, id, AtCell(c));
    assert RowAt(t, c).reserved == Held(t.reservations, AtCell(c));
  }

  lemma LegalBumpInBounds(t: Tables, e: Event)
    requires Sound(t) && Legal(t, e)
    ensures InBounds(Bump(RowAt(t, e.Where()), e))
  {
    if e.Settle? {
      CounterCoversReservation(t, e.id);
    }
  }

  lemma LegalCounters(t: Tables, e: Event, c: Cell)
    requires Sound(t) && Legal(t, e)
    ensures RowAt(Apply(t, e), c).reserved == Held(Apply(t, e).reservations, AtCell(c))
  {
    HeldAfter(t.reservations, e, AtCell(c));
    assert RowAt(t, c).reserved == Held(t.reservations, AtCell(c));
  }

  lemma LegalKeepsSound(t: Tables, e: Event)
    requires Sound(t) && Legal(t, e)
    ensures Sound(Apply(t, e))
  {
    LegalBumpInBounds(t, e);
    forall c ensures RowAt(Apply(t, e), c).reserved == Held(Apply(t, e).reservations, AtCell(c)) {
      LegalCounters(t, e, c);
    }
  }

  lemma LegalTotals(t: Tables, ms: seq<Movement>, e: Event, c: Cell)
    requires Legal(t, e) && RowAt(t, c).total == LedgerTotal(ms, AtCell(c))
    ensures RowAt(Apply(t, e), c).total == LedgerTotal(ms + Logged(e), AtCell(c))
  {
    LedgerAppend(ms, e, AtCell(c));
  }

  lemma LegalLive(t: Tables, ms: seq<Movement>, e: Event, f: Scope)
    requires Legal(t, e) && !f.Due? && Held(t.reservations, f) == LedgerReserved(ms, f)
    ensures Held(Apply(t, e).reservations, f) == LedgerReserved(ms + Logged(e), f)
  {
    LedgerAppend(ms, e, f);
    HeldAfter(t.reservations, e, f);
  }

  lemma LegalKeepsBooks(t: Tables, ms: seq<Movement>, e: Event)
    requires Books(t, ms) && Legal(t, e)
    ensures Books(Apply(t, e), ms + Logged(e))
  {
    forall c ensures RowAt(Apply(t, e), c).total == LedgerTotal(ms + Logged(e), AtCell(c)) {
      assert RowAt(t, c).total == LedgerTotal(ms, AtCell(c));
      LegalTotals(t, ms, e, c);
    }
    forall f: Scope | !f.Due? ensures Held(Apply(t, e).reservations, f) == LedgerReserved(ms + Logged(e), f) {
      assert Held(t.reservations, f) == LedgerReserved(ms, f);
      LegalLive(t, ms, e, f);
    }
  }

  lemma {:induction false} LegalRunKeepsInvariants(t: Tables, ms: seq<Movement>, es: seq<Event>)
    requires Sound(t) && LegalAll(t, es)
    ensures Sound(ApplyAll(t, es))
    ensures Books(t, ms) ==> Books(ApplyAll(t, es), ms + LoggedAll(es))
    decreases |es|
  {
    if es == [] {
      assert ms + LoggedAll(es) == ms;
    } else {
      var es', e := es[..|es| - 1], es[|es| - 1];
      LegalRunKeepsInvariants(t, ms, es');
      LegalKeepsSound(ApplyAll(t, es'), e);
      if Books(t, ms) {
        LegalKeepsBooks(ApplyAll(t, es'), ms + LoggedAll(es'), e);
        Regroup(ms, LoggedAll(es'), Logged(e));
      }
    }
  }

  // ---------------------------------------------------------------- commutation

  /** Two events whose order does not show in stock and reservations. */
  predicate Independent(a: Event, b: Event) {
    && !(a.SetSafety? && b.SetSafety? && a.cell == b.cell)
    && ((a.Hold? || a.Settle?) && (b.Hold? || b.Settle?) ==> a.id != b.id)
  }

  lemma BumpsCommute(r: Row, a: Event, b: Event)
    requires Independent(a, b) && a.Where() == b.Where()
    ensures Bump(Bump(r, a), b) == Bump(Bump(r, b), a)
  {
  }

  lemma RewritesCommute(m: map<Id, Reservation>, a: Event, b: Event)
    requires Independent(a, b)
    ensures Rewrite(Rewrite(m, a), b) == Rewrite(Rewrite(m, b), a)
  {
    if (a.Hold? || a.Settle?) && (b.Hold? || b.Settle?) {
      assert Rewrite(Rewrite(m, a), b) == Rewrite(Rewrite(m, b), a);
    }
  }

  lemma Commute(t: Tables, a: Event, b: Event)
    requires Independent(a, b)
    ensures Apply(Apply(t, a), b) == Apply(Apply(t, b), a)
  {
    RewritesCommute(t.reservations, a, b);
    var p, q := a.Where(), b.Where();
    if p == q {
      BumpsCommute(RowAt(t, p), a, b);
      assert Apply(Apply(t, a), b).stocks == t.stocks[p := Bump(Bump(RowAt(t, p), a), b)];
    } else {
      assert Apply(Apply(t, a), b).stocks == t.stocks[p := Bump(RowAt(t, p), a)][q := Bump(RowAt(t, q), b)];
    }
  }

  lemma {:induction false} CommutePast(t: Tables, a: Event, bs: seq<Event>)
    requires forall b :: b in bs ==> Independent(a, b)
    ensures Apply(ApplyAll(t, bs), a) == ApplyAll(Apply(t, a), bs)
    decreases |bs|
  {
    if bs != [] {
      var bs', b := bs[..|bs| - 1], bs[|bs| - 1];
      CommutePast(t, a, bs');
      assert b in bs;
      Commute(ApplyAll(t, bs'), b, a);
    }
  }

  /** Independent sequences can be swapped as blocks. */
  lemma {:induction false} CommuteBlocks(t: Tables, xs: seq<Event>, ys: seq<Event>)
    requires forall a, b :: a in xs && b in ys ==> Independent(a, b)
    ensures ApplyAll(ApplyAll(t, xs), ys) == ApplyAll(ApplyAll(t, ys), xs)
    decreases |xs|
  {
    if xs != [] {
      var xs', a := xs[..|xs| - 1], xs[|xs| - 1];
      CommuteBlocks(t, xs', ys);
      assert a in xs;
      CommutePast(ApplyAll(t, xs'), a, ys);
    }
  }
}
