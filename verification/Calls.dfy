/** The use cases run one at a time: which effects a successful call has on which tables, and
    what follows for every run of calls. */
module Calls {
  import opened Stock
  import opened Tables
  import opened Plans

  datatype Call =
    | ReserveStock(order: string, cell: Cell, qty: int)
    | ReleaseStock(order: string)
    | ConfirmStock(order: string)
    | Cleanup(now: int, orders: seq<string>)  // the orders its first listing found
    | AddReceipt(cell: Cell, qty: int, reference: string)
    | Transfer(sku: string, source: string, target: string, qty: int, reference: string)
    | UpdateSafety(cell: Cell, level: int)
  {
    predicate Settles() {
      ReleaseStock? || ConfirmStock? || Cleanup?
    }

    function How(): Ending {
      if ReleaseStock? then Releasing else if ConfirmStock? then Confirming else Expiring
    }

    /** The orders whose reservations the call may end. */
    predicate Concerns(o: string) {
      match this
      case ReleaseStock(order) => o == order
      case ConfirmStock(order) => o == order
      case Cleanup(_, orders) => o in orders
      case _ => false
    }

    /** The reservations the settlement loop does not skip. */
    predicate Picks(v: Reservation) {
      v.status == Reserved && Concerns(v.order) && (Cleanup? ==> IsDue(v.expiry, now))
    }
  }

  /** `lock:stock:<sku>:<warehouse>`, `lock:stock:<sku>:*` and `lock:order:<order>`. */
  datatype Key = StockKey(cell: Cell) | AnyStockKey(sku: string) | OrderKey(order: string)

  function OrderKeys(orders: seq<string>): seq<Key> {
    seq(|orders|, i requires 0 <= i < |orders| => OrderKey(orders[i]))
  }

  /** The Redis keys a call takes, in the order it takes them. */
  function KeysOf(call: Call): seq<Key> {
    match call
    case ReserveStock(_, c, _) => [StockKey(c)]
    case ReleaseStock(o) => [OrderKey(o)]
    case ConfirmStock(o) => [OrderKey(o)]
    case Cleanup(_, orders) => OrderKeys(orders)
    case AddReceipt(c, _, _) => [StockKey(c)]
    case Transfer(sku, from, to, _, _) => [StockKey(Cell(sku, from)), StockKey(Cell(sku, to))]
    case UpdateSafety(_, _) => []
  }

  /** How long a reservation is held, in seconds. */
  const HOLD_TIME: int := 1800

  /** What a reservation asks for; the expiry plays no part in the idempotence scan. */
  function Wanted(o: string, c: Cell, q: int): Reservation {
    Reservation(o, c, q, Reserved, ZERO_TIME)
  }

  /** The idempotence scan of ReserveStock finds this exact reservation alive. */
  predicate Taken(t: Tables, v: Reservation) {
    exists id :: id in t.reservations && Clash(t.reservations[id], v)
  }

  ghost predicate Complete(m: map<Id, Reservation>, call: Call, es: seq<Event>) {
    forall id :: id in m && call.Picks(m[id]) ==> id in Ids(es)
  }

  /** `es` settles, in some order, exactly the reservations the call picks. */
  ghost predicate Enumerates(m: map<Id, Reservation>, call: Call, es: seq<Event>) {
    Listed(m, es, call.How()) && Complete(m, call, es) && forall e :: e in es ==> e.Settle? && call.Picks(e.row)
  }

  /** The guards of a transfer: enough available at the source, and a destination that can hold it. */
  predicate CanMove(t: Tables, source: Cell, target: Cell, q: int) {
    && IsQuantity(q)
    && source in t.stocks
    && q <= Available(t.stocks[source])
    && RowAt(t, target).total + q <= MAX_INT64
  }

  /** The call, run alone on `t`, succeeds with the effects `es`. */
  ghost predicate Does(t: Tables, call: Call, es: seq<Event>) {
    match call
    case ReserveStock(o, c, q) =>
      IsQuantity(q) &&
      if Taken(t, Wanted(o, c, q)) then es == []
      else
        && c in t.stocks
        && q <= Available(t.stocks[c])
        && |es| == 1
        && es[0].Hold?
        && es[0].id !in t.reservations
        && es[0].row == Reservation(o, c, q, Reserved, es[0].row.expiry)
    case AddReceipt(c, q, ref) =>
      IsQuantity(q) && RowAt(t, c).total + q <= MAX_INT64 && es == [Receive(c, q, ref)]
    case Transfer(sku, from, to, q, ref) =>
      && from != to
      && CanMove(t, Cell(sku, from), Cell(sku, to), q)
      && es == [Dispatch(Cell(sku, from), q, ref), Arrive(Cell(sku, to), q, ref)]
    case UpdateSafety(c, level) =>
      if c in t.stocks then es == [SetSafety(c, level)] else es == []
    case _ => Enumerates(t.reservations, call, es)
  }

  lemma SingleEvent(t: Tables, e: Event)
    ensures ApplyAll(t, [e]) == Apply(t, e)
    ensures LegalAll(t, [e]) <==> Legal(t, e)
    ensures LoggedAll([e]) == Logged(e)
  {
    assert [e][..0] == [];
    assert LoggedAll([]) + Logged(e) == Logged(e);
  }

  lemma TwoEvents(t: Tables, a: Event, b: Event)
    ensures ApplyAll(t, [a, b]) == Apply(Apply(t, a), b)
    ensures LegalAll(t, [a, b]) <==> Legal(t, a) && Legal(Apply(t, a), b)
  {
    assert [a, b][..1] == [a];
    SingleEvent(t, a);
  }

  lemma DoesIsLegal(t: Tables, call: Call, es: seq<Event>)
    requires Does(t, call, es)
    ensures LegalAll(t, es)
  {
    match call
    case ReserveStock(o, c, q) =>
      if es != [] {
        assert es == [es[0]];
        SingleEvent(t, es[0]);
        forall i | i in t.reservations ensures !Clash(t.reservations[i], es[0].row) {
          assert !Clash(t.reservations[i], Wanted(o, c, q));
        }
      }
    case AddReceipt(c, q, ref) => SingleEvent(t, es[0]);
    case Transfer(sku, from, to, q, ref) => TwoEvents(t, es[0], es[1]);
    case UpdateSafety(c, level) =>
      if es != [] {
        SingleEvent(t, es[0]);
      }
    case _ => PlanIsLegal(t, es, call.How());
  }

  // ---------------------------------------------------------------- meaning of the settlement calls

  /** The scope of one cell that a settlement call clears. */
  function Cleared(call: Call, c: Cell): Scope
    requires call.Settles()
  {
    match call
    case ReleaseStock(o) => OfOrder(o, c)
    case ConfirmStock(o) => OfOrder(o, c)
    case Cleanup(now, _) => Due(now, c)
  }

  /** Every order with a due reservation was found by the first listing of the cleanup. */
  predicate FoundAll(t: Tables, call: Call) {
    call.Cleanup? ==>
      forall id :: id in t.reservations && t.reservations[id].status == Reserved && IsDue(t.reservations[id].expiry, call.now)
                   ==> t.reservations[id].order in call.orders
  }

  /** A stock row once `q` units have been settled on it. */
  function Lowered(r: Row, call: Call, q: int): Row {
    r.(reserved := r.reserved - q, total := r.total - (if call.ConfirmStock? then q else 0))
  }

  /** The reservation table once everything picked is settled: cleanup deletes, the others mark. */
  function SettledReservations(m: map<Id, Reservation>, call: Call): map<Id, Reservation> {
    if call.Cleanup? then map id | id in m && !call.Picks(m[id]) :: m[id]
    else map id | id in m :: if call.Picks(m[id]) then Ended(m[id], call.How()) else m[id]
  }

  /** The tables after a settlement call, said without its loop. */
  ghost predicate SettledTables(t: Tables, call: Call, t': Tables)
    requires call.Settles()
  {
    && t'.stocks.Keys == t.stocks.Keys
    && (forall c :: c in t.stocks ==> t'.stocks[c] == Lowered(t.stocks[c], call, Held(t.reservations, Cleared(call, c))))
    && t'.reservations == SettledReservations(t.reservations, call)
  }

  lemma EnumeratedIds(m: map<Id, Reservation>, call: Call, es: seq<Event>)
    requires Enumerates(m, call, es)
    ensures forall id :: id in Ids(es) <==> id in m && call.Picks(m[id])
  {
    IdsAreSettled(es);
    forall id | id in Ids(es) ensures id in m && call.Picks(m[id]) {
      var e :| e in es && e.Settle? && e.id == id;
    }
  }

  lemma ClearedNow(t: Tables, call: Call, es: seq<Event>, f: Scope)
    requires call.Settles() && Enumerates(t.reservations, call, es)
    requires forall id :: id in t.reservations && !call.Picks(t.reservations[id]) ==> Weight(f, t.reservations[id]) == 0
    ensures Planned(es, f) == Held(t.reservations, f)
  {
    PlanOnReservations(t, es, call.How());
    EnumeratedIds(t.reservations, call, es);
    PlanOnHeld(t, es, call.How(), f);
    HeldNone(ApplyAll(t, es).reservations, f);
  }

  lemma SettledCell(t: Tables, call: Call, es: seq<Event>, c: Cell)
    requires call.Settles() && Enumerates(t.reservations, call, es) && FoundAll(t, call)
    ensures Planned(es, AtCell(c)) == Held(t.reservations, Cleared(call, c))
  {
    forall e | e in es && e.Settle? ensures Weight(AtCell(c), e.row) == Weight(Cleared(call, c), e.row) {
      assert call.Picks(e.row);
    }
    PlannedInSameScopes(es, AtCell(c), Cleared(call, c));
    ClearedNow(t, call, es, Cleared(call, c));
  }

  lemma SettledRows(t: Tables, call: Call, es: seq<Event>)
    requires call.Settles() && Enumerates(t.reservations, call, es)
    ensures ApplyAll(t, es).reservations == SettledReservations(t.reservations, call)
  {
    PlanOnReservations(t, es, call.How());
    EnumeratedIds(t.reservations, call, es);
  }

  lemma SettledStock(t: Tables, call: Call, es: seq<Event>, c: Cell)
    requires Sound(t) && call.Settles() && Enumerates(t.reservations, call, es) && FoundAll(t, call) && c in t.stocks
    ensures c in ApplyAll(t, es).stocks
    ensures ApplyAll(t, es).stocks[c] == Lowered(t.stocks[c], call, Held(t.reservations, Cleared(call, c)))
  {
    PlanOnStocks(t, es, call.How(), c);
    SettledCell(t, call, es, c);
    assert RowAt(ApplyAll(t, es), c) == ApplyAll(t, es).stocks[c] && RowAt(t, c) == t.stocks[c];
  }

  /** A settlement call, whatever order its listing came in, lowers each cell's counters by the
      live quantity it had to clear there, ends those reservations, and changes nothing else. */
  lemma SettlementMeaning(t: Tables, call: Call, es: seq<Event>)
    requires Sound(t) && call.Settles() && Does(t, call, es) && FoundAll(t, call)
    ensures SettledTables(t, call, ApplyAll(t, es))
    ensures !call.Cleanup? ==> Planned(es, AllOfOrder(call.order)) == Held(t.reservations, AllOfOrder(call.order))
  {
    PlanKeepsCells(t, es, call.How());
    SettledRows(t, call, es);
    forall c | c in t.stocks
      ensures ApplyAll(t, es).stocks[c] == Lowered(t.stocks[c], call, Held(t.reservations, Cleared(call, c)))
    {
      SettledStock(t, call, es, c);
    }
    if !call.Cleanup? {
      ClearedNow(t, call, es, AllOfOrder(call.order));
    }
  }

  /** A settlement call that meets no live reservation it picks has no effect; in particular a
      second cleanup at the same time removes nothing. */
  lemma NothingToSettle(t: Tables, call: Call, es: seq<Event>)
    requires call.Settles() && Does(t, call, es)
    requires forall id :: id in t.reservations ==> !call.Picks(t.reservations[id])
    ensures es == []
  {
    EnumeratedIds(t.reservations, call, es);
    NoIdsNoEvents(t.reservations, es, call.How());
  }

  // ---------------------------------------------------------------- runs

  datatype Step = Step(call: Call, events: seq<Event>)

  function Replay(t: Tables, h: seq<Step>): Tables {
    if h == [] then t else ApplyAll(Replay(t, h[..|h| - 1]), h[|h| - 1].events)
  }

  /** The effects of a whole run, in order. */
  function Effects(h: seq<Step>): seq<Event> {
    if h == [] then [] else Effects(h[..|h| - 1]) + h[|h| - 1].events
  }

  /** The calls of `h`, one at a time from `t`, each succeed with the recorded effects. */
  ghost predicate Serial(t: Tables, h: seq<Step>) {
    h == [] || (Serial(t, h[..|h| - 1]) && Does(Replay(t, h[..|h| - 1]), h[|h| - 1].call, h[|h| - 1].events))
  }

  lemma RunOneMore(t: Tables, h: seq<Step>, s: Step)
    ensures Replay(t, h + [s]) == ApplyAll(Replay(t, h), s.events)
    ensures Serial(t, h + [s]) <==> Serial(t, h) && Does(Replay(t, h), s.call, s.events)
  {
    assert (h + [s])[..|h|] == h;
  }

  lemma {:induction false} ReplayIsEffects(t: Tables, h: seq<Step>)
    ensures Replay(t, h) == ApplyAll(t, Effects(h))
    decreases |h|
  {
    if h != [] {
      var n := |h| - 1;
      ReplayIsEffects(t, h[..n]);
      ApplyConcat(t, Effects(h[..n]), h[n].events);
    }
  }

  lemma {:induction false} LegalConcat(t: Tables, a: seq<Event>, b: seq<Event>)
    requires LegalAll(t, a) && LegalAll(ApplyAll(t, a), b)
    ensures LegalAll(t, a + b)
    decreases |b|
  {
    if b == [] {
      assert a + b == a;
    } else {
      var n := |b| - 1;
      LegalConcat(t, a, b[..n]);
      ApplyConcat(t, a, b[..n]);
      assert (a + b)[..|a + b| - 1] == a + b[..n];
    }
  }

  lemma {:induction false} SerialIsLegal(t: Tables, h: seq<Step>)
    requires Serial(t, h)
    ensures LegalAll(t, Effects(h))
    decreases |h|
  {
    if h != [] {
      var n := |h| - 1;
      SerialIsLegal(t, h[..n]);
      ReplayIsEffects(t, h[..n]);
      DoesIsLegal(Replay(t, h[..n]), h[n].call, h[n].events);
      LegalConcat(t, Effects(h[..n]), h[n].events);
    }
  }

  /** Ledger replay: after any run the invariants hold and the log replays to the tables. */
  lemma RunsKeepTheBooks(t: Tables, ms: seq<Movement>, h: seq<Step>)
    requires Sound(t) && Books(t, ms) && Serial(t, h)
    ensures Sound(Replay(t, h)) && Books(Replay(t, h), ms + LoggedAll(Effects(h)))
  {
    SerialIsLegal(t, h);
    ReplayIsEffects(t, h);
    LegalRunKeepsInvariants(t, ms, Effects(h));
  }

  lemma RunsFromEmptyKeepTheBooks(h: seq<Step>, c: Cell)
    requires Serial(NO_TABLES, h)
    ensures var ms := LoggedAll(Effects(h));
            && Sound(Replay(NO_TABLES, h))
            && RowAt(Replay(NO_TABLES, h), c).total == LedgerTotal(ms, AtCell(c))
            && RowAt(Replay(NO_TABLES, h), c).reserved == LedgerReserved(ms, AtCell(c))
            && forall o :: Held(Replay(NO_TABLES, h).reservations, OfOrder(o, c)) == LedgerReserved(ms, OfOrder(o, c))
  {
    EmptyTablesAreSound();
    RunsKeepTheBooks(NO_TABLES, [], h);
    var t := Replay(NO_TABLES, h);
    assert [] + LoggedAll(Effects(h)) == LoggedAll(Effects(h));
    assert RowAt(t, c).reserved == Held(t.reservations, AtCell(c));
    assert !AtCell(c).Due?;
    forall o ensures Held(t.reservations, OfOrder(o, c)) == LedgerReserved(LoggedAll(Effects(h)), OfOrder(o, c)) {
      assert !OfOrder(o, c).Due?;
    }
  }

  // ---------------------------------------------------------------- settle once

  predicate Mentions(e: Event, id: Id) {
    (e.Hold? || e.Settle?) && e.id == id
  }

  ghost predicate HeldAndUntouchedSince(es: seq<Event>, id: Id, v: Reservation, i: int) {
    0 <= i < |es| && es[i] == Hold(id, v) && forall k :: i < k < |es| ==> !Mentions(es[k], id)
  }

  /** A live reservation was created by one hold with exactly its content, and nothing has
      happened to it since. */
  lemma {:induction false} LiveWasHeld(es: seq<Event>, id: Id) returns (i: int)
    requires LegalAll(NO_TABLES, es)
    requires id in ApplyAll(NO_TABLES, es).reservations && ApplyAll(NO_TABLES, es).reservations[id].status == Reserved
    ensures HeldAndUntouchedSince(es, id, ApplyAll(NO_TABLES, es).reservations[id], i)
    decreases |es|
  {
    var n := |es| - 1;
    if Mentions(es[n], id) {
      i := n;
    } else {
      i := LiveWasHeld(es[..n], id);
      assert es[..n][i] == es[i];
      forall k | i < k < |es| ensures !Mentions(es[k], id) {
        assert k < n ==> es[..n][k] == es[k];
      }
    }
  }

  lemma LegalAt(t: Tables, es: seq<Event>, j: nat)
    requires LegalAll(t, es) && j < |es|
    ensures LegalAll(t, es[..j]) && Legal(ApplyAll(t, es[..j]), es[j])
    decreases |es|
  {
    if j < |es| - 1 {
      LegalAt(t, es[..|es| - 1], j);
      assert es[..|es| - 1][..j] == es[..j];
    }
  }

  /** Settle-once: in every run, each settlement ends a reservation that one earlier hold created
      with the same order, cell, quantity and expiry, with no other settlement of it in between. */
  lemma SettlesOnce(h: seq<Step>, j: nat) returns (i: int)
    requires Serial(NO_TABLES, h) && j < |Effects(h)| && Effects(h)[j].Settle?
    ensures 0 <= i < j && Effects(h)[i] == Hold(Effects(h)[j].id, Effects(h)[j].row)
    ensures forall k :: i < k < j ==> !Mentions(Effects(h)[k], Effects(h)[j].id)
  {
    var es := Effects(h);
    SerialIsLegal(NO_TABLES, h);
    LegalAt(NO_TABLES, es, j);
    i := LiveWasHeld(es[..j], es[j].id);
    assert es[..j][i] == es[i];
    forall k | i < k < j ensures !Mentions(es[k], es[j].id) {
      assert es[..j][k] == es[k];
    }
  }

  // ---------------------------------------------------------------- one order over a run

  predicate Alive(v: Reservation, o: string) {
    v.order == o && v.status == Reserved
  }

  /** No reservation of the order is alive. */
  predicate AllSettled(t: Tables, o: string) {
    forall id :: id in t.reservations ==> !Alive(t.reservations[id], o)
  }

  function RowsOf(t: Tables, o: string): map<Id, Reservation> {
    map id | id in t.reservations && t.reservations[id].order == o :: t.reservations[id]
  }

  /** A call that neither reserves nor settles for an order leaves its reservations alone. */
  lemma {:induction false} OtherEventsKeepRows(t: Tables, es: seq<Event>, o: string)
    requires LegalAll(t, es)
    requires forall e :: e in es && (e.Hold? || e.Settle?) ==> e.row.order != o
    ensures RowsOf(ApplyAll(t, es), o) == RowsOf(t, o)
    decreases |es|
  {
    if es != [] {
      var n := |es| - 1;
      assert es[n] in es;
      OtherEventsKeepRows(t, es[..n], o);
      assert RowsOf(Apply(ApplyAll(t, es[..n]), es[n]), o) == RowsOf(ApplyAll(t, es[..n]), o);
    }
  }

  lemma SettlingOnlyPicked(t: Tables, call: Call, es: seq<Event>, o: string)
    requires Does(t, call, es) && AllSettled(t, o)
    requires !(call.ReserveStock? && call.order == o)
    ensures forall e :: e in es && (e.Hold? || e.Settle?) ==> e.row.order != o
  {
    if call.Settles() {
      forall e | e in es ensures e.Settle? && e.row.order != o {
        var i :| 0 <= i < |es| && es[i] == e;
        assert !Alive(t.reservations[e.id], o);
      }
    }
  }

  /** First settlement wins: once no reservation of an order is alive, no further confirm, release
      or cleanup in any order of calls changes a row of it, and confirm and release of it have no
      effect at all, as long as nothing new is reserved for it. */
  lemma {:induction false} FirstSettlementWins(t: Tables, h: seq<Step>, o: string)
    requires Serial(t, h) && AllSettled(t, o)
    requires forall i :: 0 <= i < |h| ==> !(h[i].call.ReserveStock? && h[i].call.order == o)
    ensures RowsOf(Replay(t, h), o) == RowsOf(t, o) && AllSettled(Replay(t, h), o)
    ensures forall i :: 0 <= i < |h| && (h[i].call.ReleaseStock? || h[i].call.ConfirmStock?) && h[i].call.order == o ==> h[i].events == []
    ensures forall i, e :: 0 <= i < |h| && e in h[i].events && (e.Hold? || e.Settle?) ==> e.row.order != o
    decreases |h|
  {
    if h != [] {
      var n := |h| - 1;
      var u, s := Replay(t, h[..n]), h[n];
      FirstSettlementWins(t, h[..n], o);
      SettlingOnlyPicked(u, s.call, s.events, o);
      DoesIsLegal(u, s.call, s.events);
      OtherEventsKeepRows(u, s.events, o);
      forall id | id in Replay(t, h).reservations ensures !Alive(Replay(t, h).reservations[id], o) {
        assert Alive(Replay(t, h).reservations[id], o) ==> id in RowsOf(Replay(t, h), o) && id in RowsOf(u, o);
      }
      if (s.call.ReleaseStock? || s.call.ConfirmStock?) && s.call.order == o {
        forall id | id in u.reservations ensures !s.call.Picks(u.reservations[id]) {
          assert !Alive(u.reservations[id], o);
        }
        NothingToSettle(u, s.call, s.events);
      }
      forall i, e | 0 <= i < |h| && e in h[i].events && (e.Hold? || e.Settle?) ensures e.row.order != o {
        assert i < n ==> h[..n][i] == h[i];
      }
      forall i | 0 <= i < n ensures h[..n][i] == h[i] {}
    }
  }

  /** After a successful release or confirm, the order is settled. */
  lemma SettlementSettles(t: Tables, call: Call, es: seq<Event>)
    requires (call.ReleaseStock? || call.ConfirmStock?) && Does(t, call, es)
    ensures AllSettled(ApplyAll(t, es), call.order)
  {
    PlanOnReservations(t, es, call.How());
    EnumeratedIds(t.reservations, call, es);
  }

  // ---------------------------------------------------------------- idempotent retry

  lemma {:induction false} KeepsLive(t: Tables, es: seq<Event>, id: Id)
    requires LegalAll(t, es) && id in t.reservations
    requires forall e :: e in es && e.Settle? ==> e.id != id
    ensures id in ApplyAll(t, es).reservations && ApplyAll(t, es).reservations[id] == t.reservations[id]
    decreases |es|
  {
    if es != [] {
      assert es[|es| - 1] in es;
      KeepsLive(t, es[..|es| - 1], id);
    }
  }

  lemma LegalSuffix(t: Tables, a: seq<Event>, b: seq<Event>)
    requires LegalAll(t, a + b)
    ensures LegalAll(ApplyAll(t, a), b)
    decreases |b|
  {
    if b != [] {
      var n := |b| - 1;
      assert (a + b)[..|a + b| - 1] == a + b[..n];
      LegalSuffix(t, a, b[..n]);
      ApplyConcat(t, a, b[..n]);
    }
  }

  /** Repeating a reservation after any run that did not settle it finds it, and it alone, and
      changes nothing: the retry has no effect and there is only one id it can return. */
  lemma RetryIsIdempotent(t: Tables, h: seq<Step>, o: string, c: Cell, q: int, id: Id, retry: seq<Event>)
    requires Sound(t) && Serial(t, h)
    requires id in t.reservations && Clash(t.reservations[id], Wanted(o, c, q))
    requires forall e :: e in Effects(h) && e.Settle? ==> e.id != id
    requires Does(Replay(t, h), ReserveStock(o, c, q), retry)
    ensures retry == []
    ensures forall i :: i in Replay(t, h).reservations && Clash(Replay(t, h).reservations[i], Wanted(o, c, q)) ==> i == id
  {
    var u := Replay(t, h);
    SerialIsLegal(t, h);
    ReplayIsEffects(t, h);
    KeepsLive(t, Effects(h), id);
    LegalRunKeepsInvariants(t, [], Effects(h));
    assert Taken(u, Wanted(o, c, q));
    forall i | i in u.reservations && Clash(u.reservations[i], Wanted(o, c, q)) ensures i == id {
      assert Clash(u.reservations[i], u.reservations[id]);
    }
  }

  // ---------------------------------------------------------------- reserve all, then release

  lemma {:induction false} HoldsOnStocks(t: Tables, es: seq<Event>, o: string, c: Cell)
    requires LegalAll(t, es) && forall e :: e in es ==> e.Hold? && e.row.order == o
    ensures RowAt(ApplyAll(t, es), c).reserved - Held(ApplyAll(t, es).reservations, OfOrder(o, c))
         == RowAt(t, c).reserved - Held(t.reservations, OfOrder(o, c))
    ensures RowAt(ApplyAll(t, es), c).total == RowAt(t, c).total && RowAt(ApplyAll(t, es), c).safety == RowAt(t, c).safety
    ensures ApplyAll(t, es).stocks.Keys == t.stocks.Keys
    decreases |es|
  {
    if es != [] {
      var n := |es| - 1;
      assert es[n] in es;
      HoldsOnStocks(t, es[..n], o, c);
      HeldAfter(ApplyAll(t, es[..n]).reservations, es[n], OfOrder(o, c));
    }
  }

  lemma {:induction false} HoldsOnHeld(t: Tables, es: seq<Event>, o: string)
    requires LegalAll(t, es) && forall e :: e in es ==> e.Hold? && e.row.order == o
    ensures Held(ApplyAll(t, es).reservations, AllOfOrder(o)) == Held(t.reservations, AllOfOrder(o)) + QuantityHeld(es)
    decreases |es|
  {
    if es != [] {
      var n := |es| - 1;
      assert es[n] in es;
      HoldsOnHeld(t, es[..n], o);
      HeldAfter(ApplyAll(t, es[..n]).reservations, es[n], AllOfOrder(o));
    }
  }

  /** The sum of the quantities newly reserved. */
  function QuantityHeld(es: seq<Event>): int {
    if es == [] then 0 else QuantityHeld(es[..|es| - 1]) + (if es[|es| - 1].Hold? then es[|es| - 1].row.qty else 0)
  }

  lemma {:induction false} ReservesOnlyHold(t: Tables, h: seq<Step>, o: string)
    requires Serial(t, h) && forall i :: 0 <= i < |h| ==> h[i].call.ReserveStock? && h[i].call.order == o
    ensures forall e :: e in Effects(h) ==> e.Hold? && e.row.order == o
    decreases |h|
  {
    if h != [] {
      ReservesOnlyHold(t, h[..|h| - 1], o);
    }
  }

  lemma ReserveThenReleaseCell(t: Tables, es: seq<Event>, o: string, c: Cell, settled: seq<Event>)
    requires Sound(t) && AllSettled(t, o) && LegalAll(t, es) && forall e :: e in es ==> e.Hold? && e.row.order == o
    requires Sound(ApplyAll(t, es)) && Does(ApplyAll(t, es), ReleaseStock(o), settled) && c in t.stocks
    ensures c in ApplyAll(ApplyAll(t, es), settled).stocks
    ensures ApplyAll(ApplyAll(t, es), settled).stocks[c] == t.stocks[c]
  {
    var u := ApplyAll(t, es);
    HoldsOnStocks(t, es, o, c);
    HeldNone(t.reservations, OfOrder(o, c));
    SettledStock(u, ReleaseStock(o), settled, c);
    assert RowAt(u, c) == u.stocks[c] && RowAt(t, c) == t.stocks[c];
  }

  lemma HoldsThenRelease(t: Tables, es: seq<Event>, o: string, settled: seq<Event>)
    requires Sound(t) && AllSettled(t, o) && LegalAll(t, es) && forall e :: e in es ==> e.Hold? && e.row.order == o
    requires Sound(ApplyAll(t, es)) && Does(ApplyAll(t, es), ReleaseStock(o), settled)
    ensures ApplyAll(ApplyAll(t, es), settled).stocks == t.stocks
  {
    HoldsOnStocks(t, es, o, Cell("", ""));
    PlanKeepsCells(ApplyAll(t, es), settled, Releasing);
    forall c | c in t.stocks ensures ApplyAll(ApplyAll(t, es), settled).stocks[c] == t.stocks[c] {
      ReserveThenReleaseCell(t, es, o, c, settled);
    }
  }

  lemma ReleasedIsHeld(t: Tables, es: seq<Event>, o: string, settled: seq<Event>)
    requires AllSettled(t, o) && LegalAll(t, es) && forall e :: e in es ==> e.Hold? && e.row.order == o
    requires Does(ApplyAll(t, es), ReleaseStock(o), settled)
    ensures Planned(settled, AllOfOrder(o)) == QuantityHeld(es)
  {
    HoldsOnHeld(t, es, o);
    HeldNone(t.reservations, AllOfOrder(o));
    ClearedNow(ApplyAll(t, es), ReleaseStock(o), settled, AllOfOrder(o));
  }

  lemma {:induction false} QuantityHeldIsPositive(t: Tables, es: seq<Event>)
    requires LegalAll(t, es)
    ensures 0 <= QuantityHeld(es)
    decreases |es|
  {
    if es != [] {
      QuantityHeldIsPositive(t, es[..|es| - 1]);
    }
  }

  /** Reserving any list of items for an order with nothing alive, and then releasing the order, is
      the identity on the stock table.  The release settles exactly what was newly reserved, and the
      `int64` it returns is that quantity exactly when an `int64` holds it. */
  lemma ReserveAllThenRelease(t: Tables, h: seq<Step>, o: string, settled: seq<Event>)
    requires Sound(t) && AllSettled(t, o) && Serial(t, h)
    requires forall i :: 0 <= i < |h| ==> h[i].call.ReserveStock? && h[i].call.order == o
    requires Does(Replay(t, h), ReleaseStock(o), settled)
    ensures ApplyAll(Replay(t, h), settled).stocks == t.stocks
    ensures Planned(settled, AllOfOrder(o)) == QuantityHeld(Effects(h))
    ensures Counted(settled, o) == QuantityHeld(Effects(h)) <==> QuantityHeld(Effects(h)) <= MAX_INT64
  {
    SerialIsLegal(t, h);
    ReplayIsEffects(t, h);
    LegalRunKeepsInvariants(t, [], Effects(h));
    ReservesOnlyHold(t, h, o);
    HoldsThenRelease(t, Effects(h), o, settled);
    ReleasedIsHeld(t, Effects(h), o, settled);
    QuantityHeldIsPositive(t, Effects(h));
  }

  // ---------------------------------------------------------------- the returned counts

  /** The `int64` that release and confirm return, having settled `es` for an order. */
  function Counted(es: seq<Event>, o: string): int {
    Wrap(Planned(es, AllOfOrder(o)))
  }

  lemma {:induction false} HeldIsPositive(m: map<Id, Reservation>, f: Scope)
    requires forall id :: id in m ==> 0 <= m[id].qty
    ensures 0 <= Held(m, f)
    decreases |m|
  {
    if m == map[] {
      HeldNone(m, f);
    } else {
      var id :| id in m;
      HeldAtLeast(m, id, f);
    }
  }

  /** The returned count is the order's live quantity exactly when an `int64` holds it. */
  lemma CountIsExactWhenItFits(t: Tables, call: Call, es: seq<Event>)
    requires Sound(t) && (call.ReleaseStock? || call.ConfirmStock?) && Does(t, call, es)
    ensures Counted(es, call.order) == Held(t.reservations, AllOfOrder(call.order)) <==> Held(t.reservations, AllOfOrder(call.order)) <= MAX_INT64
  {
    ClearedNow(t, call, es, AllOfOrder(call.order));
    HeldIsPositive(t.reservations, AllOfOrder(call.order));
  }

  function FullRow(): Row {
    Row(MAX_INT64, 0, 0)
  }

  /** Two warehouses are filled. */
  lemma TwoFullWarehouses(a: Cell, b: Cell) returns (h: seq<Step>)
    requires a != b
    ensures Serial(NO_TABLES, h) && Replay(NO_TABLES, h) == Tables(map[a := FullRow(), b := FullRow()], map[])
  {
    var s, z := Step(AddReceipt(a, MAX_INT64, ""), [Receive(a, MAX_INT64, "")]), Step(AddReceipt(b, MAX_INT64, ""), [Receive(b, MAX_INT64, "")]);
    RunOneMore(NO_TABLES, [], s);
    SingleEvent(NO_TABLES, s.events[0]);
    h := [] + [s];
    assert Replay(NO_TABLES, h) == Tables(map[a := FullRow()], map[]);
    RunOneMore(NO_TABLES, h, z);
    SingleEvent(Replay(NO_TABLES, h), z.events[0]);
    h := h + [z];
  }

  /** Reserving a whole cell. */
  lemma ReserveFullCell(h: seq<Step>, o: string, c: Cell, id: Id) returns (h': seq<Step>)
    requires Serial(NO_TABLES, h) && c in Replay(NO_TABLES, h).stocks && Replay(NO_TABLES, h).stocks[c] == FullRow()
    requires id !in Replay(NO_TABLES, h).reservations
    requires forall i :: i in Replay(NO_TABLES, h).reservations ==> Replay(NO_TABLES, h).reservations[i].cell != c
    ensures var t, v := Replay(NO_TABLES, h), Reservation(o, c, MAX_INT64, Reserved, HOLD_TIME);
            Serial(NO_TABLES, h') && Replay(NO_TABLES, h') == Apply(t, Hold(id, v))
  {
    var t, v := Replay(NO_TABLES, h), Reservation(o, c, MAX_INT64, Reserved, HOLD_TIME);
    var s := Step(ReserveStock(o, c, MAX_INT64), [Hold(id, v)]);
    RunOneMore(NO_TABLES, h, s);
    SingleEvent(t, Hold(id, v));
    h' := h + [s];
  }

  /** An order that reserves two full warehouses is released, or confirmed, with the count -2. */
  lemma CountCanWrap(o: string, a: Cell, b: Cell) returns (h: seq<Step>)
    requires a != b
    ensures Serial(NO_TABLES, h)
    ensures Held(Replay(NO_TABLES, h).reservations, AllOfOrder(o)) == 2 * MAX_INT64
    ensures forall call, es :: (call == Call.ReleaseStock(o) || call == Call.ConfirmStock(o)) && Does(Replay(NO_TABLES, h), call, es) ==> Counted(es, o) == -2
  {
    h := TwoFullWarehouses(a, b);
    h := ReserveFullCell(h, o, a, 0);
    var m := Replay(NO_TABLES, h).reservations;
    var v, w := Reservation(o, a, MAX_INT64, Reserved, HOLD_TIME), Reservation(o, b, MAX_INT64, Reserved, HOLD_TIME);
    h := ReserveFullCell(h, o, b, 1);
    HeldNone(map[], AllOfOrder(o));
    HeldPut(map[], 0, v, AllOfOrder(o));
    HeldPut(m, 1, w, AllOfOrder(o));
    assert m == map[0 := v] && Replay(NO_TABLES, h).reservations == m[1 := w];
    var t := Replay(NO_TABLES, h);
    forall call, es | (call == Call.ReleaseStock(o) || call == Call.ConfirmStock(o)) && Does(t, call, es) ensures Counted(es, o) == -2 {
      ClearedNow(t, call, es, AllOfOrder(o));
      assert Wrap(2 * MAX_INT64 - TWO_TO_THE_64) == -2;
    }
  }
}
