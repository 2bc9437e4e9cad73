/** Concurrent accounting: in every state that interleaved processes can reach, the committed
    tables are sound and the movement log replays to them, provided no Redis lock expires while
    its call is still running. */
module Accounting {
  import opened Stock
  import opened Tables
  import opened Plans
  import opened Calls
  import opened Protocol

  // ---------------------------------------------------------------- private rows

  function Cells(es: seq<Event>): set<Cell> {
    if es == [] then {} else Cells(es[..|es| - 1]) + {es[|es| - 1].Where()}
  }

  lemma CellsOneMore(es: seq<Event>, e: Event)
    ensures Cells(es + [e]) == Cells(es) + {e.Where()}
  {
    assert (es + [e])[..|es|] == es;
  }

  lemma {:induction false} CellsAreWheres(es: seq<Event>)
    ensures forall e :: e in es ==> e.Where() in Cells(es)
    ensures forall c :: c in Cells(es) ==> exists e :: e in es && e.Where() == c
    decreases |es|
  {
    if es != [] {
      CellsAreWheres(es[..|es| - 1]);
    }
  }

  /** The rows a transaction with effects `es` must have prepared. */
  function Written(t: Tables, es: seq<Event>): map<Cell, Row> {
    map c | c in Cells(es) :: RowAt(ApplyAll(t, es), c)
  }

  /** The row of a cell depends on that cell's row alone. */
  lemma {:induction false} RowIsLocal(t: Tables, t': Tables, es: seq<Event>, c: Cell)
    requires RowAt(t, c) == RowAt(t', c)
    ensures RowAt(ApplyAll(t, es), c) == RowAt(ApplyAll(t', es), c)
    decreases |es|
  {
    if es != [] {
      RowIsLocal(t, t', es[..|es| - 1], c);
    }
  }

  lemma {:induction false} OtherRowsStay(t: Tables, es: seq<Event>)
    ensures ApplyAll(t, es).stocks.Keys == t.stocks.Keys + Cells(es)
    ensures forall c :: c !in Cells(es) ==> RowAt(ApplyAll(t, es), c) == RowAt(t, c)
    decreases |es|
  {
    if es != [] {
      var n := |es| - 1;
      OtherRowsStay(t, es[..n]);
    }
  }

  lemma WrittenIsLocal(t: Tables, t': Tables, es: seq<Event>)
    requires forall c :: c in Cells(es) ==> RowAt(t, c) == RowAt(t', c)
    ensures Written(t, es) == Written(t', es)
  {
    forall c | c in Cells(es) ensures RowAt(ApplyAll(t, es), c) == RowAt(ApplyAll(t', es), c) {
      RowIsLocal(t, t', es, c);
    }
  }

  /** Publishing the prepared rows is applying the effects. */
  lemma CommitIsApply(t: Tables, es: seq<Event>)
    ensures Tables(t.stocks + Written(t, es), RewriteAll(t.reservations, es)) == ApplyAll(t, es)
  {
    ReservationsAfter(t, es);
    OtherRowsStay(t, es);
    var m, m' := t.stocks + Written(t, es), ApplyAll(t, es).stocks;
    assert m.Keys == m'.Keys;
    forall c | c in m ensures m[c] == m'[c] {
      assert RowAt(ApplyAll(t, es), c) == m'[c];
      assert c !in Cells(es) ==> RowAt(t, c) == m[c];
    }
  }

  lemma RowOneMore(t: Tables, es: seq<Event>, e: Event, c: Cell)
    ensures RowAt(ApplyAll(t, es + [e]), c) == if c == e.Where() then Bump(RowAt(ApplyAll(t, es), c), e) else RowAt(ApplyAll(t, es), c)
  {
    ApplyOneMore(t, es, e);
  }

  lemma WrittenOneMore(t: Tables, es: seq<Event>, e: Event)
    ensures Written(t, es + [e]) == Written(t, es)[e.Where() := Bump(RowAt(ApplyAll(t, es), e.Where()), e)]
  {
    var m, m' := Written(t, es + [e]), Written(t, es)[e.Where() := Bump(RowAt(ApplyAll(t, es), e.Where()), e)];
    CellsOneMore(es, e);
    assert m.Keys == m'.Keys;
    forall c | c in m ensures m[c] == m'[c] {
      RowOneMore(t, es, e, c);
    }
  }

  // ---------------------------------------------------------------- the invariant

  /** A process still has every stock and order key it will delete. */
  ghost predicate Owns(s: Sys, p: Pid, defers: seq<Key>) {
    && (forall k :: k in defers && !k.AnyStockKey? ==> k in s.locks && s.locks[k].holder == p)
    && (forall i, j :: 0 <= i < j < |defers| ==> defers[i] != defers[j])
  }

  /** What a process read of a row is what is committed, and stays so: a found row is locked, and a
      missing one cannot appear while the process has its stock key. */
  predicate SeenNow(s: Sys, p: Pid, c: Cell, seen: Seen) {
    match seen
    case Missing => c !in s.db.stocks
    case Found(r) => c in s.db.stocks && s.db.stocks[c] == r && HasRow(s, p, c)
  }

  /** A settlement loop that has done `es` and has `rows` and the listings of `orders` to go. */
  ghost predicate OnPlan(t: Tables, call: Call, es: seq<Event>, rows: seq<(Id, Reservation)>, orders: seq<string>) {
    var plan := es + Ends(rows, call.How());
    && Listed(t.reservations, plan, call.How())
    && (forall e :: e in plan ==> e.Settle? && call.Picks(e.row) && e.row.order !in orders)
    && Distinct(orders)
    && (forall o :: o in orders ==> call.Concerns(o))
    && (call.Cleanup? ==>
          forall id :: id in t.reservations && call.Picks(t.reservations[id]) && t.reservations[id].order !in orders
                       ==> id in Ids(plan))
  }

  /** What a transaction that is ready to commit has prepared. */
  ghost predicate Ready(s: Sys, p: Pid, call: Call, es: seq<Event>) {
    if call.Settles() then OnPlan(s.db, call, es, [], [])
    else
      && Does(s.db, call, es)
      && es != []
      && (call.ReserveStock? ==>
            && es[0].id == p
            && StockKey(call.cell) in s.locks
            && s.locks[StockKey(call.cell)].deadline <= es[0].row.expiry)
  }

  ghost predicate PhaseOk(s: Sys, p: Pid, P: Proc)
    requires P.Running?
  {
    match P.phase
    case Dropping => P.call.ReserveStock? && P.events == [] && (forall k :: k in P.defers ==> k.AnyStockKey?)
    case Acquiring(todo) =>
      && P.events == []
      && (forall k :: k in KeysOf(P.call) ==> k in P.defers || k in todo)
      && (forall k :: k in todo ==> !k.AnyStockKey?)
    case Scanning => P.call.ReserveStock? && P.events == []
    case Holding => P.call.ReserveStock? && P.events == [] && !Taken(s.db, Wanted(P.call.order, P.call.cell, P.call.qty))
    case Settling(rows, orders) => P.call.Settles() && OnPlan(s.db, P.call, P.events, rows, orders)
    case Reading => (P.call.AddReceipt? || P.call.Transfer? || P.call.UpdateSafety?) && P.events == []
    case ReadingTarget(r) =>
      && P.call.Transfer? && P.events == []
      && P.call.qty <= Available(r)
      && SeenNow(s, p, Cell(P.call.sku, P.call.source), Found(r))
    case Writing(origin, seen) =>
      && P.events == []
      && (P.call.AddReceipt? || P.call.Transfer?)
      && (P.call.AddReceipt? ==> SeenNow(s, p, P.call.cell, seen))
      && (P.call.Transfer? ==>
            && origin.Found?
            && P.call.qty <= Available(origin.row)
            && SeenNow(s, p, Cell(P.call.sku, P.call.source), origin)
            && SeenNow(s, p, Cell(P.call.sku, P.call.target), seen))
    case Committing => Ready(s, p, P.call, P.events)
  }

  ghost predicate ProcOk(s: Sys, p: Pid, P: Proc) {
    match P
    case Anywhere(_, _, qty, _) => IsQuantity(qty) && p !in s.db.reservations
    case Sweeping => p !in s.db.reservations
    case Leaving(defers) => Owns(s, p, defers)
    case Running(call, phase, defers, writes, _, es) =>
      && Owns(s, p, defers)
      && Valid(call)
      && p !in s.db.reservations
      && (call.Cleanup? ==> call.now <= s.clock && Distinct(call.orders))
      && (!phase.Dropping? && !phase.Acquiring? ==> forall k :: k in KeysOf(call) ==> k in defers)
      && writes == Written(s.db, es)
      && (forall c :: c in writes ==> HasRow(s, p, c))
      && PhaseOk(s, p, P)
  }

  ghost predicate Good(s: Sys) {
    && Sound(s.db)
    && Books(s.db, s.moves)
    && (forall id :: id in s.db.reservations ==> id < s.nextPid)
    && (forall k :: k in s.locks ==> s.locks[k].deadline <= s.clock + LOCK_TTL)
    && (forall p :: p in s.procs ==> p < s.nextPid && ProcOk(s, p, s.procs[p]))
  }

  // ---------------------------------------------------------------- frames

  /** What a process relies on is untouched between `s` and `s'`, whose tables are the same. */
  ghost predicate Undisturbed(s: Sys, s': Sys, q: Pid) {
    && s'.db == s.db
    && s.clock <= s'.clock
    && (forall k :: k in s.locks && s.locks[k].holder == q && !k.AnyStockKey? ==> k in s'.locks && s'.locks[k] == s.locks[k])
    && (forall c :: HasRow(s, q, c) ==> HasRow(s', q, c))
  }

  lemma UndisturbedStaysOk(s: Sys, s': Sys, q: Pid, Q: Proc)
    requires ProcOk(s, q, Q) && Undisturbed(s, s', q)
    ensures ProcOk(s', q, Q)
  {
    if Q.Running? && Q.phase.Committing? && Q.call.ReserveStock? {
      assert StockKey(Q.call.cell) in KeysOf(Q.call);
    }
  }

  /** What the commit of `p` can have changed, in terms of the keys and row locks it had. */
  ghost predicate Footprint(s: Sys, p: Pid, writes: map<Cell, Row>, defers: seq<Key>, db: Tables) {
    && (forall c :: c !in writes ==> RowAt(db, c) == RowAt(s.db, c) && (c in db.stocks <==> c in s.db.stocks))
    && (forall c :: c in s.db.stocks ==> c in db.stocks)
    && (forall c :: c in db.stocks && c !in s.db.stocks ==> StockKey(c) in defers)
    && (forall id :: id in s.db.reservations && OrderKey(s.db.reservations[id].order) !in defers ==>
          id in db.reservations && db.reservations[id] == s.db.reservations[id])
    && (forall id :: id in db.reservations && id !in s.db.reservations ==>
          id == p && StockKey(db.reservations[id].cell) in defers && s.clock < db.reservations[id].expiry)
    && (forall id :: id in db.reservations && id in s.db.reservations && db.reservations[id].status == Reserved ==>
          db.reservations[id] == s.db.reservations[id])
  }

  /** The same seen by another process `q`: its locked rows, its missing rows and the reservations
      of its orders are as before, and whatever is new is none of its business. */
  ghost predicate Spared(s: Sys, q: Pid, defers: seq<Key>, db: Tables) {
    && (forall c :: HasRow(s, q, c) ==> RowAt(db, c) == RowAt(s.db, c) && (c in db.stocks <==> c in s.db.stocks))
    && (forall c :: StockKey(c) in defers && c !in s.db.stocks ==> c !in db.stocks)
    && (forall id :: id in s.db.reservations && OrderKey(s.db.reservations[id].order) in defers ==>
          id in db.reservations && db.reservations[id] == s.db.reservations[id])
    && (forall id :: id in db.reservations && id !in s.db.reservations ==>
          id != q && StockKey(db.reservations[id].cell) !in defers && s.clock < db.reservations[id].expiry)
    && (forall id :: id in db.reservations && id in s.db.reservations && db.reservations[id].status == Reserved ==>
          db.reservations[id] == s.db.reservations[id])
  }

  lemma CommitSpares(s: Sys, p: Pid, q: Pid, db: Tables)
    requires p != q && IsRunning(s, p) && IsRunning(s, q)
    requires ProcOk(s, p, s.procs[p]) && ProcOk(s, q, s.procs[q])
    requires Footprint(s, p, s.procs[p].writes, s.procs[p].defers, db)
    ensures Spared(s, q, s.procs[q].defers, db)
  {
    var P, Q := s.procs[p], s.procs[q];
    assert forall k :: k in P.defers && k in Q.defers ==> k.AnyStockKey?;
    assert forall c :: HasRow(s, q, c) ==> c !in P.writes;
  }

  lemma SparedPlan(s: Sys, q: Pid, Q: Proc, db: Tables, rows: seq<(Id, Reservation)>, orders: seq<string>)
    requires Q.Running? && ProcOk(s, q, Q) && Spared(s, q, Q.defers, db) && Q.call.Settles()
    requires forall k :: k in KeysOf(Q.call) ==> k in Q.defers
    requires OnPlan(s.db, Q.call, Q.events, rows, orders)
    ensures OnPlan(db, Q.call, Q.events, rows, orders)
  {
    var plan := Q.events + Ends(rows, Q.call.How());
    forall i | 0 <= i < |plan| ensures plan[i].id in db.reservations && db.reservations[plan[i].id] == plan[i].row {
      assert plan[i] in plan;
      ConcernedKey(Q.call, plan[i].row.order);
    }
    if Q.call.Cleanup? {
      forall id | id in db.reservations && Q.call.Picks(db.reservations[id]) && db.reservations[id].order !in orders
        ensures id in Ids(plan)
      {
        assert id in s.db.reservations;
      }
    }
  }

  lemma ConcernedKey(call: Call, o: string)
    requires call.Concerns(o)
    ensures OrderKey(o) in KeysOf(call)
  {
    if call.Cleanup? {
      var i :| 0 <= i < |call.orders| && call.orders[i] == o;
      assert OrderKeys(call.orders)[i] == OrderKey(o);
    }
  }

  lemma SparedReady(s: Sys, q: Pid, Q: Proc, db: Tables)
    requires Q.Running? && ProcOk(s, q, Q) && Spared(s, q, Q.defers, db) && Q.phase.Committing? && !Q.call.Settles()
    ensures Does(db, Q.call, Q.events)
  {
    assert Does(s.db, Q.call, Q.events);
    CellsAreWheres(Q.events);
    assert forall i :: 0 <= i < |Q.events| ==> Q.events[i] in Q.events && Q.events[i].Where() in Q.writes;
    match Q.call
    case ReserveStock(o, c, q') =>
      assert Q.events[0].Where() == c && HasRow(s, q, c);
      assert StockKey(c) in KeysOf(Q.call);
      forall id | id in db.reservations ensures !Clash(db.reservations[id], Wanted(o, c, q')) {
        assert id in s.db.reservations ==> !Clash(s.db.reservations[id], Wanted(o, c, q'));
      }
    case AddReceipt(c, _, _) => assert Q.events[0].Where() == c && HasRow(s, q, c);
    case Transfer(sku, from, to, _, _) =>
      assert Q.events[0].Where() == Cell(sku, from) && HasRow(s, q, Cell(sku, from));
      assert Q.events[1].Where() == Cell(sku, to) && HasRow(s, q, Cell(sku, to));
    case UpdateSafety(c, _) => assert Q.events[0].Where() == c && HasRow(s, q, c);
    case _ =>
  }

  lemma SparedPhase(s: Sys, s': Sys, q: Pid, Q: Proc)
    requires Q.Running? && ProcOk(s, q, Q) && Spared(s, q, Q.defers, s'.db)
    requires s'.locks == s.locks && s'.clock == s.clock && forall c :: HasRow(s, q, c) ==> HasRow(s', q, c)
    ensures PhaseOk(s', q, Q)
  {
    match Q.phase
    case Settling(rows, orders) => SparedPlan(s, q, Q, s'.db, rows, orders);
    case Committing =>
      if Q.call.Settles() {
        SparedPlan(s, q, Q, s'.db, [], []);
      } else {
        SparedReady(s, q, Q, s'.db);
      }
    case Holding =>
      var w := Wanted(Q.call.order, Q.call.cell, Q.call.qty);
      assert StockKey(Q.call.cell) in KeysOf(Q.call);
      forall id | id in s'.db.reservations ensures !Clash(s'.db.reservations[id], w) {
        assert id in s.db.reservations ==> !Clash(s.db.reservations[id], w);
      }
    case ReadingTarget(r) => assert StockKey(Cell(Q.call.sku, Q.call.source)) in KeysOf(Q.call);
    case Writing(origin, seen) =>
      if Q.call.AddReceipt? {
        assert StockKey(Q.call.cell) in KeysOf(Q.call);
      } else {
        assert KeysOf(Q.call)[1] == StockKey(Cell(Q.call.sku, Q.call.target));
        assert StockKey(Cell(Q.call.sku, Q.call.target)) in KeysOf(Q.call);
      }
    case _ =>
  }

  lemma SparedStaysOk(s: Sys, s': Sys, q: Pid, Q: Proc)
    requires Q.Running? && ProcOk(s, q, Q) && Spared(s, q, Q.defers, s'.db)
    requires s'.locks == s.locks && s'.clock == s.clock && forall c :: HasRow(s, q, c) ==> HasRow(s', q, c)
    ensures ProcOk(s', q, Q)
  {
    forall c | c in Cells(Q.events) ensures RowAt(s.db, c) == RowAt(s'.db, c) {
      assert c in Q.writes;
    }
    WrittenIsLocal(s.db, s'.db, Q.events);
    SparedPhase(s, s', q, Q);
  }

  // ---------------------------------------------------------------- commits

  lemma EventsOfOrders(s: Sys, p: Pid, e: Event)
    requires IsRunning(s, p) && ProcOk(s, p, s.procs[p]) && s.procs[p].phase.Committing?
    requires e in s.procs[p].events && e.Settle?
    ensures OrderKey(e.row.order) in s.procs[p].defers
    ensures e.id in s.db.reservations && s.db.reservations[e.id] == e.row && e.row.status == Reserved
  {
    var P := s.procs[p];
    assert P.call.Settles();
    assert P.events + Ends([], P.call.How()) == P.events;
    ConcernedKey(P.call, e.row.order);
  }

  /** The effects of a transaction that is ready are legal on the committed tables. */
  lemma ReadyIsLegal(s: Sys, p: Pid)
    requires IsRunning(s, p) && ProcOk(s, p, s.procs[p]) && s.procs[p].phase.Committing?
    ensures LegalAll(s.db, s.procs[p].events)
    ensures DidCommit(s, p).db == ApplyAll(s.db, s.procs[p].events)
  {
    var P := s.procs[p];
    CommitIsApply(s.db, P.events);
    ReadyEffectsAreLegal(s, p, P.call, P.events);
  }

  lemma ReadyEffectsAreLegal(s: Sys, p: Pid, call: Call, es: seq<Event>)
    requires Ready(s, p, call, es)
    ensures LegalAll(s.db, es)
  {
    if call.Settles() {
      assert es + Ends([], call.How()) == es;
      PlanIsLegal(s.db, es, call.How());
    } else {
      DoesIsLegal(s.db, call, es);
    }
  }

  lemma FootprintOfPlan(s: Sys, p: Pid)
    requires Good(s) && IsRunning(s, p) && s.procs[p].phase.Committing? && s.procs[p].call.Settles()
    ensures Footprint(s, p, s.procs[p].writes, s.procs[p].defers, ApplyAll(s.db, s.procs[p].events))
  {
    var P := s.procs[p];
    assert ProcOk(s, p, P);
    assert P.events + Ends([], P.call.How()) == P.events;
    IdsAreSettled(P.events);
    forall id | id in Ids(P.events) ensures id in s.db.reservations && OrderKey(s.db.reservations[id].order) in P.defers {
      var e :| e in P.events && e.Settle? && e.id == id;
      EventsOfOrders(s, p, e);
    }
    PlanFootprint(s, p, P.events, P.call.How(), P.defers);
  }

  lemma PlanFootprint(s: Sys, p: Pid, es: seq<Event>, how: Ending, defers: seq<Key>)
    requires Sound(s.db) && Listed(s.db.reservations, es, how)
    requires forall id :: id in Ids(es) ==> id in s.db.reservations && OrderKey(s.db.reservations[id].order) in defers
    ensures Footprint(s, p, Written(s.db, es), defers, ApplyAll(s.db, es))
  {
    OtherRowsStay(s.db, es);
    PlanKeepsCells(s.db, es, how);
    PlanOnReservations(s.db, es, how);
  }

  lemma FootprintOfHold(s: Sys, p: Pid)
    requires Good(s) && Prompt(s) && IsRunning(s, p) && s.procs[p].phase.Committing? && s.procs[p].call.ReserveStock?
    ensures Footprint(s, p, s.procs[p].writes, s.procs[p].defers, ApplyAll(s.db, s.procs[p].events))
  {
    var P := s.procs[p];
    var e := P.events[0];
    assert P.events == [e];
    SingleEvent(s.db, e);
    OtherRowsStay(s.db, P.events);
    assert e.Where() in Cells(P.events);
    assert StockKey(P.call.cell) in KeysOf(P.call);
    assert s.clock < s.locks[StockKey(P.call.cell)].deadline;
  }

  lemma {:induction false} StockEventsKeepReservations(m: map<Id, Reservation>, es: seq<Event>)
    requires forall e :: e in es ==> !e.Hold? && !e.Settle?
    ensures RewriteAll(m, es) == m
    decreases |es|
  {
    if es != [] {
      assert es[|es| - 1] in es;
      StockEventsKeepReservations(m, es[..|es| - 1]);
    }
  }

  lemma FootprintOfEffects(s: Sys, p: Pid, es: seq<Event>, defers: seq<Key>)
    requires forall e :: e in es ==> !e.Hold? && !e.Settle?
    requires forall c :: c in Cells(es) && c !in s.db.stocks ==> StockKey(c) in defers
    ensures Footprint(s, p, Written(s.db, es), defers, ApplyAll(s.db, es))
  {
    OtherRowsStay(s.db, es);
    ReservationsAfter(s.db, es);
    StockEventsKeepReservations(s.db.reservations, es);
  }

  lemma CellsHaveKeys(t: Tables, call: Call, es: seq<Event>, c: Cell)
    requires Does(t, call, es) && !call.Settles() && !call.ReserveStock?
    requires c in Cells(es) && c !in t.stocks
    ensures StockKey(c) in KeysOf(call)
  {
    CellsAreWheres(es);
    var e :| e in es && e.Where() == c;
    if call.Transfer? {
      assert KeysOf(call)[1] == StockKey(Cell(call.sku, call.target));
    }
  }

  lemma FootprintOfStock(s: Sys, p: Pid)
    requires Good(s) && IsRunning(s, p) && s.procs[p].phase.Committing?
    requires !s.procs[p].call.Settles() && !s.procs[p].call.ReserveStock?
    ensures Footprint(s, p, s.procs[p].writes, s.procs[p].defers, ApplyAll(s.db, s.procs[p].events))
  {
    var P := s.procs[p];
    forall c | c in Cells(P.events) && c !in s.db.stocks ensures StockKey(c) in P.defers {
      CellsHaveKeys(s.db, P.call, P.events, c);
    }
    FootprintOfEffects(s, p, P.events, P.defers);
  }

  lemma CommitFootprint(s: Sys, p: Pid)
    requires Good(s) && Prompt(s) && IsRunning(s, p) && s.procs[p].phase.Committing?
    ensures Footprint(s, p, s.procs[p].writes, s.procs[p].defers, ApplyAll(s.db, s.procs[p].events))
  {
    if s.procs[p].call.Settles() {
      FootprintOfPlan(s, p);
    } else if s.procs[p].call.ReserveStock? {
      FootprintOfHold(s, p);
    } else {
      FootprintOfStock(s, p);
    }
  }

  lemma CommitKeepsGood(s: Sys, p: Pid)
    requires Good(s) && Prompt(s) && IsRunning(s, p) && s.procs[p].phase.Committing?
    ensures Good(DidCommit(s, p))
  {
    var s' := DidCommit(s, p);
    ReadyIsLegal(s, p);
    LegalRunKeepsInvariants(s.db, s.moves, s.procs[p].events);
    CommitFootprint(s, p);
    forall q | q in s'.procs ensures q < s'.nextPid && ProcOk(s', q, s'.procs[q]) {
      if q != p && s.procs[q].Running? {
        CommitSpares(s, p, q, s'.db);
        SparedStaysOk(s, s', q, s.procs[q]);
      }
    }
  }

  // ---------------------------------------------------------------- local steps

  /** A step of `p` that commits nothing keeps the invariant if it leaves the others alone and
      leaves `p` itself in order. */
  lemma LocalStep(s: Sys, s': Sys, p: Pid)
    requires Good(s) && s'.db == s.db && s'.moves == s.moves && s.nextPid <= s'.nextPid
    requires forall k :: k in s'.locks ==> s'.locks[k].deadline <= s'.clock + LOCK_TTL
    requires forall q :: q in s'.procs && q != p ==> q in s.procs && s'.procs[q] == s.procs[q] && Undisturbed(s, s', q)
    requires p in s'.procs ==> p < s'.nextPid && ProcOk(s', p, s'.procs[p])
    ensures Good(s')
  {
    forall q | q in s'.procs && q != p ensures ProcOk(s', q, s'.procs[q]) {
      UndisturbedStaysOk(s, s', q, s.procs[q]);
    }
  }

  /** The common case: only `p` moves, and at most takes or frees row locks. */
  lemma MoveKeepsGood(s: Sys, s': Sys, p: Pid)
    requires Good(s) && p in s.procs && p in s'.procs
    requires s' == s.(procs := s.procs[p := s'.procs[p]], rowLocks := s'.rowLocks)
    requires forall c :: c in s.rowLocks && s.rowLocks[c] != p ==> c in s'.rowLocks && s'.rowLocks[c] == s.rowLocks[c]
    requires ProcOk(s', p, s'.procs[p])
    ensures Good(s')
  {
    LocalStep(s, s', p);
  }

  lemma BeginOk(s: Sys, p: Pid, call: Call)
    requires p !in s.db.reservations && Valid(call) && (call.Cleanup? ==> call.now <= s.clock && Distinct(call.orders))
    ensures ProcOk(s, p, Begin(call))
  {
    assert Written(s.db, []) == map[];
    if KeysOf(call) == [] {
      FirstPhaseOk(s, p, Begin(call));
    } else if call.Cleanup? {
      assert forall k :: k in OrderKeys(call.orders) ==> k.OrderKey?;
    }
  }

  lemma SpawnKeepsGood(s: Sys, p: Pid, start: Proc)
    requires Good(s) && Enabled(s, Spawn(p, start))
    ensures Good(Next(s, Spawn(p, start)))
  {
    var s' := Next(s, Spawn(p, start));
    assert p !in s.db.reservations;
    if start.Running? {
      BeginOk(s', p, start.call);
    }
    LocalStep(s, s', p);
  }

  lemma TakeWildKeepsGood(s: Sys, p: Pid)
    requires Good(s) && Enabled(s, TakeWild(p))
    ensures Good(Next(s, TakeWild(p)))
  {
    LocalStep(s, Moved(s, p, s.procs[p].(locked := true)).(locks := Grab(s, p, AnyStockKey(s.procs[p].sku))), p);
  }

  lemma ChooseKeepsGood(s: Sys, p: Pid, w: string)
    requires Good(s) && Enabled(s, Choose(p, w))
    ensures Good(Next(s, Choose(p, w)))
  {
    var P := s.procs[p];
    var P' := Running(ReserveStock(P.order, Cell(P.sku, w), P.qty), Dropping, [AnyStockKey(P.sku)], map[], {}, []);
    MoveKeepsGood(s, Moved(s, p, P'), p);
  }

  lemma DropWildKeepsGood(s: Sys, p: Pid)
    requires Good(s) && Enabled(s, DropWild(p))
    ensures Good(Next(s, DropWild(p)))
  {
    var P := s.procs[p];
    var s' := Moved(s, p, P.(phase := Acquiring(KeysOf(P.call)))).(locks := s.locks - (set k | k in P.defers));
    LocalStep(s, s', p);
  }

  lemma SweepKeepsGood(s: Sys, p: Pid, found: seq<string>)
    requires Good(s) && Enabled(s, Sweep(p, found))
    ensures Good(Next(s, Sweep(p, found)))
  {
    var s' := Moved(s, p, Begin(Cleanup(s.clock, found)));
    BeginOk(s', p, Cleanup(s.clock, found));
    MoveKeepsGood(s, s', p);
  }

  lemma FirstPhaseOk(s: Sys, p: Pid, P: Proc)
    requires P.Running? && P.phase == FirstPhase(P.call) && P.events == []
    requires P.call.Cleanup? ==> Distinct(P.call.orders)
    ensures PhaseOk(s, p, P)
  {
    assert P.events + Ends([], P.call.How()) == [];
  }

  lemma TakeLockOk(s: Sys, s': Sys, p: Pid, k: Key)
    requires IsRunning(s, p) && ProcOk(s, p, s.procs[p]) && s.procs[p].phase.Acquiring?
    requires s.procs[p].phase.todo != [] && k == s.procs[p].phase.todo[0] && k !in s.locks
    requires IsRunning(s', p) && s' == s.(procs := s'.procs, locks := Grab(s, p, k))
    requires var rest := s.procs[p].phase.todo[1..];
             s'.procs[p] == s.procs[p].(
               phase := if rest == [] then FirstPhase(s.procs[p].call) else Acquiring(rest), defers := s.procs[p].defers + [k])
    ensures ProcOk(s', p, s'.procs[p])
  {
    var P, P' := s.procs[p], s'.procs[p];
    assert P.phase.todo == [k] + P.phase.todo[1..];
    assert Owns(s', p, P'.defers);
    assert forall x :: x in KeysOf(P.call) ==> x in P'.defers || x in P.phase.todo[1..];
    if P.phase.todo[1..] == [] {
      FirstPhaseOk(s', p, P');
    }
  }

  lemma TakeLockMoves(s: Sys, p: Pid, k: Key, P': Proc)
    requires Good(s) && IsRunning(s, p) && s.procs[p].phase.Acquiring?
    requires s.procs[p].phase.todo != [] && k == s.procs[p].phase.todo[0] && k !in s.locks
    requires var rest := s.procs[p].phase.todo[1..];
             P' == s.procs[p].(
               phase := if rest == [] then FirstPhase(s.procs[p].call) else Acquiring(rest), defers := s.procs[p].defers + [k])
    ensures Good(Moved(s, p, P').(locks := Grab(s, p, k)))
  {
    var s' := Moved(s, p, P').(locks := Grab(s, p, k));
    TakeLockOk(s, s', p, k);
    LocalStep(s, s', p);
  }

  lemma TakeLockKeepsGood(s: Sys, p: Pid)
    requires Good(s) && Enabled(s, TakeLock(p))
    ensures Good(Next(s, TakeLock(p)))
  {
    TakeLockMoves(s, p, s.procs[p].phase.todo[0], Next(s, TakeLock(p)).procs[p]);
  }

  lemma FailKeepsGood(s: Sys, p: Pid)
    requires Good(s) && p in s.procs
    ensures Good(Failed(s, p))
  {
    var s' := Failed(s, p);
    assert ProcOk(s', p, s'.procs[p]);
    MoveKeepsGood(s, s', p);
  }

  lemma OwnsTheRest(s: Sys, s': Sys, p: Pid, ks: seq<Key>, i: nat)
    requires Owns(s, p, ks) && i < |ks| && s'.locks == s.locks - {ks[i]}
    ensures Owns(s', p, ks[..i] + ks[i + 1..])
  {
    var rest := ks[..i] + ks[i + 1..];
    assert forall j :: 0 <= j < |rest| ==> rest[j] == ks[if j < i then j else j + 1];
    forall k | k in rest && !k.AnyStockKey? ensures k in s'.locks && s'.locks[k].holder == p {
      var j :| 0 <= j < |rest| && rest[j] == k;
      assert ks[if j < i then j else j + 1] == k && k in ks;
    }
    forall j, m | 0 <= j < m < |rest| ensures rest[j] != rest[m] {
      assert rest[j] == ks[if j < i then j else j + 1] && rest[m] == ks[if m < i then m else m + 1];
    }
  }

  lemma UnlockKeepsGood(s: Sys, p: Pid, i: nat)
    requires Good(s) && p in s.procs && s.procs[p].Leaving? && i < |s.procs[p].defers|
    ensures var ks := s.procs[p].defers;
            Good(Moved(s, p, Leaving(ks[..i] + ks[i + 1..])).(locks := s.locks - {ks[i]}))
  {
    var ks := s.procs[p].defers;
    var s' := Moved(s, p, Leaving(ks[..i] + ks[i + 1..])).(locks := s.locks - {ks[i]});
    OwnsTheRest(s, s', p, ks, i);
    LocalStep(s, s', p);
  }

  lemma GoneKeepsGood(s: Sys, p: Pid, rowLocks: map<Cell, Pid>)
    requires Good(s) && p in s.procs
    requires forall c :: c in s.rowLocks && s.rowLocks[c] != p ==> c in rowLocks && rowLocks[c] == s.rowLocks[c]
    ensures Good(s.(procs := s.procs - {p}, rowLocks := rowLocks))
  {
    LocalStep(s, s.(procs := s.procs - {p}, rowLocks := rowLocks), p);
  }

  lemma ScanKeepsGood(s: Sys, p: Pid)
    requires Good(s) && Enabled(s, Scan(p))
    ensures Good(Next(s, Scan(p)))
  {
    var P := s.procs[p];
    if Taken(s.db, Wanted(P.call.order, P.call.cell, P.call.qty)) {
      FailKeepsGood(s, p);
    } else {
      MoveKeepsGood(s, Moved(s, p, P.(phase := Holding)), p);
    }
  }

  /** A transaction with one effect on one row has prepared exactly that row. */
  lemma OneRowWritten(t: Tables, e: Event, r: Row)
    requires r == Bump(RowAt(t, e.Where()), e)
    ensures map[][e.Where() := r] == Written(t, [e])
  {
    WrittenOneMore(t, [], e);
    assert [] + [e] == [e];
    assert Written(t, []) == map[];
  }

  lemma HoldDoes(t: Tables, call: Call, e: Event)
    requires Sound(t) && Valid(call) && call.ReserveStock? && !Taken(t, Wanted(call.order, call.cell, call.qty))
    requires call.cell in t.stocks && call.qty <= GoAvailable(t.stocks[call.cell])
    requires e.Hold? && e.id !in t.reservations && e.row == Reservation(call.order, call.cell, call.qty, Reserved, e.row.expiry)
    ensures Does(t, call, [e])
    ensures map[][call.cell := GoStep(t.stocks[call.cell], e)] == Written(t, [e])
  {
    ProposalsPassChecks(t.stocks[call.cell], call.qty);
    OneRowWritten(t, e, GoStep(t.stocks[call.cell], e));
  }

  lemma HoldRowOk(s: Sys, p: Pid)
    requires Enabled(s, HoldRow(p)) && Sound(s.db) && ProcOk(s, p, s.procs[p])
    requires forall k :: k in s.locks ==> s.locks[k].deadline <= s.clock + LOCK_TTL
    ensures ProcOk(DidHoldRow(s, p), p, DidHoldRow(s, p).procs[p])
  {
    var s' := DidHoldRow(s, p);
    var P, P' := s.procs[p], s'.procs[p];
    var e := Hold(p, Reservation(P.call.order, P.call.cell, P.call.qty, Reserved, s.clock + HOLD_TIME));
    HoldDoes(s.db, P.call, e);
    assert P.writes == map[] && P'.events == [e];
    assert StockKey(P.call.cell) in KeysOf(P.call);
    StillOk(s, s', p, P, P');
  }

  lemma HoldRowKeepsGood(s: Sys, p: Pid)
    requires Good(s) && Enabled(s, HoldRow(p))
    ensures Good(Next(s, HoldRow(p)))
  {
    HoldRowOk(s, p);
    MoveKeepsGood(s, DidHoldRow(s, p), p);
  }

  lemma ListingExtendsPlan(t: Tables, call: Call, es: seq<Event>, o: string, rows: seq<(Id, Reservation)>, rest: seq<string>)
    requires OnPlan(t, call, es, [], [o] + rest) && Lists(t.reservations, call, o, rows)
    ensures OnPlan(t, call, es, rows, rest)
  {
    var plan, plan' := es + Ends([], call.How()), es + Ends(rows, call.How());
    assert plan == es;
    assert ([o] + rest)[0] == o && ([o] + rest)[1..] == rest;
    forall i, j | 0 <= i < j < |plan'| ensures plan'[i].id != plan'[j].id {
      if i < |es| <= j {
        assert es[i] in plan && es[i].row.order != o;
      }
    }
    forall e | e in plan' ensures e.Settle? && call.Picks(e.row) && e.row.order !in rest {
      if e in es {
        assert e in plan;
      } else {
        var i :| 0 <= i < |plan'| && plan'[i] == e;
      }
    }
    if call.Cleanup? {
      IdsAreSettled(plan);
      IdsAreSettled(plan');
      forall id | id in t.reservations && call.Picks(t.reservations[id]) && t.reservations[id].order !in rest
        ensures id in Ids(plan')
      {
        if t.reservations[id].order == o {
          var i :| 0 <= i < |rows| && rows[i].0 == id;
          assert plan'[|es| + i] in plan' && plan'[|es| + i].id == id;
        } else {
          assert id in Ids(plan);
          var e :| e in plan && e.Settle? && e.id == id;
          assert e in plan';
        }
      }
    }
  }

  lemma ListOrderKeepsGood(s: Sys, p: Pid, rows: seq<(Id, Reservation)>)
    requires Good(s) && Enabled(s, ListOrder(p, rows))
    ensures Good(Next(s, ListOrder(p, rows)))
  {
    var P := s.procs[p];
    var os := P.phase.orders;
    assert os == [os[0]] + os[1..];
    ListingExtendsPlan(s.db, P.call, P.events, os[0], rows, os[1..]);
    MoveKeepsGood(s, Moved(s, p, P.(phase := AfterRow(rows, os[1..]))), p);
  }

  /** One turn of a settlement loop: the Go arithmetic is exact, so what it leaves in the private
      row is the effect of the settlement. */
  lemma SettlementIsExact(t: Tables, es: seq<Event>, id: Id, v: Reservation, how: Ending)
    requires Sound(t) && Listed(t.reservations, es + [Settle(id, v, how)], how)
    ensures GoStep(RowAt(ApplyAll(t, es), v.cell), Settle(id, v, how)) == Bump(RowAt(ApplyAll(t, es), v.cell), Settle(id, v, how))
  {
    NextOfPlan(t, es, Settle(id, v, how), how);
    CoveredStepIsExact(RowAt(ApplyAll(t, es), v.cell), id, v, how);
  }

  lemma CoveredStepIsExact(r: Row, id: Id, v: Reservation, how: Ending)
    requires InBounds(r) && IsQuantity(v.qty) && v.qty <= r.reserved
    ensures GoStep(r, Settle(id, v, how)) == Bump(r, Settle(id, v, how))
  {
    ClampIsIdleExactlyWhenCovered(r, v.qty);
  }

  lemma PlanMovesOn(es: seq<Event>, rows: seq<(Id, Reservation)>, how: Ending)
    requires rows != []
    ensures (es + [Settle(rows[0].0, rows[0].1, how)]) + Ends(rows[1..], how) == es + Ends(rows, how)
    ensures (es + Ends(rows, how))[..|es| + 1] == es + [Settle(rows[0].0, rows[0].1, how)]
  {
  }

  lemma OnPlanMovesOn(t: Tables, call: Call, es: seq<Event>, rows: seq<(Id, Reservation)>, orders: seq<string>)
    requires rows != [] && OnPlan(t, call, es, rows, orders)
    ensures OnPlan(t, call, es + [Settle(rows[0].0, rows[0].1, call.How())], rows[1..], orders)
    ensures Listed(t.reservations, es + [Settle(rows[0].0, rows[0].1, call.How())], call.How())
  {
    PlanMovesOn(es, rows, call.How());
    ListedPrefix(t.reservations, es + Ends(rows, call.How()), call.How(), |es| + 1);
  }

  lemma CurrentIsPrepared(s: Sys, es: seq<Event>, c: Cell)
    ensures Current(s, Written(s.db, es), c) == RowAt(ApplyAll(s.db, es), c)
  {
    OtherRowsStay(s.db, es);
  }

  lemma SettleWrites(s: Sys, es: seq<Event>, id: Id, v: Reservation, how: Ending)
    requires Sound(s.db) && Listed(s.db.reservations, es + [Settle(id, v, how)], how)
    ensures Written(s.db, es)[v.cell := GoStep(Current(s, Written(s.db, es), v.cell), Settle(id, v, how))]
         == Written(s.db, es + [Settle(id, v, how)])
  {
    CurrentIsPrepared(s, es, v.cell);
    SettlementIsExact(s.db, es, id, v, how);
    WrittenOneMore(s.db, es, Settle(id, v, how));
  }

  /** What is left to check of a process that has only changed its own transaction. */
  lemma StillOk(s: Sys, s': Sys, p: Pid, P: Proc, P': Proc)
    requires P.Running? && P'.Running? && ProcOk(s, p, P) && s' == s.(procs := s'.procs, rowLocks := s'.rowLocks)
    requires P' == P.(phase := P'.phase, writes := P'.writes, inserts := P'.inserts, events := P'.events)
    requires !P.phase.Dropping? && !P.phase.Acquiring?
    requires P'.writes == Written(s.db, P'.events)
    requires forall c :: c in P'.writes ==> HasRow(s', p, c)
    requires PhaseOk(s', p, P')
    ensures ProcOk(s', p, P')
  {
  }

  /** The loop goes on with the next row, or is ready to commit. */
  lemma SettlePhaseOk(s: Sys, s': Sys, p: Pid, P: Proc, P': Proc)
    requires P.Running? && P.phase.Settling? && P.phase.rows != [] && P.call.Settles() && s'.db == s.db
    requires OnPlan(s.db, P.call, P.events, P.phase.rows, P.phase.orders)
    requires P'.Running? && P'.call == P.call && P'.phase == AfterRow(P.phase.rows[1..], P.phase.orders)
    requires P'.events == P.events + [Settle(P.phase.rows[0].0, P.phase.rows[0].1, P.call.How())]
    ensures PhaseOk(s', p, P') && Listed(s.db.reservations, P'.events, P.call.How())
  {
    OnPlanMovesOn(s.db, P.call, P.events, P.phase.rows, P.phase.orders);
  }

  lemma SettleRowOk(s: Sys, p: Pid)
    requires IsRunning(s, p) && s.procs[p].phase.Settling? && s.procs[p].phase.rows != []
    requires Sound(s.db) && ProcOk(s, p, s.procs[p])
    ensures ProcOk(DidSettleRow(s, p), p, DidSettleRow(s, p).procs[p])
  {
    var s', P := DidSettleRow(s, p), s.procs[p];
    SettlePhaseOk(s, s', p, P, s'.procs[p]);
    SettleWrites(s, P.events, P.phase.rows[0].0, P.phase.rows[0].1, P.call.How());
    StillOk(s, s', p, P, s'.procs[p]);
  }

  lemma SettleRowKeepsGood(s: Sys, p: Pid)
    requires Good(s) && Enabled(s, SettleRow(p))
    ensures Good(Next(s, SettleRow(p)))
  {
    SettleRowOk(s, p);
    MoveKeepsGood(s, DidSettleRow(s, p), p);
  }

  lemma SafetyOk(s: Sys, p: Pid)
    requires Enabled(s, Read(p)) && ProcOk(s, p, s.procs[p])
    requires s.procs[p].call.UpdateSafety? && s.procs[p].call.cell in s.db.stocks
    ensures ProcOk(DidRead(s, p), p, DidRead(s, p).procs[p])
  {
    var P, P' := s.procs[p], DidRead(s, p).procs[p];
    var e := SetSafety(P.call.cell, P.call.level);
    OneRowWritten(s.db, e, GoStep(s.db.stocks[P.call.cell], e));
    assert P.writes == map[] && P'.events == [e];
    assert Does(s.db, P.call, [e]);
    StillOk(s, DidRead(s, p), p, P, P');
  }

  lemma SafetyKeepsGood(s: Sys, p: Pid)
    requires Good(s) && Enabled(s, Read(p)) && s.procs[p].call.UpdateSafety?
    ensures Good(DidRead(s, p))
  {
    if s.procs[p].call.cell in s.db.stocks {
      SafetyOk(s, p);
      MoveKeepsGood(s, DidRead(s, p), p);
    } else {
      FailKeepsGood(s, p);
    }
  }

  lemma ReadKeepsGood(s: Sys, p: Pid)
    requires Good(s) && Enabled(s, Read(p)) && !s.procs[p].call.UpdateSafety?
    ensures Good(DidRead(s, p))
  {
    MoveKeepsGood(s, DidRead(s, p), p);
  }

  lemma ReadTargetKeepsGood(s: Sys, p: Pid)
    requires Good(s) && Enabled(s, ReadTarget(p))
    ensures Good(DidReadTarget(s, p))
  {
    MoveKeepsGood(s, DidReadTarget(s, p), p);
  }

  lemma ReceiptDoes(t: Tables, call: Call, r: Row)
    requires Sound(t) && Valid(call) && call.AddReceipt? && r == RowAt(t, call.cell) && Check(GoAddTotal(r, call.qty))
    ensures var e := Receive(call.cell, call.qty, call.reference);
            && Does(t, call, [e])
            && map[][call.cell := GoStep(r, e)] == Written(t, [e])
  {
    var e := Receive(call.cell, call.qty, call.reference);
    AddTotalIsExactOrRefused(r, call.qty);
    OneRowWritten(t, e, GoStep(r, e));
  }

  lemma WriteReceiptOk(s: Sys, p: Pid)
    requires Enabled(s, Write(p)) && s.procs[p].call.AddReceipt? && Sound(s.db) && ProcOk(s, p, s.procs[p])
    ensures ProcOk(DidWrite(s, p), p, DidWrite(s, p).procs[p])
  {
    var P, P' := s.procs[p], DidWrite(s, p).procs[p];
    ReceiptDoes(s.db, P.call, Or(P.phase.seen));
    assert P.writes == map[] && P'.events == [Receive(P.call.cell, P.call.qty, P.call.reference)];
    StillOk(s, DidWrite(s, p), p, P, P');
  }

  lemma TwoRowsWritten(t: Tables, d: Event, e: Event, r: Row, r': Row)
    requires d.Where() != e.Where()
    requires r == Bump(RowAt(t, d.Where()), d) && r' == Bump(RowAt(t, e.Where()), e)
    ensures map[][d.Where() := r][e.Where() := r'] == Written(t, [d, e])
  {
    OneRowWritten(t, d, r);
    WrittenOneMore(t, [d], e);
    assert [d] + [e] == [d, e];
    SingleEvent(t, d);
  }

  lemma TransferDoes(t: Tables, call: Call, r: Row, r': Row)
    requires Sound(t) && Valid(call) && call.Transfer?
    requires Cell(call.sku, call.source) in t.stocks && r == t.stocks[Cell(call.sku, call.source)] && call.qty <= Available(r)
    requires r' == RowAt(t, Cell(call.sku, call.target)) && Check(GoAddTotal(r', call.qty))
    ensures var d := Dispatch(Cell(call.sku, call.source), call.qty, call.reference);
            var e := Arrive(Cell(call.sku, call.target), call.qty, call.reference);
            && Does(t, call, [d, e])
            && map[][d.cell := GoStep(r, d)][e.cell := GoStep(r', e)] == Written(t, [d, e])
  {
    var d := Dispatch(Cell(call.sku, call.source), call.qty, call.reference);
    var e := Arrive(Cell(call.sku, call.target), call.qty, call.reference);
    ProposalsPassChecks(r, call.qty);
    AddTotalIsExactOrRefused(r', call.qty);
    TwoRowsWritten(t, d, e, GoStep(r, d), GoStep(r', e));
  }

  lemma WriteTransferOk(s: Sys, p: Pid)
    requires IsRunning(s, p) && s.procs[p].phase.Writing? && s.procs[p].call.Transfer? && Sound(s.db) && ProcOk(s, p, s.procs[p])
    requires Check(GoAddTotal(Or(s.procs[p].phase.seen), s.procs[p].call.qty))
    ensures ProcOk(DidWrite(s, p), p, DidWrite(s, p).procs[p])
  {
    var P, P' := s.procs[p], DidWrite(s, p).procs[p];
    TransferDoes(s.db, P.call, Or(P.phase.origin), Or(P.phase.seen));
    var d := Dispatch(Cell(P.call.sku, P.call.source), P.call.qty, P.call.reference);
    var e := Arrive(Cell(P.call.sku, P.call.target), P.call.qty, P.call.reference);
    assert P.writes == map[] && P'.events == [d, e];
    StillOk(s, DidWrite(s, p), p, P, P');
  }

  lemma WriteReceiptKeepsGood(s: Sys, p: Pid)
    requires Good(s) && Enabled(s, Write(p)) && s.procs[p].call.AddReceipt?
    ensures Good(DidWrite(s, p))
  {
    WriteReceiptOk(s, p);
    MoveKeepsGood(s, DidWrite(s, p), p);
  }

  lemma WriteTransferKeepsGood(s: Sys, p: Pid)
    requires Good(s) && Enabled(s, Write(p)) && s.procs[p].call.Transfer?
    ensures Good(DidWrite(s, p))
  {
    WriteTransferOk(s, p);
    MoveKeepsGood(s, DidWrite(s, p), p);
  }

  /** A lease that runs out on a prompt system is no longer anybody's. */
  lemma ExpireKeepsGood(s: Sys, k: Key)
    requires Good(s) && Prompt(s) && Enabled(s, Expire(k))
    ensures Good(s.(locks := s.locks - {k}))
  {
    forall q | q in s.procs ensures ProcOk(s.(locks := s.locks - {k}), q, s.procs[q]) {
      ExpiryIsNotMine(s, s.(locks := s.locks - {k}), q, k);
    }
  }

  lemma ExpiryIsNotMine(s: Sys, s': Sys, q: Pid, k: Key)
    requires q in s.procs && ProcOk(s, q, s.procs[q]) && s' == s.(locks := s.locks - {k})
    requires k in s.locks && !(k in DefersOf(s.procs[q]) && s.locks[k].holder == q)
    ensures ProcOk(s', q, s.procs[q])
  {
    var Q := s.procs[q];
    if Q.Running? && Q.phase.Committing? && Q.call.ReserveStock? {
      assert StockKey(Q.call.cell) in KeysOf(Q.call);
    }
  }

  lemma TickKeepsGood(s: Sys, d: nat)
    requires Good(s)
    ensures Good(Next(s, Tick(d)))
  {
    var s' := Next(s, Tick(d));
    forall q | q in s.procs ensures ProcOk(s', q, s.procs[q]) {
      UndisturbedStaysOk(s, s', q, s.procs[q]);
    }
  }

  lemma FailStep(s: Sys, p: Pid)
    requires Good(s) && Enabled(s, Fail(p))
    ensures Good(Next(s, Fail(p)))
  {
    FailKeepsGood(s, p);
  }

  lemma UnlockStep(s: Sys, p: Pid, i: nat)
    requires Good(s) && Enabled(s, Unlock(p, i))
    ensures Good(Next(s, Unlock(p, i)))
  {
    UnlockKeepsGood(s, p, i);
  }

  lemma FinishStep(s: Sys, p: Pid)
    requires Good(s) && Enabled(s, Finish(p))
    ensures Good(Next(s, Finish(p)))
  {
    GoneKeepsGood(s, p, s.rowLocks);
  }

  lemma CrashStep(s: Sys, p: Pid)
    requires Good(s) && Enabled(s, Crash(p))
    ensures Good(Next(s, Crash(p)))
  {
    GoneKeepsGood(s, p, Freed(s.rowLocks, p));
  }

  lemma ExpireStep(s: Sys, k: Key)
    requires Good(s) && Prompt(s) && Enabled(s, Expire(k))
    ensures Good(Next(s, Expire(k)))
  {
    ExpireKeepsGood(s, k);
  }

  lemma CommitStep(s: Sys, p: Pid)
    requires Good(s) && Prompt(s) && Enabled(s, CommitTx(p))
    ensures Good(Next(s, CommitTx(p)))
  {
    CommitKeepsGood(s, p);
  }

  lemma EarlyStep(s: Sys, l: Label)
    requires Good(s) && Enabled(s, l) && (l.Spawn? || l.TakeWild? || l.Choose? || l.DropWild? || l.Sweep? || l.TakeLock?)
    ensures Good(Next(s, l))
  {
    match l
    case Spawn(p, start) => SpawnKeepsGood(s, p, start);
    case TakeWild(p) => TakeWildKeepsGood(s, p);
    case Choose(p, w) => ChooseKeepsGood(s, p, w);
    case DropWild(p) => DropWildKeepsGood(s, p);
    case Sweep(p, found) => SweepKeepsGood(s, p, found);
    case TakeLock(p) => TakeLockKeepsGood(s, p);
  }

  lemma ReservationStep(s: Sys, l: Label)
    requires Good(s) && Enabled(s, l) && (l.Scan? || l.HoldRow? || l.ListOrder? || l.SettleRow?)
    ensures Good(Next(s, l))
  {
    match l
    case Scan(p) => ScanKeepsGood(s, p);
    case HoldRow(p) => HoldRowKeepsGood(s, p);
    case ListOrder(p, rows) => ListOrderKeepsGood(s, p, rows);
    case SettleRow(p) => SettleRowKeepsGood(s, p);
  }

  lemma RowStep(s: Sys, l: Label)
    requires Good(s) && Enabled(s, l) && (l.Read? || l.ReadTarget? || l.Write?)
    ensures Good(Next(s, l))
  {
    match l
    case Read(p) =>
      if s.procs[p].call.UpdateSafety? {
        SafetyKeepsGood(s, p);
      } else {
        ReadKeepsGood(s, p);
      }
    case ReadTarget(p) => ReadTargetKeepsGood(s, p);
    case Write(p) =>
      if s.procs[p].call.AddReceipt? {
        WriteReceiptKeepsGood(s, p);
      } else {
        WriteTransferKeepsGood(s, p);
      }
  }

  lemma LateStep(s: Sys, l: Label)
    requires Good(s) && Prompt(s) && Enabled(s, l)
    requires l.AtEnd()
    ensures Good(Next(s, l))
  {
    match l
    case CommitTx(p) => CommitStep(s, p);
    case Fail(p) => FailStep(s, p);
    case Unlock(p, i) => UnlockStep(s, p, i);
    case Finish(p) => FinishStep(s, p);
    case Crash(p) => CrashStep(s, p);
    case Tick(d) => TickKeepsGood(s, d);
    case Expire(k) => ExpireStep(s, k);
  }

  lemma StepKeepsGood(s: Sys, l: Label)
    requires Good(s) && Prompt(s) && Enabled(s, l)
    ensures Good(Next(s, l))
  {
    if l.AtEnd() {
      LateStep(s, l);
    } else if l.Read? || l.ReadTarget? || l.Write? {
      RowStep(s, l);
    } else if l.Scan? || l.OnRows() {
      ReservationStep(s, l);
    } else {
      EarlyStep(s, l);
    }
  }

  /** Concurrent accounting: after every schedule in which no lock expires mid-call, every reserved
      counter is the sum of the live reservations of its cell, every live reservation has a stock
      row, no two live reservations clash, and the movement log replays to the tables. */
  lemma {:induction false} ConcurrentAccounting(ls: seq<Label>)
    requires PromptRun(ls)
    ensures Good(Exec(ls))
    ensures Sound(Exec(ls).db) && Books(Exec(ls).db, Exec(ls).moves)
    decreases |ls|
  {
    if ls == [] {
      EmptyTablesAreSound();
    } else {
      var n := |ls| - 1;
      ConcurrentAccounting(ls[..n]);
      if Enabled(Exec(ls[..n]), ls[n]) {
        StepKeepsGood(Exec(ls[..n]), ls[n]);
      }
    }
  }
}
