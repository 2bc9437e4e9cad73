/** The inventory use cases as they are written: methods that lock keys, load rows, mutate them in
    place, write them back and undo everything on failure.  Each is proved against `Calls.Does`. */
module Service {
  import opened Stock
  import opened Tables
  import opened Plans
  import opened Calls
  import opened Loops
  import opened Options
  import opened Orders
  import opened Placement
  import opened Skus

  datatype Saved = Saved(t: Tables, moves: seq<Movement>)

  /** The service over its database and its Redis.  `locks` is the set of keys that are set. */
  class Inventory {
    var stocks: map<Cell, Row>
    var reservations: map<Id, Reservation>
    var moves: seq<Movement>
    var locks: set<Key>
    var nextId: Id
    var alerts: seq<Cell>  // published on inventory.stock.low
    var healthy: bool      // Redis and the database carry out what they are asked to
    const warehouses: set<string>

    function T(): Tables
      reads `stocks, `reservations
    {
      Tables(stocks, reservations)
    }

    ghost predicate Valid()
      reads `stocks, `reservations, `moves, `nextId
    {
      Consistent(T(), moves, nextId)
    }

    constructor (warehouses: set<string>, healthy: bool)
      ensures Valid() && T() == NO_TABLES && moves == [] && locks == {} && alerts == []
      ensures this.warehouses == warehouses && this.healthy == healthy
    {
      this.warehouses, this.healthy := warehouses, healthy;
      stocks, reservations, moves, locks, nextId, alerts := map[], map[], [], {}, 0, [];
      new;
      EmptyTablesAreSound();
    }

    // -------------------------------------------------------------- Redis and the database

    /** SETNX. */
    method Lock(k: Key) returns (r: Outcome<()>)
      modifies `locks
      ensures r.Ok? ==> k !in old(locks) && locks == old(locks) + {k}
      ensures r.Err? ==> locks == old(locks) && r.error in {LockBusy, LockFailed}
      ensures r == Err(LockBusy) ==> k in locks
      ensures r == Err(LockFailed) ==> !healthy
    {
      var failed := Database();
      if failed {
        r := Err(LockFailed);
      } else if k in locks {
        r := Err(LockBusy);
      } else {
        locks := locks + {k};
        r := Ok(());
      }
    }

    /** DEL, whoever set the key. */
    method Unlock(k: Key)
      modifies `locks
      ensures locks == old(locks) - {k}
    {
      locks := locks - {k};
    }

    /** Any statement, COMMIT itself and any Redis command may fail. */
    method Database() returns (failed: bool)
      ensures healthy ==> !failed
    {
      failed := *;
      if healthy {
        failed := false;
      }
    }

    method Rollback(saved: Saved)
      modifies `stocks, `reservations, `moves
      ensures T() == saved.t && moves == saved.moves
    {
      stocks, reservations, moves := saved.t.stocks, saved.t.reservations, saved.moves;
    }

    /** GetProductStockForUpdate: null when there is no such row. */
    method Fetch(c: Cell) returns (ps: ProductStock?, failed: bool)
      ensures failed ==> ps == null && !healthy
      ensures !failed ==> (ps == null <==> c !in stocks)
      ensures ps != null ==> fresh(ps) && c in stocks && ps.AsRow() == stocks[c]
    {
      ps := null;
      failed := Database();
      if !failed && c in stocks {
        ps := new ProductStock(stocks[c]);
      }
    }

    /** UpsertProductStock: the CHECK constraints refuse a row exactly when it violates them. */
    method Upsert(c: Cell, ps: ProductStock) returns (r: Outcome<()>)
      modifies `stocks
      ensures r.Ok? ==> Check(ps.AsRow()) && stocks == old(stocks)[c := ps.AsRow()]
      ensures r.Err? ==> stocks == old(stocks) && r.error in {DbFailed, CheckRefused}
      ensures r == Err(DbFailed) ==> !healthy
      ensures r == Err(CheckRefused) ==> !Check(ps.AsRow())
    {
      var failed := Database();
      if failed {
        return Err(DbFailed);
      }
      if !Check(ps.AsRow()) {
        return Err(CheckRefused);
      }
      stocks := stocks[c := ps.AsRow()];
      return Ok(());
    }

    /** GetReservationByOrder: no ORDER BY, so in any order. */
    method ListByOrder(o: string) returns (rows: seq<(Id, Reservation)>)
      ensures IsListing(reservations, o, rows)
    {
      var ids := set id | id in reservations && reservations[id].order == o;
      rows := Collect(ids);
      assert forall id :: id in reservations && reservations[id].order == o ==> id in ids;
    }

    method Collect(ids: set<Id>) returns (rows: seq<(Id, Reservation)>)
      requires ids <= reservations.Keys
      ensures forall i :: 0 <= i < |rows| ==> rows[i].0 in ids && reservations[rows[i].0] == rows[i].1
      ensures forall i, j :: 0 <= i < j < |rows| ==> rows[i].0 != rows[j].0
      ensures forall id :: id in ids ==> exists i :: 0 <= i < |rows| && rows[i].0 == id
    {
      rows := [];
      var rest := ids;
      while rest != {}
        invariant rest <= ids
        invariant forall i :: 0 <= i < |rows| ==> rows[i].0 in ids && rows[i].0 !in rest && reservations[rows[i].0] == rows[i].1
        invariant forall i, j :: 0 <= i < j < |rows| ==> rows[i].0 != rows[j].0
        invariant forall id :: id in ids && id !in rest ==> exists i :: 0 <= i < |rows| && rows[i].0 == id
        decreases rest
      {
        var id :| id in rest;
        ghost var before := rows;
        rows := rows + [(id, reservations[id])];
        rest := rest - {id};
        assert rows[|before|].0 == id;
        forall x | x in ids && x !in rest ensures exists i :: 0 <= i < |rows| && rows[i].0 == x {
          if x != id {
            var i :| 0 <= i < |before| && before[i].0 == x;
            assert rows[i].0 == x;
          }
        }
      }
    }

    /** The statements every settlement loop runs for one reservation. */
    method SettleRow(id: Id, v: Reservation, how: Ending) returns (r: Outcome<bool>)
      modifies `stocks, `reservations, `moves
      ensures r.Err? ==> r.error in {DbFailed, StockNotFound, CheckRefused}
      ensures r == Err(DbFailed) ==> !healthy
      ensures r == Err(StockNotFound) ==> v.cell !in old(stocks)
      ensures r == Err(CheckRefused) ==> v.cell in old(stocks) && !Check(GoStep(old(stocks)[v.cell], Settle(id, v, how)))
      ensures r.Ok? ==>
                && v.cell in old(stocks)
                && stocks == old(stocks)[v.cell := GoStep(old(stocks)[v.cell], Settle(id, v, how))]
                && reservations == Rewrite(old(reservations), Settle(id, v, how))
                && moves == old(moves) + Logged(Settle(id, v, how))
                && r.value == IsLow(stocks[v.cell])
    {
      var ps, failed := Fetch(v.cell);
      if failed {
        return Err(DbFailed);
      }
      if ps == null {
        return Err(StockNotFound);
      }
      if how == Confirming {
        ps.Deduct(v.qty);
      } else {
        ps.Release(v.qty);
      }
      var u := Upsert(v.cell, ps);
      if u.Err? {
        return Err(u.error);
      }
      failed := Database();
      if failed {
        return Err(DbFailed);
      }
      moves := moves + [Movement(if how == Confirming then Out else Release, v.cell, v.qty, v.order)];
      failed := Database();
      if failed {
        return Err(DbFailed);
      }
      if how == Expiring {
        reservations := reservations - {id};
      } else if id in reservations {
        reservations := reservations[id := reservations[id].(status := if how == Confirming then Confirmed else Released)];
      }
      return Ok(ps.AvailableQuantity() < ps.safety);
    }

    /** The same in the middle of a loop that began on `t`: it cannot miss the row, no CHECK can refuse
        it, and what it leaves is the exact effect. */
    method SettleNext(ghost t: Tables, ghost ms: seq<Movement>, ghost call: Call, ghost es: seq<Event>, id: Id, v: Reservation, how: Ending)
      returns (r: Outcome<bool>)
      requires Sound(t) && how == call.How() && Listed(t.reservations, es + [Settle(id, v, how)], how)
      requires T() == ApplyAll(t, es) && moves == ms + LoggedAll(es)
      modifies `stocks, `reservations, `moves
      ensures r.Err? ==> r.error == DbFailed && !healthy
      ensures r.Ok? ==> T() == ApplyAll(t, es + [Settle(id, v, how)]) && moves == ms + LoggedAll(es + [Settle(id, v, how)])
      ensures r.Ok? ==> r.value == IsLow(RowAt(T(), v.cell))
    {
      Turn(t, call, es, id, v);
      r := SettleRow(id, v, how);
    }

    // -------------------------------------------------------------- release

    method ReleaseStock(order: string) returns (r: Outcome<int>)
      requires Valid()
      modifies `stocks, `reservations, `moves, `locks, `nextId, `alerts
      ensures Valid() && locks == old(locks) && alerts == old(alerts)
      ensures r.Err? ==> T() == old(T()) && moves == old(moves)
      ensures r.Ok? ==> exists es :: Did(old(T()), old(moves), Call.ReleaseStock(order), es, T(), moves)
      ensures r.Ok? ==> SettledTables(old(T()), Call.ReleaseStock(order), T())
      ensures r.Ok? ==> IsCount(old(reservations), order, r.value)
      ensures r == Err(BadArgument) <==> order == ""
      ensures r.Err? ==> r.error in {BadArgument, LockBusy, LockFailed, DbFailed} && (Broken(r.error) ==> !healthy)
      ensures healthy && order != "" ==> (r.Ok? <==> OrderKey(order) !in old(locks))
    {
      if order == "" {
        return Err(BadArgument);
      }
      var l := Lock(OrderKey(order));
      if l.Err? {
        return Err(l.error);
      }
      ghost var es;
      r, es := ReleaseLocked(order);
      Unlock(OrderKey(order));
      assert r.Ok? ==> Did(old(T()), old(moves), Call.ReleaseStock(order), es, T(), moves);
    }

    /** What follows while the order's key is held. */
    method ReleaseLocked(order: string) returns (r: Outcome<int>, ghost es: seq<Event>)
      requires Valid()
      modifies `stocks, `reservations, `moves
      ensures Valid()
      ensures r.Err? ==> r == Err(DbFailed) && !healthy && T() == old(T()) && moves == old(moves)
      ensures r.Ok? ==> Did(old(T()), old(moves), Call.ReleaseStock(order), es, T(), moves)
      ensures r.Ok? ==> SettledTables(old(T()), Call.ReleaseStock(order), T())
      ensures r.Ok? ==> IsCount(old(reservations), order, r.value)
    {
      r, es := ReleaseTx(order);
      if r.Ok? {
        OneOrderMeaning(old(T()), old(moves), nextId, Call.ReleaseStock(order), es);
      }
    }

    method ReleaseTx(order: string) returns (r: Outcome<int>, ghost es: seq<Event>)
      requires Sound(T())
      modifies `stocks, `reservations, `moves
      ensures r.Err? ==> r == Err(DbFailed) && !healthy && T() == old(T()) && moves == old(moves)
      ensures r.Ok? ==>
                && Does(old(T()), Call.ReleaseStock(order), es)
                && T() == ApplyAll(old(T()), es)
                && moves == old(moves) + LoggedAll(es)
                && r.value == Counted(es, order)
    {
      es := [];
      var failed := Database();
      if failed {
        return Err(DbFailed), es;
      }
      var saved := Saved(T(), moves);
      var rows := ListByOrder(order);
      es := Chosen(Call.ReleaseStock(order), rows);
      OneOrderDone(saved.t.reservations, Call.ReleaseStock(order), rows);
      r := ReleaseRows(order, rows);
      if r.Ok? {
        failed := Database();
        if failed {
          r := Err(DbFailed);
        }
      }
      if r.Err? {
        Rollback(saved);
      }
    }

    /** One turn for a live reservation: its release and the count. */
    method ReleaseNext(ghost t: Tables, ghost ms: seq<Movement>, order: string, rows: seq<(Id, Reservation)>, n: nat, released: int)
      returns (r: Outcome<int>)
      requires n < |rows| && rows[n].1.order == order && rows[n].1.status == Reserved
      requires Sound(t) && Listed(t.reservations, Chosen(Call.ReleaseStock(order), rows), Releasing)
      requires Looped(t, ms, Call.ReleaseStock(order), rows[..n], T(), moves)
      requires released == Counted(Chosen(Call.ReleaseStock(order), rows[..n]), order)
      modifies `stocks, `reservations, `moves
      ensures r.Err? ==> r.error == DbFailed && !healthy
      ensures r.Ok? ==> Looped(t, ms, Call.ReleaseStock(order), rows[..n + 1], T(), moves)
      ensures r.Ok? ==> r.value == Counted(Chosen(Call.ReleaseStock(order), rows[..n + 1]), order)
    {
      ghost var call, es := Call.ReleaseStock(order), Chosen(Call.ReleaseStock(order), rows[..n]);
      var (id, v) := rows[n];
      ChosenAdds(t.reservations, call, rows, n);
      var s := SettleNext(t, ms, call, es, id, v, Releasing);
      if s.Err? {
        return Err(s.error);
      }
      CountNext(call, rows, n, order, released);
      return Ok(Wrap(released + v.qty));
    }

    method ReleaseRows(order: string, rows: seq<(Id, Reservation)>) returns (r: Outcome<int>)
      requires Sound(T()) && forall i :: 0 <= i < |rows| ==> rows[i].1.order == order
      requires Listed(reservations, Chosen(Call.ReleaseStock(order), rows), Releasing)
      modifies `stocks, `reservations, `moves
      ensures r.Err? ==> r == Err(DbFailed) && !healthy
      ensures r.Ok? ==> Looped(old(T()), old(moves), Call.ReleaseStock(order), rows, T(), moves)
      ensures r.Ok? ==> r.value == Counted(Chosen(Call.ReleaseStock(order), rows), order)
    {
      ghost var call := Call.ReleaseStock(order);
      var released := 0;
      LoopStarts(T(), moves, call, rows);
      for n := 0 to |rows|
        invariant Looped(old(T()), old(moves), call, rows[..n], T(), moves)
        invariant released == Counted(Chosen(call, rows[..n]), order)
      {
        if rows[n].1.status != Reserved {
          ChosenSkips(call, rows, n);
          continue;
        }
        var s := ReleaseNext(old(T()), old(moves), order, rows, n, released);
        if s.Err? {
          return s;
        }
        released := s.value;
      }
      assert rows[..|rows|] == rows;
      r := Ok(released);
    }

    // -------------------------------------------------------------- confirm

    method ConfirmStock(order: string) returns (r: Outcome<int>)
      requires Valid()
      modifies `stocks, `reservations, `moves, `locks, `nextId, `alerts
      ensures Valid() && locks == old(locks)
      ensures r.Err? ==> T() == old(T()) && moves == old(moves) && old(alerts) <= alerts
      ensures r.Ok? ==> exists es :: DidConfirm(old(T()), old(moves), old(alerts), order, es, T(), moves, alerts)
      ensures r.Ok? ==> SettledTables(old(T()), Call.ConfirmStock(order), T())
      ensures r.Ok? ==> SameAvailability(old(T()), T())
      ensures r.Ok? ==> IsCount(old(reservations), order, r.value)
      ensures r == Err(BadArgument) <==> order == ""
      ensures r.Err? ==> r.error in {BadArgument, LockBusy, LockFailed, DbFailed} && (Broken(r.error) ==> !healthy)
      ensures healthy && order != "" ==> (r.Ok? <==> OrderKey(order) !in old(locks))
    {
      if order == "" {
        return Err(BadArgument);
      }
      var l := Lock(OrderKey(order));
      if l.Err? {
        return Err(l.error);
      }
      ghost var es;
      r, es := ConfirmLocked(order);
      Unlock(OrderKey(order));
      assert r.Ok? ==> DidConfirm(old(T()), old(moves), old(alerts), order, es, T(), moves, alerts);
    }

    /** What follows while the order's key is held. */
    method ConfirmLocked(order: string) returns (r: Outcome<int>, ghost es: seq<Event>)
      requires Valid()
      modifies `stocks, `reservations, `moves, `alerts
      ensures Valid()
      ensures r.Err? ==> r == Err(DbFailed) && !healthy && T() == old(T()) && moves == old(moves) && old(alerts) <= alerts
      ensures r.Ok? ==> DidConfirm(old(T()), old(moves), old(alerts), order, es, T(), moves, alerts)
      ensures r.Ok? ==> SettledTables(old(T()), Call.ConfirmStock(order), T()) && SameAvailability(old(T()), T())
      ensures r.Ok? ==> IsCount(old(reservations), order, r.value)
    {
      r, es := ConfirmTx(order);
      if r.Ok? {
        OneOrderMeaning(old(T()), old(moves), nextId, Call.ConfirmStock(order), es);
      }
    }

    method ConfirmTx(order: string) returns (r: Outcome<int>, ghost es: seq<Event>)
      requires Sound(T())
      modifies `stocks, `reservations, `moves, `alerts
      ensures old(alerts) <= alerts
      ensures r.Err? ==> r == Err(DbFailed) && !healthy && T() == old(T()) && moves == old(moves)
      ensures r.Ok? ==>
                && Does(old(T()), Call.ConfirmStock(order), es)
                && T() == ApplyAll(old(T()), es)
                && moves == old(moves) + LoggedAll(es)
                && r.value == Counted(es, order)
                && alerts == old(alerts) + LowCells(old(T()), es)
    {
      es := [];
      var failed := Database();
      if failed {
        return Err(DbFailed), es;
      }
      var saved := Saved(T(), moves);
      var rows := ListByOrder(order);
      es := Chosen(Call.ConfirmStock(order), rows);
      OneOrderDone(saved.t.reservations, Call.ConfirmStock(order), rows);
      r := ConfirmRows(order, rows);
      if r.Ok? {
        failed := Database();
        if failed {
          r := Err(DbFailed);
        }
      }
      if r.Err? {
        Rollback(saved);
      }
    }

    /** One turn for a live reservation: its deduction and the safety check that follows it. */
    method DeductNext(ghost t: Tables, ghost ms: seq<Movement>, ghost al: seq<Cell>, order: string, rows: seq<(Id, Reservation)>, n: nat)
      returns (r: Outcome<()>)
      requires n < |rows| && rows[n].1.order == order && rows[n].1.status == Reserved
      requires Sound(t) && Listed(t.reservations, Chosen(Call.ConfirmStock(order), rows), Confirming)
      requires Looped(t, ms, Call.ConfirmStock(order), rows[..n], T(), moves)
      requires alerts == al + LowCells(t, Chosen(Call.ConfirmStock(order), rows[..n]))
      modifies `stocks, `reservations, `moves, `alerts
      ensures r.Err? ==> r.error == DbFailed && !healthy && alerts == old(alerts)
      ensures r.Ok? ==> Looped(t, ms, Call.ConfirmStock(order), rows[..n + 1], T(), moves)
      ensures r.Ok? ==> alerts == al + LowCells(t, Chosen(Call.ConfirmStock(order), rows[..n + 1]))
    {
      ghost var call, es := Call.ConfirmStock(order), Chosen(Call.ConfirmStock(order), rows[..n]);
      var (id, v) := rows[n];
      ChosenAdds(t.reservations, call, rows, n);
      var low := DeductRow(t, ms, order, es, id, v);
      if low.Err? {
        return Err(low.error);
      }
      if low.value {
        Regroup(al, LowCells(t, es), [v.cell]);
        alerts := alerts + [v.cell];
      } else {
        assert LowCells(t, es) + [] == LowCells(t, es);
      }
      return Ok(());
    }

    /** The deduction, and whether it calls for an alert. */
    method DeductRow(ghost t: Tables, ghost ms: seq<Movement>, order: string, ghost es: seq<Event>, id: Id, v: Reservation) returns (r: Outcome<bool>)
      requires Sound(t) && Listed(t.reservations, es + [Settle(id, v, Confirming)], Confirming)
      requires T() == ApplyAll(t, es) && moves == ms + LoggedAll(es)
      modifies `stocks, `reservations, `moves
      ensures r.Err? ==> r.error == DbFailed && !healthy
      ensures r.Ok? ==> T() == ApplyAll(t, es + [Settle(id, v, Confirming)]) && moves == ms + LoggedAll(es + [Settle(id, v, Confirming)])
      ensures r.Ok? ==> LowCells(t, es + [Settle(id, v, Confirming)]) == LowCells(t, es) + if r.value then [v.cell] else []
    {
      r := SettleNext(t, ms, Call.ConfirmStock(order), es, id, v, Confirming);
      if r.Ok? {
        AlertTurn(t, es, id, v, r.value);
      }
    }

    /** The same with the count. */
    method ConfirmNext(ghost t: Tables, ghost ms: seq<Movement>, ghost al: seq<Cell>, order: string, rows: seq<(Id, Reservation)>, n: nat, confirmed: int)
      returns (r: Outcome<int>)
      requires n < |rows| && rows[n].1.order == order && rows[n].1.status == Reserved
      requires Sound(t) && Listed(t.reservations, Chosen(Call.ConfirmStock(order), rows), Confirming)
      requires Looped(t, ms, Call.ConfirmStock(order), rows[..n], T(), moves)
      requires alerts == al + LowCells(t, Chosen(Call.ConfirmStock(order), rows[..n]))
      requires confirmed == Counted(Chosen(Call.ConfirmStock(order), rows[..n]), order)
      modifies `stocks, `reservations, `moves, `alerts
      ensures r.Err? ==> r.error == DbFailed && !healthy && alerts == old(alerts)
      ensures r.Ok? ==> Looped(t, ms, Call.ConfirmStock(order), rows[..n + 1], T(), moves)
      ensures r.Ok? ==> alerts == al + LowCells(t, Chosen(Call.ConfirmStock(order), rows[..n + 1]))
      ensures r.Ok? ==> r.value == Counted(Chosen(Call.ConfirmStock(order), rows[..n + 1]), order)
    {
      var s := DeductNext(t, ms, al, order, rows, n);
      if s.Err? {
        return Err(s.error);
      }
      CountNext(Call.ConfirmStock(order), rows, n, order, confirmed);
      return Ok(Wrap(confirmed + rows[n].1.qty));
    }

    method ConfirmRows(order: string, rows: seq<(Id, Reservation)>) returns (r: Outcome<int>)
      requires Sound(T()) && forall i :: 0 <= i < |rows| ==> rows[i].1.order == order
      requires Listed(reservations, Chosen(Call.ConfirmStock(order), rows), Confirming)
      modifies `stocks, `reservations, `moves, `alerts
      ensures old(alerts) <= alerts
      ensures r.Err? ==> r == Err(DbFailed) && !healthy
      ensures r.Ok? ==> Looped(old(T()), old(moves), Call.ConfirmStock(order), rows, T(), moves)
      ensures r.Ok? ==> r.value == Counted(Chosen(Call.ConfirmStock(order), rows), order)
      ensures r.Ok? ==> alerts == old(alerts) + LowCells(old(T()), Chosen(Call.ConfirmStock(order), rows))
    {
      ghost var call := Call.ConfirmStock(order);
      var confirmed := 0;
      LoopStarts(T(), moves, call, rows);
      assert alerts + LowCells(T(), Chosen(call, rows[..0])) == alerts;
      for n := 0 to |rows|
        invariant Looped(old(T()), old(moves), call, rows[..n], T(), moves)
        invariant confirmed == Counted(Chosen(call, rows[..n]), order)
        invariant alerts == old(alerts) + LowCells(old(T()), Chosen(call, rows[..n]))
      {
        if rows[n].1.status != Reserved {
          ChosenSkips(call, rows, n);
          continue;
        }
        var s := ConfirmNext(old(T()), old(moves), old(alerts), order, rows, n, confirmed);
        if s.Err? {
          return s;
        }
        confirmed := s.value;
      }
      assert rows[..|rows|] == rows;
      r := Ok(confirmed);
    }

    // -------------------------------------------------------------- several keys

    /** Takes the keys in order; on failure releases those it got. */
    method LockAll(keys: seq<Key>) returns (r: Outcome<()>)
      requires forall i, j :: 0 <= i < j < |keys| ==> keys[i] != keys[j]
      modifies `locks
      ensures r.Ok? ==> locks == old(locks) + (set k | k in keys) && forall k :: k in keys ==> k !in old(locks)
      ensures r.Err? ==> locks == old(locks) && r.error in {LockBusy, LockFailed}
      ensures r == Err(LockBusy) ==> exists k :: k in keys && k in old(locks)
      ensures r == Err(LockFailed) ==> !healthy
    {
      var acquired: seq<Key> := [];
      for i := 0 to |keys|
        invariant acquired == keys[..i]
        invariant locks == old(locks) + (set k | k in acquired)
        invariant forall k :: k in acquired ==> k !in old(locks)
      {
        var l := Lock(keys[i]);
        if l.Err? {
          assert keys[i] in keys;
          UnlockAll(acquired);
          assert locks == old(locks);
          return l;
        }
        acquired := acquired + [keys[i]];
        assert keys[..i + 1] == acquired;
      }
      assert keys[..|keys|] == keys;
      r := Ok(());
    }

    method UnlockAll(keys: seq<Key>)
      modifies `locks
      ensures locks == old(locks) - (set k | k in keys)
    {
      for i := 0 to |keys|
        invariant locks == old(locks) - (set k | k in keys[..i])
      {
        Unlock(keys[i]);
        assert keys[..i + 1] == keys[..i] + [keys[i]];
      }
      assert keys[..|keys|] == keys;
    }

    // -------------------------------------------------------------- cleanup

    method CleanupExpiredReservations(now: int) returns (r: Outcome<int>)
      requires Valid()
      modifies `stocks, `reservations, `moves, `locks, `nextId, `alerts
      ensures Valid() && locks == old(locks) && alerts == old(alerts)
      ensures r.Err? ==> T() == old(T()) && moves == old(moves) && r.error in {LockBusy, LockFailed, DbFailed}
      ensures r.Ok? ==> exists orders, es :: FoundAll(old(T()), Cleanup(now, orders))
                                             && Did(old(T()), old(moves), Cleanup(now, orders), es, T(), moves)
      ensures r.Ok? ==> Swept(old(T()), now, T()) && r.value == |DueIds(old(T()), now)|
      ensures r.Err? && Broken(r.error) ==> !healthy
      ensures healthy ==> (r.Ok? <==> forall id :: id in old(reservations) && IsExpired(old(reservations)[id], now)
                                                   ==> OrderKey(old(reservations)[id].order) !in old(locks))
    {
      var found := FindExpired(now);
      if found.Err? {
        return Err(found.error);
      }
      var orders := found.value;
      ghost var call := Cleanup(now, orders);
      if |orders| == 0 {
        NothingDue(T(), moves, call);
        assert Did(old(T()), old(moves), call, [], T(), moves);
        return Ok(0);
      }
      var keys := OrderKeys(orders);
      assert forall k :: k in keys <==> k.OrderKey? && k.order in orders by {
        forall o | o in orders ensures OrderKey(o) in keys {
          var i :| 0 <= i < |orders| && orders[i] == o;
          assert keys[i] == OrderKey(o);
        }
      }
      var l := LockAll(keys);
      if l.Err? {
        if l == Err(LockBusy) {
          ghost var k :| k in keys && k in locks;
          ghost var id :| id in reservations && IsExpired(reservations[id], now) && reservations[id].order == k.order;
          assert OrderKey(reservations[id].order) in locks;
        }
        return Err(l.error);
      }
      ghost var es;
      r, es := CleanupLocked(now, orders);
      UnlockAll(keys);
      assert locks == old(locks);
      assert r.Ok? ==> Did(old(T()), old(moves), call, es, T(), moves);
    }

    /** The first listing, made without a transaction or a lock, and its orders. */
    method FindExpired(now: int) returns (r: Outcome<seq<string>>)
      ensures r.Err? ==> r == Err(DbFailed) && !healthy
      ensures r.Ok? ==> AreExpired(reservations, now, r.value) && FoundAll(T(), Cleanup(now, r.value)) && Ascending(r.value)
      ensures r.Ok? ==> forall i, j :: 0 <= i < j < |r.value| ==> r.value[i] != r.value[j]
    {
      var failed := Database();
      if failed {
        return Err(DbFailed);
      }
      var ids := set id | id in reservations && IsExpired(reservations[id], now);
      var expired := Collect(ids);
      var orders := OrdersOf(expired);
      forall o | o in orders ensures exists id :: id in reservations && IsExpired(reservations[id], now) && reservations[id].order == o {
        var i :| 0 <= i < |expired| && expired[i].1.order == o;
        assert expired[i].0 in ids;
      }
      forall id | id in reservations && IsExpired(reservations[id], now) ensures reservations[id].order in orders {
        assert id in ids;
      }
      return Ok(orders);
    }

    /** What follows while the keys of all found orders are held. */
    method CleanupLocked(now: int, orders: seq<string>) returns (r: Outcome<int>, ghost es: seq<Event>)
      requires Valid() && FoundAll(T(), Cleanup(now, orders))
      requires forall i, j :: 0 <= i < j < |orders| ==> orders[i] != orders[j]
      modifies `stocks, `reservations, `moves
      ensures Valid()
      ensures r.Err? ==> r == Err(DbFailed) && !healthy && T() == old(T()) && moves == old(moves)
      ensures r.Ok? ==> Did(old(T()), old(moves), Cleanup(now, orders), es, T(), moves)
      ensures r.Ok? ==> Swept(old(T()), now, T()) && r.value == |DueIds(old(T()), now)|
    {
      r, es := CleanupTx(now, orders);
      if r.Ok? {
        SweepDone(old(T()), Cleanup(now, orders), es);
        SettlingStaysConsistent(old(T()), old(moves), nextId, Cleanup(now, orders), es);
      }
    }

    method CleanupTx(now: int, orders: seq<string>) returns (r: Outcome<int>, ghost es: seq<Event>)
      requires Sound(T())
      requires forall i, j :: 0 <= i < j < |orders| ==> orders[i] != orders[j]
      modifies `stocks, `reservations, `moves
      ensures r.Err? ==> r == Err(DbFailed) && !healthy && T() == old(T()) && moves == old(moves)
      ensures r.Ok? ==>
                && T() == ApplyAll(old(T()), es)
                && moves == old(moves) + LoggedAll(es)
                && PartlySwept(old(T()), Cleanup(now, orders), es, |orders|)
                && r.value == |es|
    {
      es := [];
      var failed := Database();
      if failed {
        return Err(DbFailed), es;
      }
      var saved := Saved(T(), moves);
      r, es := CleanupOrders(now, orders);
      if r.Ok? {
        failed := Database();
        if failed {
          r := Err(DbFailed);
        }
      }
      if r.Err? {
        Rollback(saved);
      }
    }

    method CleanupOrders(now: int, orders: seq<string>) returns (r: Outcome<int>, ghost es: seq<Event>)
      requires Sound(T())
      requires forall i, j :: 0 <= i < j < |orders| ==> orders[i] != orders[j]
      modifies `stocks, `reservations, `moves
      ensures r.Err? ==> r == Err(DbFailed) && !healthy
      ensures r.Ok? ==>
                && T() == ApplyAll(old(T()), es)
                && moves == old(moves) + LoggedAll(es)
                && PartlySwept(old(T()), Cleanup(now, orders), es, |orders|)
                && r.value == |es|
    {
      ghost var t, ms, call := T(), moves, Cleanup(now, orders);
      es := [];
      var processed := 0;
      assert moves + LoggedAll([]) == moves;
      for k := 0 to |orders|
        invariant T() == ApplyAll(t, es) && moves == ms + LoggedAll(es)
        invariant PartlySwept(t, call, es, k)
        invariant processed == |es|
      {
        var rows := ListByOrder(orders[k]);
        ListingIsOriginal(t, call, es, k, rows);
        SweepNext(t, call, es, k, rows);
        var s := CleanupRows(now, orders, rows, t, ms, es);
        if s.Err? {
          return Err(s.error), es;
        }
        es := es + Chosen(call, rows);
        processed := processed + s.value;
      }
      r := Ok(processed);
    }

    method CleanupRows(now: int, orders: seq<string>, rows: seq<(Id, Reservation)>, ghost t: Tables, ghost ms: seq<Movement>, ghost before: seq<Event>)
      returns (r: Outcome<nat>)
      requires Sound(t) && Listed(t.reservations, before + Chosen(Cleanup(now, orders), rows), Expiring)
      requires T() == ApplyAll(t, before) && moves == ms + LoggedAll(before)
      requires forall i :: 0 <= i < |rows| ==> rows[i].1.order in orders
      modifies `stocks, `reservations, `moves
      ensures r.Err? ==> r == Err(DbFailed) && !healthy
      ensures r.Ok? ==>
                var es := Chosen(Cleanup(now, orders), rows);
                && T() == ApplyAll(t, before + es)
                && moves == ms + LoggedAll(before + es)
                && r.value == |es|
    {
      ghost var call := Cleanup(now, orders);
      var processed := 0;
      assert before + Chosen(call, rows[..0]) == before;
      for n := 0 to |rows|
        invariant T() == ApplyAll(t, before + Chosen(call, rows[..n]))
        invariant moves == ms + LoggedAll(before + Chosen(call, rows[..n]))
        invariant processed == |Chosen(call, rows[..n])|
      {
        var v := rows[n].1;
        if v.status != Reserved || now < v.expiry || v.expiry == ZERO_TIME {
          ChosenSkips(call, rows, n);
          continue;
        }
        ChosenNext(call, rows, n);
        var s := ExpireNext(call, rows, n, t, ms, before);
        if s.Err? {
          return Err(s.error);
        }
        processed := processed + 1;
      }
      assert rows[..|rows|] == rows;
      r := Ok(processed);
    }

    /** One expired reservation is released and deleted. */
    method ExpireNext(ghost call: Call, rows: seq<(Id, Reservation)>, n: nat, ghost t: Tables, ghost ms: seq<Movement>, ghost before: seq<Event>)
      returns (r: Outcome<bool>)
      requires call.Cleanup? && n < |rows| && call.Picks(rows[n].1)
      requires Sound(t) && Listed(t.reservations, before + Chosen(call, rows), Expiring)
      requires T() == ApplyAll(t, before + Chosen(call, rows[..n])) && moves == ms + LoggedAll(before + Chosen(call, rows[..n]))
      modifies `stocks, `reservations, `moves
      ensures r.Err? ==> r.error == DbFailed && !healthy
      ensures r.Ok? ==> T() == ApplyAll(t, before + Chosen(call, rows[..n + 1]))
      ensures r.Ok? ==> moves == ms + LoggedAll(before + Chosen(call, rows[..n + 1]))
    {
      var (id, v) := rows[n];
      ChosenIsListed(t.reservations, call, before, rows, n);
      ChosenNext(call, rows, n);
      Regroup(before, Chosen(call, rows[..n]), [Settle(id, v, Expiring)]);
      r := SettleNext(t, ms, call, before + Chosen(call, rows[..n]), id, v, Expiring);
    }

    // -------------------------------------------------------------- receipts

    /** ListWarehouses and a search. */
    method WarehouseExists(warehouse: string) returns (r: Outcome<bool>)
      ensures r.Err? ==> r == Err(DbFailed) && !healthy
      ensures r.Ok? ==> (r.value <==> warehouse in warehouses)
    {
      var failed := Database();
      r := if failed then Err(DbFailed) else Ok(warehouse in warehouses);
    }

    method AddStockReceipt(sku: string, warehouse: string, qty: Int64, receipt: string) returns (r: Outcome<()>)
      requires Valid()
      modifies `stocks, `reservations, `moves, `locks, `nextId, `alerts
      ensures Valid() && locks == old(locks) && alerts == old(alerts)
      ensures r.Err? ==> T() == old(T()) && moves == old(moves)
      ensures r.Ok? ==> var c := Cell(sku, warehouse);
                        Did(old(T()), old(moves), AddReceipt(c, qty, receipt), [Receive(c, qty, receipt)], T(), moves)
      ensures r == Err(BadArgument) <==> sku == "" || warehouse == "" || qty <= 0
      ensures r == Err(UnknownWarehouse) ==> warehouse !in warehouses
      ensures r.Ok? ==> warehouse in warehouses
      ensures r == Err(LockBusy) ==> StockKey(Cell(sku, warehouse)) in old(locks)
      ensures r == Err(CheckRefused) ==> MAX_INT64 < RowAt(old(T()), Cell(sku, warehouse)).total + qty
      ensures r.Err? ==> r.error !in {NoWarehouse, StockNotFound, Insufficient} && (Broken(r.error) ==> !healthy)
      ensures healthy && sku != "" && warehouse != "" && 0 < qty && warehouse in warehouses && StockKey(Cell(sku, warehouse)) !in old(locks) ==>
                (r.Ok? <==> RowAt(old(T()), Cell(sku, warehouse)).total + qty <= MAX_INT64)
    {
      if sku == "" || warehouse == "" || qty <= 0 {
        return Err(BadArgument);
      }
      var exists_ := WarehouseExists(warehouse);
      if exists_.Err? {
        return Err(exists_.error);
      }
      if !exists_.value {
        return Err(UnknownWarehouse);
      }
      var c := Cell(sku, warehouse);
      r := Lock(StockKey(c));
      if r.Err? {
        return;
      }
      r := ReceiptLocked(c, qty, receipt);
      Unlock(StockKey(c));
      assert locks == old(locks);
    }

    method ReceiptLocked(c: Cell, qty: Int64, receipt: string) returns (r: Outcome<()>)
      requires Valid() && c.warehouse != "" && 0 < qty
      modifies `stocks, `reservations, `moves
      ensures Valid()
      ensures r.Err? ==> r.error in {DbFailed, CheckRefused} && T() == old(T()) && moves == old(moves)
      ensures r == Err(DbFailed) ==> !healthy
      ensures r == Err(CheckRefused) ==> MAX_INT64 < RowAt(old(T()), c).total + qty
      ensures r.Ok? ==> Did(old(T()), old(moves), AddReceipt(c, qty, receipt), [Receive(c, qty, receipt)], T(), moves)
    {
      var failed := Database();
      if failed {
        return Err(DbFailed);
      }
      var saved := Saved(T(), moves);
      r := ReceiptRows(c, qty, receipt);
      if r.Ok? {
        failed := Database();
        if failed {
          r := Err(DbFailed);
        }
      }
      if r.Err? {
        Rollback(saved);
      } else {
        SingleEvent(old(T()), Receive(c, qty, receipt));
        EventStaysConsistent(old(T()), old(moves), nextId, Receive(c, qty, receipt), nextId);
      }
    }

    method ReceiptRows(c: Cell, qty: Int64, receipt: string) returns (r: Outcome<()>)
      requires Sound(T()) && 0 < qty
      modifies `stocks, `moves
      ensures r.Err? ==> r.error in {DbFailed, CheckRefused}
      ensures r == Err(DbFailed) ==> !healthy
      ensures r == Err(CheckRefused) ==> MAX_INT64 < RowAt(old(T()), c).total + qty
      ensures r.Ok? ==>
                && Legal(old(T()), Receive(c, qty, receipt))
                && T() == Apply(old(T()), Receive(c, qty, receipt))
                && moves == old(moves) + Logged(Receive(c, qty, receipt))
    {
      var ps, failed := Fetch(c);
      if failed {
        return Err(DbFailed);
      }
      if ps == null {
        ps := new ProductStock(Row(qty, 0, 0));
      } else {
        AddTotalIsExactOrRefused(stocks[c], qty);
        ps.Add(qty);
      }
      var u := Upsert(c, ps);
      if u.Err? {
        return Err(u.error);
      }
      failed := Database();
      if failed {
        return Err(DbFailed);
      }
      moves := moves + [Movement(In, c, qty, receipt)];
      return Ok(());
    }

    // -------------------------------------------------------------- transfers

    method TransferStock(sku: string, source: string, target: string, qty: Int64, reference: string) returns (r: Outcome<()>)
      requires Valid()
      modifies `stocks, `reservations, `moves, `locks, `nextId, `alerts
      ensures Valid() && locks == old(locks) && alerts == old(alerts)
      ensures r.Err? ==> T() == old(T()) && moves == old(moves)
      ensures r.Ok? ==> var (a, b) := (Cell(sku, source), Cell(sku, target));
                        Did(old(T()), old(moves), Transfer(sku, source, target, qty, reference),
                            [Dispatch(a, qty, reference), Arrive(b, qty, reference)], T(), moves)
      ensures r == Err(BadArgument) <==> sku == "" || source == "" || target == "" || source == target || qty <= 0
      ensures r == Err(UnknownWarehouse) ==> target !in warehouses
      ensures r.Ok? ==> target in warehouses
      ensures r == Err(LockBusy) ==> StockKey(Cell(sku, source)) in old(locks) || StockKey(Cell(sku, target)) in old(locks)
      ensures r == Err(StockNotFound) ==> Cell(sku, source) !in old(stocks)
      ensures r == Err(Insufficient) ==> Cell(sku, source) in old(stocks) && Available(old(stocks)[Cell(sku, source)]) < qty
      ensures r == Err(CheckRefused) ==> MAX_INT64 < RowAt(old(T()), Cell(sku, target)).total + qty
      ensures r.Err? ==> r.error != NoWarehouse && (Broken(r.error) ==> !healthy)
      ensures healthy && sku != "" && source != "" && target != "" && source != target && 0 < qty && target in warehouses
              && StockKey(Cell(sku, source)) !in old(locks) && StockKey(Cell(sku, target)) !in old(locks) ==>
                (r.Ok? <==> CanMove(old(T()), Cell(sku, source), Cell(sku, target), qty))
    {
      if sku == "" || source == "" || target == "" || source == target || qty <= 0 {
        return Err(BadArgument);
      }
      var exists_ := WarehouseExists(target);
      if exists_.Err? {
        return Err(exists_.error);
      }
      if !exists_.value {
        return Err(UnknownWarehouse);
      }
      r := TransferUnderKeys(sku, source, target, qty, reference);
    }

    /** Both keys, the transfer, and both keys back. */
    method TransferUnderKeys(sku: string, source: string, target: string, qty: Int64, reference: string) returns (r: Outcome<()>)
      requires Valid() && source != "" && target != "" && source != target && 0 < qty
      modifies `stocks, `reservations, `moves, `locks
      ensures Valid() && locks == old(locks)
      ensures r.Err? ==> r.error in {LockBusy, LockFailed, DbFailed, StockNotFound, Insufficient, CheckRefused} && (Broken(r.error) ==> !healthy)
      ensures r.Err? ==> T() == old(T()) && moves == old(moves)
      ensures r == Err(LockBusy) ==> StockKey(Cell(sku, source)) in old(locks) || StockKey(Cell(sku, target)) in old(locks)
      ensures r == Err(StockNotFound) ==> Cell(sku, source) !in old(stocks)
      ensures r == Err(Insufficient) ==> Cell(sku, source) in old(stocks) && Available(old(stocks)[Cell(sku, source)]) < qty
      ensures r == Err(CheckRefused) ==> MAX_INT64 < RowAt(old(T()), Cell(sku, target)).total + qty
      ensures r.Ok? ==> var (a, b) := (Cell(sku, source), Cell(sku, target));
                        Did(old(T()), old(moves), Transfer(sku, source, target, qty, reference),
                            [Dispatch(a, qty, reference), Arrive(b, qty, reference)], T(), moves)
      ensures r.Ok? ==> StockKey(Cell(sku, source)) !in old(locks) && StockKey(Cell(sku, target)) !in old(locks)
    {
      var keys := [StockKey(Cell(sku, source)), StockKey(Cell(sku, target))];
      r := LockAll(keys);
      if r.Err? {
        return;
      }
      assert keys[0] in keys && keys[1] in keys;
      r := TransferLocked(sku, source, target, qty, reference);
      UnlockAll(keys);
      assert locks == old(locks);
    }

    method TransferLocked(sku: string, source: string, target: string, qty: Int64, reference: string) returns (r: Outcome<()>)
      requires Valid() && source != "" && target != "" && source != target && 0 < qty
      modifies `stocks, `reservations, `moves
      ensures Valid()
      ensures r.Err? ==> r.error in {DbFailed, StockNotFound, Insufficient, CheckRefused} && T() == old(T()) && moves == old(moves)
      ensures r == Err(DbFailed) ==> !healthy
      ensures r == Err(CheckRefused) ==> MAX_INT64 < RowAt(old(T()), Cell(sku, target)).total + qty
      ensures r == Err(StockNotFound) ==> Cell(sku, source) !in old(stocks)
      ensures r == Err(Insufficient) ==> Cell(sku, source) in old(stocks) && Available(old(stocks)[Cell(sku, source)]) < qty
      ensures r.Ok? ==> var (a, b) := (Cell(sku, source), Cell(sku, target));
                        Did(old(T()), old(moves), Transfer(sku, source, target, qty, reference),
                            [Dispatch(a, qty, reference), Arrive(b, qty, reference)], T(), moves)
    {
      var failed := Database();
      if failed {
        return Err(DbFailed);
      }
      var saved := Saved(T(), moves);
      var a, b := Cell(sku, source), Cell(sku, target);
      r := TransferRows(a, b, qty, reference);
      if r.Ok? {
        failed := Database();
        if failed {
          r := Err(DbFailed);
        }
      }
      if r.Err? {
        Rollback(saved);
      } else {
        TransferIsCall(old(T()), old(moves), nextId, sku, source, target, qty, reference);
      }
    }

    method TransferRows(a: Cell, b: Cell, qty: Int64, reference: string) returns (r: Outcome<()>)
      requires Sound(T()) && a != b && 0 < qty
      modifies `stocks, `moves
      ensures r.Err? ==> r.error in {DbFailed, StockNotFound, Insufficient, CheckRefused}
      ensures r == Err(DbFailed) ==> !healthy
      ensures r == Err(StockNotFound) ==> a !in old(stocks)
      ensures r == Err(Insufficient) ==> a in old(stocks) && Available(old(stocks)[a]) < qty
      ensures r == Err(CheckRefused) ==> MAX_INT64 < RowAt(old(T()), b).total + qty
      ensures r.Ok? ==>
                && CanMove(old(T()), a, b, qty)
                && T() == Apply(Apply(old(T()), Dispatch(a, qty, reference)), Arrive(b, qty, reference))
                && moves == old(moves) + [Movement(TransferOut, a, qty, reference), Movement(TransferIn, b, qty, reference)]
    {
      var from, failed := Fetch(a);
      if failed {
        return Err(DbFailed);
      }
      if from == null {
        return Err(StockNotFound);
      }
      if from.AvailableQuantity() < qty {
        return Err(Insufficient);
      }
      var to;
      to, failed := Fetch(b);
      if failed {
        return Err(DbFailed);
      }
      if to == null {
        to := new ProductStock(EMPTY_ROW);
      }
      r := MoveQuantity(a, b, from, to, qty, reference);
      if r.Ok? {
        MovedIsApplied(old(T()), a, b, qty, reference);
      }
    }

    /** The updates of a transfer once both rows are loaded. */
    method MoveQuantity(a: Cell, b: Cell, from: ProductStock, to: ProductStock, qty: Int64, reference: string) returns (r: Outcome<()>)
      requires a != b && from != to && 0 < qty
      requires InBounds(from.AsRow()) && InBounds(to.AsRow()) && qty <= Available(from.AsRow())
      modifies `stocks, `moves, from, to
      ensures r.Err? ==> r.error in {DbFailed, CheckRefused}
      ensures r == Err(DbFailed) ==> !healthy
      ensures r == Err(CheckRefused) ==> MAX_INT64 < old(to.total) + qty
      ensures r.Ok? ==>
                && old(to.total) + qty <= MAX_INT64
                && stocks == old(stocks)[a := old(from.AsRow()).(total := old(from.total) - qty)]
                                        [b := old(to.AsRow()).(total := old(to.total) + qty)]
                && moves == old(moves) + [Movement(TransferOut, a, qty, reference), Movement(TransferIn, b, qty, reference)]
    {
      from.Take(qty);
      to.Add(qty);
      r := Upsert(a, from);
      if r.Err? {
        return;
      }
      r := Upsert(b, to);
      if r.Err? {
        return;
      }
      r := LogTransfer(a, b, qty, reference);
    }

    method LogTransfer(a: Cell, b: Cell, qty: Int64, reference: string) returns (r: Outcome<()>)
      modifies `moves
      ensures r.Err? ==> r == Err(DbFailed) && !healthy
      ensures r.Ok? ==> moves == old(moves) + [Movement(TransferOut, a, qty, reference), Movement(TransferIn, b, qty, reference)]
    {
      var failed := Database();
      if failed {
        return Err(DbFailed);
      }
      moves := moves + [Movement(TransferOut, a, qty, reference)];
      failed := Database();
      if failed {
        return Err(DbFailed);
      }
      moves := moves + [Movement(TransferIn, b, qty, reference)];
      return Ok(());
    }

    // -------------------------------------------------------------- safety levels

    method UpdateSafetyStockLevel(sku: string, warehouse: string, level: Int64) returns (r: Outcome<()>)
      requires Valid()
      modifies `stocks, `reservations, `moves, `locks, `nextId, `alerts
      ensures Valid() && locks == old(locks)
      ensures r.Err? ==> r == Err(DbFailed) && !healthy && T() == old(T()) && moves == old(moves) && alerts == old(alerts)
      ensures r.Ok? ==> var c := Cell(sku, warehouse);
                        && Did(old(T()), old(moves), UpdateSafety(c, level), if c in old(stocks) then [SetSafety(c, level)] else [], T(), moves)
                        && alerts == old(alerts) + if c in old(stocks) && Available(old(stocks)[c]) < level then [c] else []
      ensures healthy ==> r.Ok?
    {
      var failed := Database();
      if failed {
        return Err(DbFailed);
      }
      var c := Cell(sku, warehouse);
      var s := SafetyRow(c, level);
      if s.Err? {
        return Err(s.error);
      }
      if c in old(stocks) {
        SingleEvent(old(T()), SetSafety(c, level));
        EventStaysConsistent(old(T()), old(moves), nextId, SetSafety(c, level), nextId);
      }
      if s.value {
        alerts := alerts + [c];
      }
      assert moves + LoggedAll([]) == moves;
      return Ok(());
    }

    /** The transaction; whether the new level is above what is available. */
    method SafetyRow(c: Cell, level: Int64) returns (r: Outcome<bool>)
      requires Sound(T())
      modifies `stocks
      ensures r.Err? ==> r == Err(DbFailed) && !healthy && stocks == old(stocks)
      ensures r.Ok? ==> stocks == if c in old(stocks) then old(stocks)[c := old(stocks)[c].(safety := level)] else old(stocks)
      ensures r.Ok? ==> r.value == (c in old(stocks) && Available(old(stocks)[c]) < level)
    {
      var saved := stocks;
      var ps, failed := Fetch(c);
      if failed {
        return Err(DbFailed);
      }
      if ps == null {
        return Ok(false);
      }
      AvailableIsExact(stocks[c]);
      ps.safety := level;
      var u := Upsert(c, ps);
      if u.Err? {
        return Err(u.error);
      }
      failed := Database();
      if failed {
        stocks := saved;
        return Err(DbFailed);
      }
      return Ok(ps.AvailableQuantity() < ps.safety);
    }

    // -------------------------------------------------------------- reserve

    method ReserveStock(order: string, sku: string, warehouse: string, qty: Int64, now: int) returns (r: Outcome<Placed>)
      requires Valid()
      modifies `stocks, `reservations, `moves, `locks, `nextId, `alerts
      ensures Valid() && locks == old(locks) && alerts == old(alerts)
      ensures Answers(old(T()), order, Item(sku, warehouse, qty), r)
      ensures var es := Effect(old(T()), order, Item(sku, warehouse, qty), now, r);
              T() == ApplyAll(old(T()), es) && moves == old(moves) + LoggedAll(es)
      ensures r == Err(LockBusy) ==>
                if warehouse != "" then StockKey(Cell(sku, warehouse)) in old(locks)
                else AnyStockKey(sku) in old(locks) || exists c: Cell :: c.sku == sku && IsBest(old(T()), c, qty) && StockKey(c) in old(locks)
      ensures r.Err? && Broken(r.error) ==> !healthy
      ensures healthy && !BadItem(order, Item(sku, warehouse, qty)) && warehouse != "" && StockKey(Cell(sku, warehouse)) !in old(locks) ==>
                var c := Cell(sku, warehouse);
                (r.Ok? <==> Taken(old(T()), Wanted(order, c, qty)) || (c in old(stocks) && qty <= Available(old(stocks)[c])))
      ensures healthy && !BadItem(order, Item(sku, warehouse, qty)) && warehouse == "" && AnyStockKey(sku) !in old(locks)
              && (forall c: Cell :: c.sku == sku && IsBest(old(T()), c, qty) ==> StockKey(c) !in old(locks)) ==>
                (r.Ok? <==> Candidates(old(T()), sku, qty) != {})
    {
      ghost var it := Item(sku, warehouse, qty);
      if order == "" || sku == "" || qty <= 0 {
        assert moves + LoggedAll([]) == moves;
        return Err(BadArgument);
      }
      var key := if warehouse == "" then AnyStockKey(sku) else StockKey(Cell(sku, warehouse));
      var l := Lock(key);
      if l.Err? {
        assert moves + LoggedAll([]) == moves;
        return Err(l.error);
      }
      r := ReserveLocked(order, sku, warehouse, qty, now);
      Unlock(key);
      assert locks == old(locks);
      AnswerDecides(old(T()), order, it, r);
    }

    /** What follows while the first key is held.  The automatic choice gives it up for the key of
        the chosen cell. */
    method ReserveLocked(order: string, sku: string, warehouse: string, qty: Int64, now: int) returns (r: Outcome<Placed>)
      requires Valid() && order != "" && sku != "" && 0 < qty
      modifies `stocks, `reservations, `moves, `nextId, `locks
      ensures Valid()
      ensures locks - {AnyStockKey(sku)} == old(locks) - {AnyStockKey(sku)} && (warehouse != "" ==> locks == old(locks))
      ensures Answers(old(T()), order, Item(sku, warehouse, qty), r)
      ensures var es := Effect(old(T()), order, Item(sku, warehouse, qty), now, r);
              T() == ApplyAll(old(T()), es) && moves == old(moves) + LoggedAll(es)
      ensures r == Err(LockBusy) ==> warehouse == "" && exists c: Cell :: c.sku == sku && IsBest(old(T()), c, qty) && StockKey(c) in old(locks)
      ensures r.Err? && Broken(r.error) ==> !healthy
    {
      assert moves + LoggedAll([]) == moves;
      var failed := Database();
      if failed {
        return Err(DbFailed);
      }
      var saved := Saved(T(), moves);
      if warehouse != "" {
        r := ReserveCell(order, Cell(sku, warehouse), qty, now);
      } else {
        r := ReserveAnywhere(order, sku, qty, now);
      }
      if r.Err? {
        Rollback(saved);
      } else {
        ReservesIsEffect(old(T()), old(moves), order, Item(sku, warehouse, qty), now, r.value, T(), moves);
      }
    }

    /** The automatic choice. */
    method ReserveAnywhere(order: string, sku: string, qty: Int64, now: int) returns (r: Outcome<Placed>)
      requires Valid() && 0 < qty
      modifies `stocks, `reservations, `moves, `nextId, `locks
      ensures locks - {AnyStockKey(sku)} == old(locks) - {AnyStockKey(sku)}
      ensures r.Err? ==> Consistent(old(T()), old(moves), nextId) && r.error in {DbFailed, LockFailed, LockBusy, NoWarehouse}
      ensures r == Err(NoWarehouse) ==> Candidates(old(T()), sku, qty) == {}
      ensures r == Err(LockBusy) ==> exists c: Cell :: c.sku == sku && IsBest(old(T()), c, qty) && StockKey(c) in old(locks)
      ensures r.Err? && Broken(r.error) ==> !healthy
      ensures r.Ok? ==> Valid() && IsBest(old(T()), Cell(sku, r.value.warehouse), qty)
      ensures r.Ok? ==> Reserves(old(T()), old(moves), order, Cell(sku, r.value.warehouse), qty, now, r.value.id, T(), moves)
    {
      var found := FindWarehouse(sku, qty);
      if found.Err? {
        return Err(found.error);
      }
      if found.value == "" {
        return Err(NoWarehouse);
      }
      var c := Cell(sku, found.value);
      var u := DropKey(AnyStockKey(sku));
      if u.Err? {
        return Err(u.error);
      }
      var l := Lock(StockKey(c));
      if l.Err? {
        assert l == Err(LockBusy) ==> c.sku == sku && IsBest(old(T()), c, qty) && StockKey(c) in old(locks);
        return Err(l.error);
      }
      r := ReserveCell(order, c, qty, now);
      Unlock(StockKey(c));
    }

    /** The one DEL whose error is looked at. */
    method DropKey(k: Key) returns (r: Outcome<()>)
      modifies `locks
      ensures r.Ok? ==> locks == old(locks) - {k}
      ensures r.Err? ==> r == Err(LockFailed) && !healthy && locks - {k} == old(locks) - {k}
    {
      var failed := Database();
      if !failed {
        Unlock(k);
        r := Ok(());
      } else {
        if * {
          Unlock(k);
        }
        r := Err(LockFailed);
      }
    }

    /** FindWarehouseForReservation: blank when there is none. */
    method FindWarehouse(sku: string, qty: Int64) returns (r: Outcome<string>)
      requires Valid()
      ensures r.Err? ==> r == Err(DbFailed) && !healthy
      ensures r.Ok? && r.value == "" ==> Candidates(T(), sku, qty) == {}
      ensures r.Ok? && r.value != "" ==> IsBest(T(), Cell(sku, r.value), qty)
    {
      var failed := Database();
      if failed {
        return Err(DbFailed);
      }
      var rest := Candidates(T(), sku, qty);
      if rest == {} {
        return Ok("");
      }
      var best :| best in rest;
      rest := rest - {best};
      while rest != {}
        invariant rest <= Candidates(T(), sku, qty) && best in Candidates(T(), sku, qty)
        invariant forall c :: c in Candidates(T(), sku, qty) && c !in rest ==> Available(stocks[c]) <= Available(stocks[best])
        decreases rest
      {
        var c :| c in rest;
        if Available(stocks[best]) < Available(stocks[c]) {
          best := c;
        }
        rest := rest - {c};
      }
      forall d | d in stocks && d.sku == sku ensures Available(stocks[d]) <= Available(stocks[best]) {
        assert d !in Candidates(T(), sku, qty) ==> Available(stocks[d]) < qty;
      }
      return Ok(best.warehouse);
    }

    /** Everything from the idempotence scan to the commit. */
    method ReserveCell(order: string, c: Cell, qty: Int64, now: int) returns (r: Outcome<Placed>)
      requires Valid() && 0 < qty && c.warehouse != ""
      modifies `stocks, `reservations, `moves, `nextId
      ensures r.Err? ==> Consistent(old(T()), old(moves), nextId) && r.error in {DbFailed, StockNotFound, Insufficient}
      ensures r.Ok? ==> Valid() && r.value.warehouse == c.warehouse
      ensures Taken(old(T()), Wanted(order, c, qty)) ==> r.Ok? || r == Err(DbFailed)
      ensures r == Err(DbFailed) ==> !healthy
      ensures r.Ok? ==> Reserves(old(T()), old(moves), order, c, qty, now, r.value.id, T(), moves)
      ensures r == Err(StockNotFound) ==> c !in old(stocks)
      ensures r == Err(Insufficient) ==> c in old(stocks) && Available(old(stocks)[c]) < qty
    {
      var f := FindReservation(order, c, qty);
      if f.Err? {
        return Err(f.error);
      }
      if f.value.Some? {
        return Ok(Placed(f.value.value, c.warehouse));
      }
      r := HoldCell(order, c, qty, now);
      if r.Ok? {
        EventStaysConsistent(old(T()), old(moves), old(nextId),
                             Hold(r.value.id, Reservation(order, c, qty, Reserved, now + HOLD_TIME)), nextId);
      }
    }

    /** The idempotence scan. */
    method FindReservation(order: string, c: Cell, qty: Int64) returns (r: Outcome<Option<Id>>)
      ensures r.Err? ==> r == Err(DbFailed) && !healthy
      ensures r.Ok? ==> (r.value.Some? <==> Taken(T(), Wanted(order, c, qty)))
      ensures r.Ok? && r.value.Some? ==> r.value.value in reservations && Clash(reservations[r.value.value], Wanted(order, c, qty))
    {
      var failed := Database();
      if failed {
        return Err(DbFailed);
      }
      var rows := ListByOrder(order);
      for n := 0 to |rows|
        invariant forall i :: 0 <= i < n ==> !Clash(rows[i].1, Wanted(order, c, qty))
      {
        var v := rows[n].1;
        if v.cell == c && v.qty == qty && v.status == Reserved {
          return Ok(Some(rows[n].0));
        }
      }
      return Ok(None);
    }

    /** The guards, the writes and the commit. */
    method HoldCell(order: string, c: Cell, qty: Int64, now: int) returns (r: Outcome<Placed>)
      requires Sound(T()) && 0 < qty && !Taken(T(), Wanted(order, c, qty))
      requires forall id :: id in reservations ==> id < nextId
      modifies `stocks, `reservations, `moves, `nextId
      ensures old(nextId) <= nextId
      ensures r.Err? ==> r.error in {DbFailed, StockNotFound, Insufficient}
      ensures r == Err(DbFailed) ==> !healthy
      ensures r == Err(StockNotFound) ==> c !in old(stocks)
      ensures r == Err(Insufficient) ==> c in old(stocks) && Available(old(stocks)[c]) < qty
      ensures r.Ok? ==>
                var e := Hold(r.value.id, Reservation(order, c, qty, Reserved, now + HOLD_TIME));
                && r.value.warehouse == c.warehouse && r.value.id < nextId
                && Legal(old(T()), e) && T() == Apply(old(T()), e) && moves == old(moves) + Logged(e)
    {
      var ps, failed := Fetch(c);
      if failed {
        return Err(DbFailed);
      }
      if ps == null {
        return Err(StockNotFound);
      }
      AvailableIsExact(stocks[c]);
      ProposalsPassChecks(stocks[c], qty);
      if ps.AvailableQuantity() < qty {
        return Err(Insufficient);
      }
      ps.Reserve(qty);
      var u := Upsert(c, ps);
      if u.Err? {
        return Err(u.error);
      }
      r := InsertReservation(Reservation(order, c, qty, Reserved, now + HOLD_TIME));
    }

    /** CreateReservation under a new id, CreateMovement and COMMIT. */
    method InsertReservation(v: Reservation) returns (r: Outcome<Placed>)
      modifies `reservations, `moves, `nextId
      ensures nextId == old(nextId) + 1
      ensures r.Err? ==> r.error == DbFailed && !healthy
      ensures r.Ok? ==>
                && r.value == Placed(old(nextId), v.cell.warehouse)
                && reservations == old(reservations)[old(nextId) := v]
                && moves == old(moves) + [Movement(Reserve, v.cell, v.qty, v.order)]
    {
      var id := nextId;
      nextId := nextId + 1;
      var failed := Database();
      if failed {
        return Err(DbFailed);
      }
      reservations := reservations[id := v];
      failed := Database();
      if failed {
        return Err(DbFailed);
      }
      moves := moves + [Movement(Reserve, v.cell, v.qty, v.order)];
      failed := Database();
      if failed {
        return Err(DbFailed);
      }
      return Ok(Placed(id, v.cell.warehouse));
    }

    // -------------------------------------------------------------- the endpoints that loop

    /** The gRPC ReserveStock: one attempt after another, whatever became of the ones before. */
    method ReserveBatch(order: string, items: seq<Item>, times: seq<int>) returns (reply: Reply, ghost tries: seq<Attempt>)
      requires Valid() && |times| == |items|
      modifies `stocks, `reservations, `moves, `locks, `nextId, `alerts
      ensures Valid() && locks == old(locks) && alerts == old(alerts)
      ensures order == "" ==> reply == Reply(false, OrderMissing) && tries == []
      ensures order != "" && items == [] ==> reply == Reply(false, ItemsMissing) && tries == []
      ensures order != "" && items != [] ==> |tries| == |items| && Reports(tries, reply)
      ensures Batched(old(T()), old(moves), order, items, times, tries, T(), moves)
      ensures healthy && old(locks) == {} ==> Unspoilt(tries)
    {
      tries := [];
      BatchStart(T(), moves, order, items, times);
      if order == "" {
        return Reply(false, OrderMissing), tries;
      }
      if |items| == 0 {
        return Reply(false, ItemsMissing), tries;
      }
      var reservedCount, lastErr;
      reservedCount, lastErr, tries := ReserveItems(order, items, times);
      TallyReports(tries, reservedCount, lastErr);
      if reservedCount == 0 && lastErr.Some? {
        return Reply(false, Refused(lastErr.value)), tries;
      }
      if reservedCount < |items| {
        return Reply(true, Partly(lastErr.value)), tries;
      }
      return Reply(true, AllReserved), tries;
    }

    method ReserveItems(order: string, items: seq<Item>, times: seq<int>) returns (reservedCount: int, lastErr: Option<Error>, ghost tries: seq<Attempt>)
      requires Valid() && |times| == |items|
      modifies `stocks, `reservations, `moves, `locks, `nextId, `alerts
      ensures Valid() && locks == old(locks) && alerts == old(alerts)
      ensures |tries| == |items| && Batched(old(T()), old(moves), order, items, times, tries, T(), moves)
      ensures Tallied(tries, reservedCount, lastErr)
      ensures healthy && old(locks) == {} ==> Unspoilt(tries)
    {
      reservedCount, lastErr, tries := 0, None, [];
      BatchStart(T(), moves, order, items, times);
      for n := 0 to |items|
        invariant Valid() && locks == old(locks) && alerts == old(alerts)
        invariant |tries| == n && Batched(old(T()), old(moves), order, items, times, tries, T(), moves)
        invariant Tallied(tries, reservedCount, lastErr)
        invariant healthy && locks == {} ==> Unspoilt(tries)
      {
        var r := TryItem(order, items, times, n, old(T()), old(moves), tries);
        TallyTurn(tries, reservedCount, lastErr, Attempt(items[n], times[n], r));
        tries := tries + [Attempt(items[n], times[n], r)];
        if r.Err? {
          lastErr := Some(r.error);
          continue;
        }
        reservedCount := reservedCount + 1;
      }
    }

    /** One turn of the batch. */
    method TryItem(order: string, items: seq<Item>, times: seq<int>, n: nat, ghost t: Tables, ghost ms: seq<Movement>, ghost tries: seq<Attempt>)
      returns (r: Outcome<Placed>)
      requires Valid() && n == |tries| < |items| == |times|
      requires Batched(t, ms, order, items, times, tries, T(), moves)
      modifies `stocks, `reservations, `moves, `locks, `nextId, `alerts
      ensures Valid() && locks == old(locks) && alerts == old(alerts)
      ensures Batched(t, ms, order, items, times, tries + [Attempt(items[n], times[n], r)], T(), moves)
      ensures healthy && locks == {} && Unspoilt(tries) ==> Unspoilt(tries + [Attempt(items[n], times[n], r)])
    {
      ghost var u, us := T(), moves;
      r := ReserveStock(order, items[n].sku, items[n].warehouse, items[n].qty, times[n]);
      assert items[n] == Item(items[n].sku, items[n].warehouse, items[n].qty);
      BatchTurn(t, ms, order, items, times, tries, u, us, r);
      UnspoiltOneMore(tries, Attempt(items[n], times[n], r));
    }

    /** The gRPC GetStockBySKU: ListStocksBySKU, and two running `int64` sums. */
    method GetStockBySKU(sku: string) returns (r: Outcome<(int, int)>)
      requires Valid()
      ensures r.Err? ==> r == Err(DbFailed) && !healthy
      ensures r.Ok? ==> r.value == (Wrap(Whole(stocks, sku, AvailableQty)), Wrap(Whole(stocks, sku, ReservedQty)))
    {
      var failed := Database();
      if failed {
        return Err(DbFailed);
      }
      var available, reserved := 0, 0;
      var rest := set c | c in stocks && c.sku == sku;
      ghost var left := stocks;
      while rest != {}
        invariant forall c :: c in rest <==> c in left && c.sku == sku
        invariant Summed(stocks, left, sku, available, reserved)
        decreases rest
      {
        var c :| c in rest;
        available, reserved := AddRow(c, sku, left, available, reserved);
        rest, left := rest - {c}, left - {c};
      }
      ReportDone(stocks, left, sku, available, reserved);
      return Ok((available, reserved));
    }

    /** One turn of its loop. */
    method AddRow(c: Cell, sku: string, ghost left: map<Cell, Row>, available: int, reserved: int) returns (a: int, r: int)
      requires Valid() && Summed(stocks, left, sku, available, reserved) && c in left && c in stocks && c.sku == sku
      ensures Summed(stocks, left - {c}, sku, a, r)
    {
      var ps := new ProductStock(stocks[c]);
      ReportTurn(stocks, left, c, sku, available, reserved);
      a := Wrap(available + ps.AvailableQuantity());
      r := Wrap(reserved + ps.reserved);
    }
  }
}
