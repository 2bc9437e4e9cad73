/** Schedules that show what the Redis locks are needed for, and what the wildcard key does not give. */
module Hazards {
  import opened Stock
  import opened Tables
  import opened Calls
  import opened Protocol

  lemma Ran(ls: seq<Label>, l: Label)
    requires Enabled(Exec(ls), l)
    ensures Exec(ls + [l]) == Next(Exec(ls), l)
  {
    assert (ls + [l])[..|ls|] == ls;
  }

  /** Two steps in a row. */
  lemma RanTwice(ls: seq<Label>, k: Label, l: Label)
    requires Enabled(Exec(ls), k) && Enabled(Next(Exec(ls), k), l)
    ensures Exec(ls + [k, l]) == Next(Next(Exec(ls), k), l)
  {
    Ran(ls, k);
    assert ls + [k, l] == ls + [k] + [l];
    Ran(ls + [k], l);
  }

  lemma TwoMore(ls: seq<Label>, k: Label, l: Label)
    ensures ls <= ls + [k, l]
    ensures NoTicks(ls) && !k.Tick? && !l.Tick? ==> NoTicks(ls + [k, l])
  {
  }

  predicate NoTicks(ls: seq<Label>) {
    forall i :: 0 <= i < |ls| ==> !ls[i].Tick?
  }

  lemma PutTwice<K, V>(m: map<K, V>, k: K, v: V, w: V)
    ensures m[k := v][k := w] == m[k := w]
  {
  }

  // ---------------------------------------------------------------- two receipts of a new cell

  function MidReceipt(c: Cell, q: int, ref: string): Proc {
    Running(AddReceipt(c, q, ref), Writing(Missing, Missing), [StockKey(c)], map[], {}, [])
  }

  lemma ReceiptTakesKey(ls: seq<Label>, c: Cell, q: int, ref: string) returns (ls': seq<Label>)
    requires IsQuantity(q) && StockKey(c) !in Exec(ls).locks
    ensures ls <= ls' && (NoTicks(ls) ==> NoTicks(ls'))
    ensures var s, p := Exec(ls), Exec(ls).nextPid;
            Exec(ls') == s.(nextPid := p + 1, born := s.born[p := |s.commits|],
                            procs := s.procs[p := Running(AddReceipt(c, q, ref), Reading, [StockKey(c)], map[], {}, [])],
                            locks := s.locks[StockKey(c) := Lease(p, s.clock + LOCK_TTL)])
  {
    var s := Exec(ls);
    var p, l := s.nextPid, Spawn(s.nextPid, Begin(AddReceipt(c, q, ref)));
    TwoStepsToKey(s, c, q, ref);
    RanTwice(ls, l, TakeLock(p));
    TwoMore(ls, l, TakeLock(p));
    ls' := ls + [l, TakeLock(p)];
  }

  lemma TwoStepsToKey(s: Sys, c: Cell, q: int, ref: string)
    requires IsQuantity(q) && StockKey(c) !in s.locks
    ensures var p, l := s.nextPid, Spawn(s.nextPid, Begin(AddReceipt(c, q, ref)));
            && Enabled(s, l) && Enabled(Next(s, l), TakeLock(p))
            && Next(Next(s, l), TakeLock(p)) ==
               s.(nextPid := p + 1, born := s.born[p := |s.commits|],
                  procs := s.procs[p := Running(AddReceipt(c, q, ref), Reading, [StockKey(c)], map[], {}, [])],
                  locks := s.locks[StockKey(c) := Lease(p, s.clock + LOCK_TTL)])
  {
    var p := s.nextPid;
    var s1 := s.(nextPid := p + 1, born := s.born[p := |s.commits|], procs := s.procs[p := NewReceipt(c, q, ref)]);
    SpawnsReceipt(s, c, q, ref);
    TakesOnlyKey(s1, p, c, q, ref);
    PutTwice(s.procs, p, NewReceipt(c, q, ref), Running(AddReceipt(c, q, ref), Reading, [StockKey(c)], map[], {}, []));
  }

  function NewReceipt(c: Cell, q: int, ref: string): Proc {
    Running(AddReceipt(c, q, ref), Acquiring([StockKey(c)]), [], map[], {}, [])
  }

  lemma SpawnsReceipt(s: Sys, c: Cell, q: int, ref: string)
    requires IsQuantity(q)
    ensures var p, l := s.nextPid, Spawn(s.nextPid, Begin(AddReceipt(c, q, ref)));
            Enabled(s, l) && Next(s, l) == s.(nextPid := p + 1, born := s.born[p := |s.commits|], procs := s.procs[p := NewReceipt(c, q, ref)])
  {
  }

  lemma TakesOnlyKey(s: Sys, p: Pid, c: Cell, q: int, ref: string)
    requires p in s.procs && s.procs[p] == NewReceipt(c, q, ref) && StockKey(c) !in s.locks
    ensures Enabled(s, TakeLock(p))
    ensures Next(s, TakeLock(p)) ==
            s.(procs := s.procs[p := Running(AddReceipt(c, q, ref), Reading, [StockKey(c)], map[], {}, [])],
               locks := s.locks[StockKey(c) := Lease(p, s.clock + LOCK_TTL)])
  {
    assert [] + [StockKey(c)] == [StockKey(c)];
  }

  /** A receipt starts and finds no row. */
  lemma ReceiptFindsNoRow(ls: seq<Label>, c: Cell, q: int, ref: string) returns (ls': seq<Label>)
    requires IsQuantity(q) && c !in Exec(ls).db.stocks && StockKey(c) !in Exec(ls).locks
    ensures ls <= ls' && (NoTicks(ls) ==> NoTicks(ls'))
    ensures var s, p := Exec(ls), Exec(ls).nextPid;
            var s' := Exec(ls');
            && s'.db == s.db && s'.moves == s.moves && s'.clock == s.clock && s'.rowLocks == s.rowLocks && s'.nextPid == p + 1
            && s'.procs == s.procs[p := MidReceipt(c, q, ref)]
            && s'.locks == s.locks[StockKey(c) := Lease(p, s.clock + LOCK_TTL)]
  {
    var p := Exec(ls).nextPid;
    ls' := ReceiptTakesKey(ls, c, q, ref);
    Ran(ls', Read(p));
    ls' := ls' + [Read(p)];
  }

  lemma WriteInserts(s: Sys, p: Pid, c: Cell, q: int, ref: string)
    requires IsQuantity(q) && p in s.procs && s.procs[p] == MidReceipt(c, q, ref) && c !in s.rowLocks
    ensures var P := Running(AddReceipt(c, q, ref), Committing, [StockKey(c)], map[c := Row(q, 0, 0)], {c}, [Receive(c, q, ref)]);
            Enabled(s, Write(p)) && Next(s, Write(p)) == s.(procs := s.procs[p := P], rowLocks := s.rowLocks[c := p])
  {
    assert [] + [Receive(c, q, ref)] == [Receive(c, q, ref)];
  }

  lemma ReceiptWrites(ls: seq<Label>, p: Pid, c: Cell, q: int, ref: string)
    requires IsQuantity(q) && p in Exec(ls).procs && Exec(ls).procs[p] == MidReceipt(c, q, ref) && c !in Exec(ls).rowLocks
    ensures var s := Exec(ls);
            var P := Running(AddReceipt(c, q, ref), Committing, [StockKey(c)], map[c := Row(q, 0, 0)], {c}, [Receive(c, q, ref)]);
            Exec(ls + [Write(p)]) == s.(procs := s.procs[p := P], rowLocks := s.rowLocks[c := p])
  {
    WriteInserts(Exec(ls), p, c, q, ref);
    Ran(ls, Write(p));
  }

  /** It goes on to insert the row and commit. */
  lemma ReceiptInserts(ls: seq<Label>, p: Pid, c: Cell, q: int, ref: string) returns (ls': seq<Label>)
    requires IsQuantity(q) && p in Exec(ls).procs && Exec(ls).procs[p] == MidReceipt(c, q, ref) && c !in Exec(ls).rowLocks
    ensures ls <= ls' && (NoTicks(ls) ==> NoTicks(ls'))
    ensures var s, s' := Exec(ls), Exec(ls');
            && s'.db.stocks == s.db.stocks[c := Row(q, 0, 0)] && s'.moves == s.moves + [Movement(In, c, q, ref)]
            && c !in s'.rowLocks && s'.locks == s.locks
            && s'.procs == s.procs[p := Leaving([StockKey(c)])]
  {
    var ls1 := ls + [Write(p)];
    ReceiptWrites(ls, p, c, q, ref);
    SingleEvent(Exec(ls).db, Receive(c, q, ref));
    Ran(ls1, CommitTx(p));
    ls' := ls1 + [CommitTx(p)];
    var m, m' := Exec(ls).db.stocks, Exec(ls').db.stocks;
    assert m' == m + map[c := Row(q, 0, 0)];
  }

  lemma {:induction false} PromptSoFar(ls: seq<Label>, n: nat)
    requires PromptRun(ls) && n <= |ls|
    ensures Prompt(Exec(ls[..n]))
    decreases |ls|
  {
    if n == |ls| {
      assert ls[..n] == ls;
    } else {
      PromptSoFar(ls[..|ls| - 1], n);
      assert ls[..|ls| - 1][..n] == ls[..n];
    }
  }

  /** The first receipt is in flight, and its lease has run out. */
  lemma LeaseRunsOut(c: Cell) returns (ls: seq<Label>)
    ensures !Prompt(Exec(ls))
    ensures var s := Exec(ls);
            && s.db == NO_TABLES && s.moves == [] && s.rowLocks == map[] && s.nextPid == 1
            && s.procs == map[0 := MidReceipt(c, 5, "first")]
            && StockKey(c) in s.locks && s.locks[StockKey(c)].deadline <= s.clock
  {
    ls := ReceiptFindsNoRow([], c, 5, "first");
    Ran(ls, Tick(LOCK_TTL));
    ls := ls + [Tick(LOCK_TTL)];
    var s := Exec(ls);
    assert s.locks[StockKey(c)] == Lease(0, LOCK_TTL) && StockKey(c) in DefersOf(s.procs[0]);
  }

  lemma TwoMovements(c: Cell)
    ensures LedgerTotal([] + [Movement(In, c, 7, "second")] + [Movement(In, c, 5, "first")], AtCell(c)) == 12
  {
    var ms := [Movement(In, c, 7, "second")];
    assert [] + ms == ms && ms[..0] == [];
    assert (ms + [Movement(In, c, 5, "first")])[..1] == ms;
    assert LedgerTotal(ms, AtCell(c)) == 7;
  }

  /** When a stock lease runs out mid-call, two receipts of a new cell can both insert it, and the
      quantity of one of them is lost: the log no longer replays to the table. */
  lemma ExpiredLeaseLosesReceipt(c: Cell) returns (ls: seq<Label>)
    ensures !PromptRun(ls)
    ensures RowAt(Exec(ls).db, c).total == 5 && LedgerTotal(Exec(ls).moves, AtCell(c)) == 12
  {
    var late := LeaseRunsOut(c);
    Ran(late, Expire(StockKey(c)));
    ls := ReceiptFindsNoRow(late + [Expire(StockKey(c))], c, 7, "second");
    ls := ReceiptInserts(ls, 1, c, 7, "second");
    ls := ReceiptInserts(ls, 0, c, 5, "first");
    TwoMovements(c);
    assert ls[..|late|] == late;
    if PromptRun(ls) {
      PromptSoFar(ls, |late|);
    }
  }

  // ---------------------------------------------------------------- the wildcard key

  lemma TimelessStep(s: Sys, l: Label)
    requires s.clock == 0 && (forall k :: k in s.locks ==> s.locks[k].deadline == LOCK_TTL)
    requires Enabled(s, l) && !l.Tick?
    ensures Next(s, l).clock == 0 && forall k :: k in Next(s, l).locks ==> Next(s, l).locks[k].deadline == LOCK_TTL
  {
    if l.OnRows() {
      RowsAreSteady(s, l);
    } else {
      TimelessOther(s, l);
    }
  }

  lemma TimelessOther(s: Sys, l: Label)
    requires s.clock == 0 && (forall k :: k in s.locks ==> s.locks[k].deadline == LOCK_TTL)
    requires Enabled(s, l) && !l.Tick? && !l.OnRows()
    ensures Next(s, l).clock == 0 && forall k :: k in Next(s, l).locks ==> Next(s, l).locks[k].deadline == LOCK_TTL
  {
  }

  /** In a schedule that takes no time, no lease runs out. */
  lemma {:induction false} TimelessIsPrompt(ls: seq<Label>)
    requires NoTicks(ls)
    ensures PromptRun(ls)
    ensures Exec(ls).clock == 0 && forall k :: k in Exec(ls).locks ==> Exec(ls).locks[k].deadline == LOCK_TTL
    decreases |ls|
  {
    if ls != [] {
      var n := |ls| - 1;
      TimelessIsPrompt(ls[..n]);
      if Enabled(Exec(ls[..n]), ls[n]) {
        TimelessStep(Exec(ls[..n]), ls[n]);
      }
    }
  }

  /** A reserve without a warehouse comes in and takes the wildcard key. */
  lemma TakesWildcard(ls: seq<Label>, o: string, sku: string) returns (ls': seq<Label>)
    requires NoTicks(ls) && AnyStockKey(sku) !in Exec(ls).locks
    ensures NoTicks(ls')
    ensures var s, p := Exec(ls), Exec(ls).nextPid;
            Exec(ls') == s.(nextPid := p + 1, born := s.born[p := |s.commits|],
                            procs := s.procs[p := Anywhere(o, sku, 1, true)],
                            locks := s.locks[AnyStockKey(sku) := Lease(p, s.clock + LOCK_TTL)])
  {
    var s := Exec(ls);
    var p, start := s.nextPid, Anywhere(o, sku, 1, false);
    var s1 := s.(nextPid := p + 1, born := s.born[p := |s.commits|], procs := s.procs[p := start]);
    SpawnsAnywhere(s, start);
    TakesWild(s1, p, o, sku);
    RanTwice(ls, Spawn(p, start), TakeWild(p));
    TwoMore(ls, Spawn(p, start), TakeWild(p));
    PutTwice(s.procs, p, start, Anywhere(o, sku, 1, true));
    ls' := ls + [Spawn(p, start), TakeWild(p)];
  }

  lemma SpawnsAnywhere(s: Sys, start: Proc)
    requires start.Anywhere? && IsQuantity(start.qty) && !start.locked
    ensures Enabled(s, Spawn(s.nextPid, start))
    ensures Next(s, Spawn(s.nextPid, start)) ==
            s.(nextPid := s.nextPid + 1, born := s.born[s.nextPid := |s.commits|], procs := s.procs[s.nextPid := start])
  {
  }

  lemma TakesWild(s: Sys, p: Pid, o: string, sku: string)
    requires p in s.procs && s.procs[p] == Anywhere(o, sku, 1, false) && AnyStockKey(sku) !in s.locks
    ensures Enabled(s, TakeWild(p))
    ensures Next(s, TakeWild(p)) ==
            s.(procs := s.procs[p := Anywhere(o, sku, 1, true)], locks := s.locks[AnyStockKey(sku) := Lease(p, s.clock + LOCK_TTL)])
  {
  }

  /** It chooses the only cell there is and gives the wildcard key back, for the first time. */
  lemma DropsWildcard(ls: seq<Label>, p: Pid, o: string, c: Cell) returns (ls': seq<Label>)
    requires NoTicks(ls) && p in Exec(ls).procs && Exec(ls).procs[p] == Anywhere(o, c.sku, 1, true)
    requires Exec(ls).db.stocks == map[c := Row(5, 0, 0)]
    ensures NoTicks(ls')
    ensures var s := Exec(ls);
            Exec(ls') == s.(locks := s.locks - {AnyStockKey(c.sku)},
                            procs := s.procs[p := Running(ReserveStock(o, c, 1), Acquiring([StockKey(c)]), [AnyStockKey(c.sku)], map[], {}, [])])
  {
    var s := Exec(ls);
    var P := Running(ReserveStock(o, c, 1), Dropping, [AnyStockKey(c.sku)], map[], {}, []);
    var s1 := s.(procs := s.procs[p := P]);
    ChoosesOnlyCell(s, p, o, c);
    DropsOnlyKey(s1, p, o, c);
    RanTwice(ls, Choose(p, c.warehouse), DropWild(p));
    TwoMore(ls, Choose(p, c.warehouse), DropWild(p));
    PutTwice(s.procs, p, P, P.(phase := Acquiring([StockKey(c)])));
    ls' := ls + [Choose(p, c.warehouse), DropWild(p)];
  }

  lemma ChoosesOnlyCell(s: Sys, p: Pid, o: string, c: Cell)
    requires p in s.procs && s.procs[p] == Anywhere(o, c.sku, 1, true) && s.db.stocks == map[c := Row(5, 0, 0)]
    ensures Enabled(s, Choose(p, c.warehouse))
    ensures Next(s, Choose(p, c.warehouse)) ==
            s.(procs := s.procs[p := Running(ReserveStock(o, c, 1), Dropping, [AnyStockKey(c.sku)], map[], {}, [])])
  {
  }

  lemma DropsOnlyKey(s: Sys, p: Pid, o: string, c: Cell)
    requires p in s.procs && s.procs[p] == Running(ReserveStock(o, c, 1), Dropping, [AnyStockKey(c.sku)], map[], {}, [])
    ensures Enabled(s, DropWild(p))
    ensures Next(s, DropWild(p)) ==
            s.(locks := s.locks - {AnyStockKey(c.sku)},
               procs := s.procs[p := Running(ReserveStock(o, c, 1), Acquiring([StockKey(c)]), [AnyStockKey(c.sku)], map[], {}, [])])
  {
    assert (set k | k in [AnyStockKey(c.sku)]) == {AnyStockKey(c.sku)};
  }

  lemma OneReceipt(c: Cell) returns (ls: seq<Label>)
    ensures NoTicks(ls) && Exec(ls).db.stocks == map[c := Row(5, 0, 0)]
    ensures AnyStockKey(c.sku) !in Exec(ls).locks
  {
    ls := ReceiptFindsNoRow([], c, 5, "receipt");
    ls := ReceiptInserts(ls, 0, c, 5, "receipt");
  }

  lemma FailsWaiting(s: Sys, p: Pid, o: string, c: Cell)
    requires p in s.procs && s.procs[p] == Running(ReserveStock(o, c, 1), Acquiring([StockKey(c)]), [AnyStockKey(c.sku)], map[], {}, [])
    ensures Enabled(s, Fail(p))
    ensures Next(s, Fail(p)) == s.(procs := s.procs[p := Leaving([AnyStockKey(c.sku)])], rowLocks := Freed(s.rowLocks, p))
  {
  }

  lemma DeletesKey(s: Sys, p: Pid, k: Key)
    requires p in s.procs && s.procs[p] == Leaving([k])
    ensures Enabled(s, Unlock(p, 0)) && k !in Next(s, Unlock(p, 0)).locks
  {
  }

  /** One automatic reserve waits for the key of its cell, and another one has the wildcard key. */
  lemma TwoAutomatics(c: Cell) returns (ls: seq<Label>, p: Pid, q: Pid)
    ensures NoTicks(ls) && p != q && p in Exec(ls).procs && q in Exec(ls).procs
    ensures Exec(ls).procs[p] == Running(ReserveStock("one", c, 1), Acquiring([StockKey(c)]), [AnyStockKey(c.sku)], map[], {}, [])
    ensures Exec(ls).procs[q] == Anywhere("two", c.sku, 1, true)
    ensures AnyStockKey(c.sku) in Exec(ls).locks && Exec(ls).locks[AnyStockKey(c.sku)].holder == q
  {
    ls := OneReceipt(c);
    p := Exec(ls).nextPid;
    ls := TakesWildcard(ls, "one", c.sku);
    ls := DropsWildcard(ls, p, "one", c);
    q := Exec(ls).nextPid;
    ls := TakesWildcard(ls, "two", c.sku);
  }

  /** The automatic reserve deletes its wildcard key twice: before it takes the key of the chosen
      cell, and again when it returns.  With every lease in time, the second deletion can hit the
      key of another automatic reserve that is still relying on it. */
  lemma WildcardDoesNotExclude(c: Cell) returns (ls: seq<Label>, p: Pid, q: Pid)
    ensures PromptRun(ls) && p != q && Enabled(Exec(ls), Unlock(p, 0))
    ensures q in Exec(ls).procs && Exec(ls).procs[q].Anywhere? && Exec(ls).procs[q].locked && Exec(ls).procs[q].sku == c.sku
    ensures AnyStockKey(c.sku) in Exec(ls).locks && Exec(ls).locks[AnyStockKey(c.sku)].holder == q
    ensures AnyStockKey(c.sku) !in Next(Exec(ls), Unlock(p, 0)).locks
  {
    ls, p, q := TwoAutomatics(c);
    FailsWaiting(Exec(ls), p, "one", c);
    Ran(ls, Fail(p));
    ls := ls + [Fail(p)];
    DeletesKey(Exec(ls), p, AnyStockKey(c.sku));
    TimelessIsPrompt(ls);
  }
}
