/** The use cases as interleaved processes over shared tables.

    A process takes Redis locks one at a time, opens a transaction, reads reservations without a
    lock, locks stock rows as it reads them, keeps its writes to itself until it commits, and
    deletes its Redis keys on the way out.  Transactions run at READ COMMITTED: an unlocked read
    and a `FOR UPDATE` read both see the latest committed data, a locked row stays locked until
    the transaction ends, and reading a missing row locks nothing.  Redis leases expire; deleting
    a key deletes it whoever holds it.  Any transaction may abort and any process may crash. */
module Protocol {
  import opened Stock
  import opened Tables
  import opened Calls

  type Pid = nat

  /** The TTL of every Redis lock, in seconds. */
  const LOCK_TTL: int := 8

  /** The Redis value is constant; `holder` is history, and no step looks at it. */
  datatype Lease = Lease(holder: Pid, deadline: int)

  datatype Seen = Missing | Found(row: Row)

  datatype Phase =
    | Dropping                          // automatic choice made, wildcard key still to be deleted
    | Acquiring(todo: seq<Key>)
    | Scanning                          // reserve: about to look for the same reservation
    | Holding                           // reserve: about to lock the row and reserve
    | Settling(rows: seq<(Id, Reservation)>, orders: seq<string>)
    | Reading                           // about to read the (source) row
    | ReadingTarget(source: Row)        // transfer: about to read the destination row
    | Writing(origin: Seen, seen: Seen) // receipt, transfer: rows read, about to upsert
    | Committing

  datatype Proc =
    | Anywhere(order: string, sku: string, qty: int, locked: bool)  // reserve without a warehouse
    | Sweeping                                                      // cleanup before its first listing
    | Running(call: Call, phase: Phase, defers: seq<Key>, writes: map<Cell, Row>, inserts: set<Cell>, events: seq<Event>)
    | Leaving(defers: seq<Key>)                                     // transaction over, keys to delete

  datatype Commit = Commit(pid: Pid, step: Step)

  datatype Sys = Sys(
    clock: int,
    db: Tables,
    moves: seq<Movement>,
    locks: map<Key, Lease>,
    rowLocks: map<Cell, Pid>,
    procs: map<Pid, Proc>,
    nextPid: Pid,
    commits: seq<Commit>,   // history: what has committed, in commit order
    born: map<Pid, nat>)    // history: how much had committed when a call started

  const BOOT: Sys := Sys(0, NO_TABLES, [], map[], map[], map[], 0, [], map[])

  datatype Label =
    | Spawn(p: Pid, start: Proc)
    | TakeWild(p: Pid)
    | Choose(p: Pid, warehouse: string)
    | DropWild(p: Pid)
    | Sweep(p: Pid, found: seq<string>)
    | TakeLock(p: Pid)
    | Scan(p: Pid)
    | HoldRow(p: Pid)
    | ListOrder(p: Pid, listing: seq<(Id, Reservation)>)
    | SettleRow(p: Pid)
    | Read(p: Pid)
    | ReadTarget(p: Pid)
    | Write(p: Pid)
    | CommitTx(p: Pid)
    | Fail(p: Pid)          // lock busy or lost, guard or CHECK failed, database error, deadlock
    | Unlock(p: Pid, i: nat)
    | Finish(p: Pid)
    | Crash(p: Pid)
    | Tick(seconds: nat)
    | Expire(key: Key)
  {
    /** The steps in the middle of a transaction. */
    predicate OnRows() {
      HoldRow? || ListOrder? || SettleRow? || Read? || ReadTarget? || Write?
    }

    /** The steps from the commit on, and those of the environment. */
    predicate AtEnd() {
      CommitTx? || Fail? || Unlock? || Finish? || Crash? || Tick? || Expire?
    }
  }

  // ---------------------------------------------------------------- the calls

  /** What the argument checks at the head of each use case let through. */
  predicate Valid(call: Call) {
    match call
    case ReserveStock(_, _, q) => IsQuantity(q)
    case AddReceipt(_, q, _) => IsQuantity(q)
    case Transfer(_, from, to, q, _) => IsQuantity(q) && from != to
    case _ => true
  }

  function FirstPhase(call: Call): Phase {
    match call
    case ReserveStock(_, _, _) => Scanning
    case ReleaseStock(o) => Settling([], [o])
    case ConfirmStock(o) => Settling([], [o])
    case Cleanup(_, orders) => Settling([], orders)
    case _ => Reading
  }

  function Begin(call: Call): Proc {
    Running(call, if KeysOf(call) == [] then FirstPhase(call) else Acquiring(KeysOf(call)), [], map[], {}, [])
  }

  predicate Distinct(orders: seq<string>) {
    forall i, j :: 0 <= i < j < |orders| ==> orders[i] != orders[j]
  }

  /** The rows `SELECT ... WHERE order_id` returns, in any order, less those the loop skips. */
  ghost predicate Lists(m: map<Id, Reservation>, call: Call, o: string, rows: seq<(Id, Reservation)>) {
    && (forall i :: 0 <= i < |rows| ==>
          rows[i].0 in m && m[rows[i].0] == rows[i].1 && rows[i].1.order == o && call.Picks(rows[i].1))
    && (forall i, j :: 0 <= i < j < |rows| ==> rows[i].0 != rows[j].0)
    && (forall id :: id in m && m[id].order == o && call.Picks(m[id]) ==> exists i :: 0 <= i < |rows| && rows[i].0 == id)
  }

  /** What `ListExpiredReservations` can lead to: distinct orders, each with a due reservation.
      `SKIP LOCKED` may leave out any of them. */
  ghost predicate CanFind(m: map<Id, Reservation>, now: int, found: seq<string>) {
    && found != []
    && Distinct(found)
    && forall i :: 0 <= i < |found| ==>
         exists id :: id in m && m[id].order == found[i] && m[id].status == Reserved && m[id].expiry <= now
  }

  // ---------------------------------------------------------------- rows

  predicate RowFree(s: Sys, c: Cell, p: Pid) {
    c in s.rowLocks ==> s.rowLocks[c] == p
  }

  predicate HasRow(s: Sys, p: Pid, c: Cell) {
    c in s.rowLocks && s.rowLocks[c] == p
  }

  /** A `FOR UPDATE` read can proceed: a missing row locks nothing. */
  predicate CanRead(s: Sys, c: Cell, p: Pid) {
    c in s.db.stocks ==> RowFree(s, c, p)
  }

  function Look(s: Sys, c: Cell): Seen {
    if c in s.db.stocks then Found(s.db.stocks[c]) else Missing
  }

  function Or(seen: Seen): Row {
    if seen.Found? then seen.row else EMPTY_ROW
  }

  function LockRow(s: Sys, c: Cell, p: Pid): map<Cell, Pid> {
    if c in s.db.stocks then s.rowLocks[c := p] else s.rowLocks
  }

  function Freed(locks: map<Cell, Pid>, p: Pid): map<Cell, Pid> {
    map c | c in locks && locks[c] != p :: locks[c]
  }

  /** The row of `c` as the transaction sees it. */
  function Current(s: Sys, writes: map<Cell, Row>, c: Cell): Row {
    if c in writes then writes[c] else RowAt(s.db, c)
  }

  // ---------------------------------------------------------------- steps

  predicate IsRunning(s: Sys, p: Pid) {
    p in s.procs && s.procs[p].Running?
  }

  ghost predicate Enabled(s: Sys, l: Label) {
    match l
    case Spawn(p, start) =>
      && p == s.nextPid
      && (start == Sweeping
          || (start.Anywhere? && IsQuantity(start.qty) && !start.locked)
          || (start.Running? && Valid(start.call) && !start.call.Cleanup? && start == Begin(start.call)))
    case TakeWild(p) =>
      p in s.procs && s.procs[p].Anywhere? && !s.procs[p].locked && AnyStockKey(s.procs[p].sku) !in s.locks
    case Choose(p, w) =>
      && p in s.procs && s.procs[p].Anywhere? && s.procs[p].locked
      && Cell(s.procs[p].sku, w) in s.db.stocks
      && s.procs[p].qty <= Available(s.db.stocks[Cell(s.procs[p].sku, w)])
      && forall c :: c in s.db.stocks && c.sku == s.procs[p].sku ==>
           Available(s.db.stocks[c]) <= Available(s.db.stocks[Cell(s.procs[p].sku, w)])
    case DropWild(p) => IsRunning(s, p) && s.procs[p].phase.Dropping?
    case Sweep(p, found) => p in s.procs && s.procs[p].Sweeping? && CanFind(s.db.reservations, s.clock, found)
    case TakeLock(p) =>
      IsRunning(s, p) && s.procs[p].phase.Acquiring? && s.procs[p].phase.todo != [] && s.procs[p].phase.todo[0] !in s.locks
    case Scan(p) => IsRunning(s, p) && s.procs[p].phase.Scanning? && s.procs[p].call.ReserveStock?
    case HoldRow(p) =>
      && IsRunning(s, p) && s.procs[p].phase.Holding? && s.procs[p].call.ReserveStock?
      && s.procs[p].call.cell in s.db.stocks
      && RowFree(s, s.procs[p].call.cell, p)
      && s.procs[p].call.qty <= GoAvailable(s.db.stocks[s.procs[p].call.cell])
    case ListOrder(p, rows) =>
      && IsRunning(s, p) && s.procs[p].phase.Settling? && s.procs[p].call.Settles()
      && s.procs[p].phase.rows == [] && s.procs[p].phase.orders != []
      && Lists(s.db.reservations, s.procs[p].call, s.procs[p].phase.orders[0], rows)
    case SettleRow(p) =>
      && IsRunning(s, p) && s.procs[p].phase.Settling? && s.procs[p].call.Settles()
      && s.procs[p].phase.rows != []
      && s.procs[p].phase.rows[0].1.cell in s.db.stocks
      && RowFree(s, s.procs[p].phase.rows[0].1.cell, p)
    case Read(p) =>
      && IsRunning(s, p) && s.procs[p].phase.Reading?
      && (match s.procs[p].call
          case AddReceipt(c, _, _) => CanRead(s, c, p)
          case UpdateSafety(c, _) => CanRead(s, c, p)
          case Transfer(sku, from, _, q, _) =>
            Cell(sku, from) in s.db.stocks && RowFree(s, Cell(sku, from), p) && q <= GoAvailable(s.db.stocks[Cell(sku, from)])
          case _ => false)
    case ReadTarget(p) =>
      && IsRunning(s, p) && s.procs[p].phase.ReadingTarget? && s.procs[p].call.Transfer?
      && CanRead(s, Cell(s.procs[p].call.sku, s.procs[p].call.target), p)
    case Write(p) =>
      && IsRunning(s, p) && s.procs[p].phase.Writing?
      && (match s.procs[p].call
          case AddReceipt(c, q, _) => RowFree(s, c, p) && Check(GoAddTotal(Or(s.procs[p].phase.seen), q))
          case Transfer(sku, from, to, q, _) =>
            && RowFree(s, Cell(sku, from), p) && RowFree(s, Cell(sku, to), p)
            && Check(GoAddTotal(Or(s.procs[p].phase.seen), q))
          case _ => false)
    case CommitTx(p) => IsRunning(s, p) && s.procs[p].phase.Committing?
    case Fail(p) => p in s.procs && !s.procs[p].Leaving?
    case Unlock(p, i) => p in s.procs && s.procs[p].Leaving? && i < |s.procs[p].defers|
    case Finish(p) => p in s.procs && s.procs[p] == Leaving([])
    case Crash(p) => p in s.procs
    case Tick(_) => true
    case Expire(k) => k in s.locks && s.locks[k].deadline <= s.clock
  }

  function Moved(s: Sys, p: Pid, proc: Proc): Sys {
    s.(procs := s.procs[p := proc])
  }

  function Grab(s: Sys, p: Pid, k: Key): map<Key, Lease> {
    s.locks[k := Lease(p, s.clock + LOCK_TTL)]
  }

  function Left(proc: Proc): Proc {
    match proc
    case Anywhere(_, sku, _, locked) => Leaving(if locked then [AnyStockKey(sku)] else [])
    case Sweeping => Leaving([])
    case Running(_, _, defers, _, _, _) => Leaving(defers)
    case Leaving(_) => proc
  }

  /** Rollback, and on to the deferred unlocks. */
  function Failed(s: Sys, p: Pid): Sys
    requires p in s.procs
  {
    Moved(s, p, Left(s.procs[p])).(rowLocks := Freed(s.rowLocks, p))
  }

  function AfterRow(rows: seq<(Id, Reservation)>, orders: seq<string>): Phase {
    if rows == [] && orders == [] then Committing else Settling(rows, orders)
  }

  function DidHoldRow(s: Sys, p: Pid): Sys
    requires IsRunning(s, p) && s.procs[p].call.ReserveStock? && s.procs[p].call.cell in s.db.stocks
  {
    var P := s.procs[p];
    var c := P.call.cell;
    var e := Hold(p, Reservation(P.call.order, c, P.call.qty, Reserved, s.clock + HOLD_TIME));
    Moved(s, p, P.(phase := Committing, writes := P.writes[c := GoStep(s.db.stocks[c], e)], events := P.events + [e]))
      .(rowLocks := s.rowLocks[c := p])
  }

  function DidSettleRow(s: Sys, p: Pid): Sys
    requires IsRunning(s, p) && s.procs[p].phase.Settling? && s.procs[p].phase.rows != []
  {
    var P := s.procs[p];
    var (id, v) := P.phase.rows[0];
    var e := Settle(id, v, P.call.How());
    Moved(s, p, P.(
      phase := AfterRow(P.phase.rows[1..], P.phase.orders),
      writes := P.writes[v.cell := GoStep(Current(s, P.writes, v.cell), e)],
      events := P.events + [e])).(rowLocks := s.rowLocks[v.cell := p])
  }

  function DidRead(s: Sys, p: Pid): Sys
    requires IsRunning(s, p)
  {
    var P := s.procs[p];
    match P.call
    case AddReceipt(c, _, _) =>
      Moved(s, p, P.(phase := Writing(Missing, Look(s, c)))).(rowLocks := LockRow(s, c, p))
    case UpdateSafety(c, level) =>
      if c in s.db.stocks then
        var e := SetSafety(c, level);
        Moved(s, p, P.(phase := Committing, writes := P.writes[c := GoStep(s.db.stocks[c], e)], events := P.events + [e]))
          .(rowLocks := s.rowLocks[c := p])
      else
        Failed(s, p)  // nothing to update: returns nil without a commit
    case Transfer(sku, from, _, _, _) =>
      Moved(s, p, P.(phase := ReadingTarget(RowAt(s.db, Cell(sku, from))))).(rowLocks := s.rowLocks[Cell(sku, from) := p])
    case _ => s
  }

  function DidReadTarget(s: Sys, p: Pid): Sys
    requires IsRunning(s, p) && s.procs[p].phase.ReadingTarget? && s.procs[p].call.Transfer?
  {
    var P := s.procs[p];
    var c := Cell(P.call.sku, P.call.target);
    Moved(s, p, P.(phase := Writing(Found(P.phase.source), Look(s, c)))).(rowLocks := LockRow(s, c, p))
  }

  /** The cells an upsert writes without having read a row. */
  function Blind(c: Cell, seen: Seen): set<Cell> {
    if seen.Missing? then {c} else {}
  }

  function DidWrite(s: Sys, p: Pid): Sys
    requires IsRunning(s, p) && s.procs[p].phase.Writing?
  {
    var P := s.procs[p];
    match P.call
    case AddReceipt(c, q, ref) =>
      var e := Receive(c, q, ref);
      Moved(s, p, P.(
        phase := Committing,
        writes := P.writes[c := GoStep(Or(P.phase.seen), e)],
        inserts := Blind(c, P.phase.seen),
        events := P.events + [e])).(rowLocks := s.rowLocks[c := p])
    case Transfer(sku, from, to, q, ref) =>
      var (a, b) := (Cell(sku, from), Cell(sku, to));
      var (d, e) := (Dispatch(a, q, ref), Arrive(b, q, ref));
      Moved(s, p, P.(
        phase := Committing,
        writes := P.writes[a := GoStep(Or(P.phase.origin), d)][b := GoStep(Or(P.phase.seen), e)],
        inserts := Blind(b, P.phase.seen),
        events := P.events + [d, e])).(rowLocks := s.rowLocks[a := p][b := p])
    case _ => s
  }

  /** COMMIT publishes the transaction's rows, row by row over whatever is there. */
  function DidCommit(s: Sys, p: Pid): Sys
    requires IsRunning(s, p)
  {
    var P := s.procs[p];
    s.(db := Tables(s.db.stocks + P.writes, RewriteAll(s.db.reservations, P.events)),
       moves := s.moves + LoggedAll(P.events),
       commits := s.commits + [Commit(p, Step(P.call, P.events))],
       procs := s.procs[p := Leaving(P.defers)],
       rowLocks := Freed(s.rowLocks, p))
  }

  function Next(s: Sys, l: Label): Sys
    requires Enabled(s, l)
  {
    match l
    case Spawn(p, start) => Moved(s, p, start).(nextPid := p + 1, born := s.born[p := |s.commits|])
    case TakeWild(p) => Moved(s, p, s.procs[p].(locked := true)).(locks := Grab(s, p, AnyStockKey(s.procs[p].sku)))
    case Choose(p, w) =>
      var P := s.procs[p];
      Moved(s, p, Running(ReserveStock(P.order, Cell(P.sku, w), P.qty), Dropping, [AnyStockKey(P.sku)], map[], {}, []))
    case DropWild(p) =>
      var P := s.procs[p];
      Moved(s, p, P.(phase := Acquiring(KeysOf(P.call)))).(locks := s.locks - (set k | k in P.defers))
    case Sweep(p, found) => Moved(s, p, Begin(Cleanup(s.clock, found)))
    case TakeLock(p) =>
      var P := s.procs[p];
      var k, rest := P.phase.todo[0], P.phase.todo[1..];
      Moved(s, p, P.(phase := if rest == [] then FirstPhase(P.call) else Acquiring(rest), defers := P.defers + [k]))
        .(locks := Grab(s, p, k))
    case Scan(p) =>
      var P := s.procs[p];
      if Taken(s.db, Wanted(P.call.order, P.call.cell, P.call.qty)) then Failed(s, p)  // returns the one found
      else Moved(s, p, P.(phase := Holding))
    case HoldRow(p) => DidHoldRow(s, p)
    case ListOrder(p, rows) =>
      var P := s.procs[p];
      Moved(s, p, P.(phase := AfterRow(rows, P.phase.orders[1..])))
    case SettleRow(p) => DidSettleRow(s, p)
    case Read(p) => DidRead(s, p)
    case ReadTarget(p) => DidReadTarget(s, p)
    case Write(p) => DidWrite(s, p)
    case CommitTx(p) => DidCommit(s, p)
    case Fail(p) => Failed(s, p)
    case Unlock(p, i) =>
      var ks := s.procs[p].defers;
      Moved(s, p, Leaving(ks[..i] + ks[i + 1..])).(locks := s.locks - {ks[i]})
    case Finish(p) => s.(procs := s.procs - {p})
    case Crash(p) => s.(procs := s.procs - {p}, rowLocks := Freed(s.rowLocks, p))
    case Tick(d) => s.(clock := s.clock + d)
    case Expire(k) => s.(locks := s.locks - {k})
  }

  /** The state a schedule leads to from empty tables; a step that is not enabled is skipped, so
      every sequence of labels is a run and every run is one of them. */
  ghost function Exec(ls: seq<Label>): Sys {
    if ls == [] then BOOT
    else
      var s := Exec(ls[..|ls| - 1]);
      if Enabled(s, ls[|ls| - 1]) then Next(s, ls[|ls| - 1]) else s
  }

  function DefersOf(proc: Proc): seq<Key> {
    match proc
    case Anywhere(_, sku, _, locked) => if locked then [AnyStockKey(sku)] else []
    case Sweeping => []
    case Running(_, _, defers, _, _, _) => defers
    case Leaving(defers) => defers
  }

  /** No lease has run out under a process that still has it to release. */
  predicate Prompt(s: Sys) {
    forall k :: k in s.locks && s.locks[k].holder in s.procs && k in DefersOf(s.procs[s.locks[k].holder])
                ==> s.clock < s.locks[k].deadline
  }

  /** No lock expires mid-call at any point of the schedule. */
  ghost predicate PromptRun(ls: seq<Label>) {
    Prompt(Exec(ls)) && (ls == [] || PromptRun(ls[..|ls| - 1]))
  }

  // ---------------------------------------------------------------- frame

  /** Between `s` and `s'` only process `p` and its row locks have changed, and it keeps its call and
      the keys it has to delete. */
  ghost predicate Steady(s: Sys, s': Sys, p: Pid) {
    && s' == s.(procs := s'.procs, rowLocks := s'.rowLocks)
    && IsRunning(s, p) && p in s'.procs && s'.procs == s.procs[p := s'.procs[p]]
    && !s.procs[p].phase.Acquiring? && !s.procs[p].phase.Dropping?
    && DefersOf(s'.procs[p]) == s.procs[p].defers
    && (s'.procs[p].Leaving?
        || (s'.procs[p].Running? && s'.procs[p].call == s.procs[p].call && !s'.procs[p].phase.Acquiring? && !s'.procs[p].phase.Dropping?))
  }

  /** The steps in the middle of a transaction are private to it. */
  lemma RowsAreSteady(s: Sys, l: Label)
    requires Enabled(s, l) && l.OnRows()
    ensures Steady(s, Next(s, l), l.p)
  {
  }
}
