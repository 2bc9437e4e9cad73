/** What PostgreSQL's row locks guarantee alone.  No assumption is made about Redis: leases may run
    out, and keys may be deleted by anyone, at any time. */
module RowSafety {
  import opened Stock
  import opened Tables
  import opened Plans
  import opened Calls
  import opened Protocol

  /** The effect in exact integers, with the counters a settlement lowers kept from going below zero. */
  function Adjusted(r: Row, e: Event): Row {
    var b := Bump(r, e);
    if e.Settle? then b.(total := Clamp(b.total), reserved := Clamp(b.reserved)) else b
  }

  /** A row with the effects that fall on its cell. */
  function Folded(r: Row, es: seq<Event>, c: Cell): Row {
    if es == [] then r
    else
      var before, e := Folded(r, es[..|es| - 1], c), es[|es| - 1];
      if e.Where() == c then Adjusted(before, e) else before
  }

  lemma FoldedOneMore(r: Row, es: seq<Event>, e: Event, c: Cell)
    ensures Folded(r, es + [e], c) == if e.Where() == c then Adjusted(Folded(r, es, c), e) else Folded(r, es, c)
  {
    assert (es + [e])[..|es|] == es;
  }

  lemma {:induction false} FoldedElsewhere(r: Row, es: seq<Event>, c: Cell)
    requires forall i :: 0 <= i < |es| ==> es[i].Where() != c
    ensures Folded(r, es, c) == r
    decreases |es|
  {
    if es != [] {
      FoldedElsewhere(r, es[..|es| - 1], c);
    }
  }

  /** A row the transaction has locked and read, and that is still what is committed. */
  predicate Loaded(s: Sys, p: Pid, c: Cell, r: Row) {
    HasRow(s, p, c) && c in s.db.stocks && s.db.stocks[c] == r && InBounds(r)
  }

  /** The private rows are in bounds and locked. */
  predicate Bounded(s: Sys, p: Pid, writes: map<Cell, Row>) {
    forall c :: c in writes ==> InBounds(writes[c]) && HasRow(s, p, c)
  }

  /** They are the committed rows, or empty rows if found missing, with the transaction's own effects. */
  ghost predicate Prepared(stocks: map<Cell, Row>, writes: map<Cell, Row>, inserts: set<Cell>, es: seq<Event>) {
    && (forall c :: c in writes && c !in inserts ==> c in stocks && writes[c] == Folded(stocks[c], es, c))
    && (forall c :: c in writes && c in inserts ==> writes[c] == Folded(EMPTY_ROW, es, c))
  }

  /** Every effect has its row. */
  predicate Covered(writes: map<Cell, Row>, es: seq<Event>) {
    forall i :: 0 <= i < |es| ==> es[i].Where() in writes && (es[i].Hold? ==> IsQuantity(es[i].row.qty))
  }

  ghost predicate PrivateOk(s: Sys, p: Pid, writes: map<Cell, Row>, inserts: set<Cell>, es: seq<Event>) {
    Bounded(s, p, writes) && Prepared(s.db.stocks, writes, inserts, es) && Covered(writes, es)
  }

  /** The effects a transaction has prepared so far are those of its call. */
  predicate Fits(call: Call, es: seq<Event>) {
    match call
    case ReserveStock(_, _, _) => forall i :: 0 <= i < |es| ==> es[i].Hold?
    case AddReceipt(c, q, ref) => es == [] || es == [Receive(c, q, ref)]
    case Transfer(sku, from, to, q, ref) => es == [] || es == [Dispatch(Cell(sku, from), q, ref), Arrive(Cell(sku, to), q, ref)]
    case UpdateSafety(_, _) => forall i :: 0 <= i < |es| ==> es[i].SetSafety?
    case _ => forall i :: 0 <= i < |es| ==> es[i].Settle? && es[i].how == call.How() && es[i].row.status == Reserved && IsQuantity(es[i].row.qty)
  }

  /** Rows found missing: only receipts and transfers insert. */
  predicate InsertsFit(call: Call, writes: map<Cell, Row>, inserts: set<Cell>) {
    inserts <= writes.Keys && (inserts != {} ==> call.AddReceipt? || call.Transfer?)
  }

  predicate Fresh(P: Proc)
    requires P.Running?
  {
    P.events == [] && P.writes == map[] && P.inserts == {}
  }

  ghost predicate PhaseRows(s: Sys, p: Pid, P: Proc)
    requires P.Running?
  {
    match P.phase
    case Settling(rows, _) =>
      P.inserts == {} && P.call.Settles() && forall i :: 0 <= i < |rows| ==> IsQuantity(rows[i].1.qty) && rows[i].1.status == Reserved
    case ReadingTarget(r) =>
      Fresh(P) && P.call.Transfer? && Loaded(s, p, Cell(P.call.sku, P.call.source), r) && P.call.qty <= Available(r)
    case Writing(origin, seen) =>
      && Fresh(P)
      && (P.call.AddReceipt? && seen.Found? ==> Loaded(s, p, P.call.cell, seen.row))
      && (P.call.Transfer? ==>
            && origin.Found? && Loaded(s, p, Cell(P.call.sku, P.call.source), origin.row) && P.call.qty <= Available(origin.row)
            && (seen.Found? ==> Loaded(s, p, Cell(P.call.sku, P.call.target), seen.row)))
    case Committing => true
    case _ => Fresh(P)
  }

  ghost predicate RowProc(s: Sys, p: Pid, P: Proc) {
    match P
    case Anywhere(_, _, qty, _) => IsQuantity(qty)
    case Running(call, _, _, writes, inserts, es) =>
      Valid(call) && PrivateOk(s, p, writes, inserts, es) && Fits(call, es) && InsertsFit(call, writes, inserts) && PhaseRows(s, p, P)
    case _ => true
  }

  ghost predicate RowsOk(s: Sys) {
    && (forall c :: c in s.db.stocks ==> InBounds(s.db.stocks[c]))
    && (forall id :: id in s.db.reservations ==> IsQuantity(s.db.reservations[id].qty))
    && (forall p :: p in s.procs ==> RowProc(s, p, s.procs[p]))
  }

  // ---------------------------------------------------------------- frames

  /** The rows `q` has locked are as they were, and still locked by it. */
  ghost predicate RowsKept(s: Sys, s': Sys, q: Pid) {
    forall c :: HasRow(s, q, c) ==>
      HasRow(s', q, c) && (c in s.db.stocks <==> c in s'.db.stocks) && (c in s.db.stocks ==> s'.db.stocks[c] == s.db.stocks[c])
  }

  lemma KeptStaysOk(s: Sys, s': Sys, q: Pid, Q: Proc)
    requires RowProc(s, q, Q) && RowsKept(s, s', q)
    ensures RowProc(s', q, Q)
  {
  }

  lemma {:induction false} QuantitiesStay(m: map<Id, Reservation>, es: seq<Event>)
    requires forall id :: id in m ==> IsQuantity(m[id].qty)
    requires forall i :: 0 <= i < |es| && es[i].Hold? ==> IsQuantity(es[i].row.qty)
    ensures forall id :: id in RewriteAll(m, es) ==> IsQuantity(RewriteAll(m, es)[id].qty)
    decreases |es|
  {
    if es != [] {
      QuantitiesStay(m, es[..|es| - 1]);
    }
  }

  // ---------------------------------------------------------------- steps

  /** A process that only changes itself, its Redis keys or its row locks. */
  lemma OwnStep(s: Sys, s': Sys, p: Pid)
    requires RowsOk(s) && s'.db == s.db
    requires forall q :: q in s'.procs && q != p ==> q in s.procs && s'.procs[q] == s.procs[q]
    requires forall q, c :: q != p && HasRow(s, q, c) ==> HasRow(s', q, c)
    requires p in s'.procs ==> RowProc(s', p, s'.procs[p])
    ensures RowsOk(s')
  {
    forall q | q in s'.procs ensures RowProc(s', q, s'.procs[q]) {
      if q != p {
        KeptStaysOk(s, s', q, s.procs[q]);
      }
    }
  }

  lemma PreparedOneMore(stocks: map<Cell, Row>, writes: map<Cell, Row>, es: seq<Event>, e: Event, r: Row)
    requires Prepared(stocks, writes, {}, es) && Covered(writes, es) && e.Where() in stocks
    requires r == Adjusted(if e.Where() in writes then writes[e.Where()] else stocks[e.Where()], e)
    ensures Prepared(stocks, writes[e.Where() := r], {}, es + [e])
  {
    var w := e.Where();
    if w !in writes {
      FoldedElsewhere(stocks[w], es, w);
    }
    forall c | c in writes || c == w ensures c in stocks && writes[w := r][c] == Folded(stocks[c], es + [e], c) {
      FoldedOneMore(stocks[c], es, e, c);
    }
  }

  lemma CoveredOneMore(writes: map<Cell, Row>, es: seq<Event>, e: Event, r: Row)
    requires Covered(writes, es) && (e.Hold? ==> IsQuantity(e.row.qty))
    ensures Covered(writes[e.Where() := r], es + [e])
  {
  }

  lemma PrivateOneMore(s: Sys, s': Sys, p: Pid, writes: map<Cell, Row>, es: seq<Event>, e: Event, r: Row)
    requires PrivateOk(s, p, writes, {}, es) && s'.db == s.db && (e.Hold? ==> IsQuantity(e.row.qty))
    requires forall c :: HasRow(s, p, c) || c == e.Where() ==> HasRow(s', p, c)
    requires e.Where() in s.db.stocks && r == Adjusted(Current(s, writes, e.Where()), e) && InBounds(r)
    ensures PrivateOk(s', p, writes[e.Where() := r], {}, es + [e])
  {
    PreparedOneMore(s.db.stocks, writes, es, e, r);
    CoveredOneMore(writes, es, e, r);
  }

  lemma HoldRowKeeps(s: Sys, p: Pid)
    requires RowsOk(s) && IsRunning(s, p) && s.procs[p].phase.Holding? && s.procs[p].call.ReserveStock?
    requires s.procs[p].call.cell in s.db.stocks && RowFree(s, s.procs[p].call.cell, p)
    requires s.procs[p].call.qty <= GoAvailable(s.db.stocks[s.procs[p].call.cell])
    ensures RowsOk(DidHoldRow(s, p))
  {
    var P, s' := s.procs[p], DidHoldRow(s, p);
    var c := P.call.cell;
    AvailableIsExact(s.db.stocks[c]);
    ProposalsPassChecks(s.db.stocks[c], P.call.qty);
    var e := Hold(p, Reservation(P.call.order, c, P.call.qty, Reserved, s.clock + HOLD_TIME));
    PrivateOneMore(s, s', p, P.writes, P.events, e, GoStep(s.db.stocks[c], e));
    OwnStep(s, s', p);
  }

  /** Clamped differences of bounded rows fit an `int64`. */
  lemma SettlementNeverWraps(r: Row, e: Event)
    requires InBounds(r) && e.Settle? && IsQuantity(e.row.qty)
    ensures GoStep(r, e) == Adjusted(r, e) && InBounds(GoStep(r, e))
  {
    ProposalsPassChecks(r, e.row.qty);
    assert e.how == Confirming || e.how == Releasing || e.how == Expiring;
  }

  lemma SettleRowFits(s: Sys, p: Pid, id: Id, v: Reservation)
    requires IsRunning(s, p) && RowProc(s, p, s.procs[p]) && s.procs[p].phase.Settling? && s.procs[p].phase.rows != []
    requires (id, v) == s.procs[p].phase.rows[0]
    ensures Fits(s.procs[p].call, s.procs[p].events + [Settle(id, v, s.procs[p].call.How())])
  {
  }

  lemma SettleRowKeeps(s: Sys, p: Pid)
    requires RowsOk(s) && IsRunning(s, p) && s.procs[p].phase.Settling? && s.procs[p].call.Settles() && s.procs[p].phase.rows != []
    requires s.procs[p].phase.rows[0].1.cell in s.db.stocks && RowFree(s, s.procs[p].phase.rows[0].1.cell, p)
    ensures RowsOk(DidSettleRow(s, p))
  {
    var P := s.procs[p];
    var (id, v) := P.phase.rows[0];
    var r := Current(s, P.writes, v.cell);
    var e := Settle(id, v, P.call.How());
    SettlementNeverWraps(r, e);
    PrivateOneMore(s, DidSettleRow(s, p), p, P.writes, P.events, e, GoStep(r, e));
    SettleRowFits(s, p, id, v);
    OwnStep(s, DidSettleRow(s, p), p);
  }

  lemma SafetyKeeps(s: Sys, p: Pid)
    requires RowsOk(s) && IsRunning(s, p) && s.procs[p].phase.Reading? && s.procs[p].call.UpdateSafety?
    requires CanRead(s, s.procs[p].call.cell, p)
    ensures RowsOk(DidRead(s, p))
  {
    var P, s' := s.procs[p], DidRead(s, p);
    var c := P.call.cell;
    if c in s.db.stocks {
      PrivateOneMore(s, s', p, P.writes, P.events, SetSafety(c, P.call.level), s.db.stocks[c].(safety := P.call.level));
    }
    OwnStep(s, s', p);
  }

  lemma ReadKeeps(s: Sys, p: Pid)
    requires RowsOk(s) && Enabled(s, Read(p)) && !s.procs[p].call.UpdateSafety?
    ensures RowsOk(DidRead(s, p))
  {
    var P := s.procs[p];
    if P.call.Transfer? {
      AvailableIsExact(s.db.stocks[Cell(P.call.sku, P.call.source)]);
    }
    OwnStep(s, DidRead(s, p), p);
  }

  lemma ReadTargetKeeps(s: Sys, p: Pid)
    requires RowsOk(s) && Enabled(s, ReadTarget(p))
    ensures RowsOk(DidReadTarget(s, p))
  {
    OwnStep(s, DidReadTarget(s, p), p);
  }

  lemma ReceiptIsPrivate(s: Sys, p: Pid, c: Cell, seen: Seen, q: int, ref: string)
    requires (seen.Found? ==> Loaded(s, p, c, seen.row)) && HasRow(s, p, c)
    requires IsQuantity(q) && Check(GoAddTotal(Or(seen), q))
    ensures var e := Receive(c, q, ref);
            PrivateOk(s, p, map[c := GoStep(Or(seen), e)], Blind(c, seen), [e])
  {
    var e := Receive(c, q, ref);
    AddTotalIsExactOrRefused(Or(seen), q);
    OneEffect(Or(seen), e);
  }

  lemma OneEffect(r: Row, e: Event)
    ensures Folded(r, [e], e.Where()) == Adjusted(r, e)
  {
    assert [] + [e] == [e];
    FoldedOneMore(r, [], e, e.Where());
  }

  lemma TwoEffects(r: Row, d: Event, e: Event, c: Cell)
    requires d.Where() != e.Where()
    ensures Folded(r, [d, e], c) == if c == d.Where() then Adjusted(r, d) else if c == e.Where() then Adjusted(r, e) else r
  {
    assert [d, e] == [d] + [e] && [d] == [] + [d];
    FoldedOneMore(r, [d], e, c);
    FoldedOneMore(r, [], d, c);
  }

  lemma TransferIsPrivate(s: Sys, p: Pid, a: Cell, b: Cell, origin: Row, seen: Seen, q: int, ref: string)
    requires a != b && Loaded(s, p, a, origin) && (seen.Found? ==> Loaded(s, p, b, seen.row)) && HasRow(s, p, b)
    requires IsQuantity(q) && q <= Available(origin) && Check(GoAddTotal(Or(seen), q))
    ensures var d, e := Dispatch(a, q, ref), Arrive(b, q, ref);
            PrivateOk(s, p, map[a := GoStep(origin, d), b := GoStep(Or(seen), e)], Blind(b, seen), [d, e])
  {
    var d, e := Dispatch(a, q, ref), Arrive(b, q, ref);
    AvailableIsExact(origin);
    ProposalsPassChecks(origin, q);
    AddTotalIsExactOrRefused(Or(seen), q);
    TwoEffects(origin, d, e, a);
    TwoEffects(Or(seen), d, e, b);
  }

  lemma WriteReceiptKeeps(s: Sys, p: Pid)
    requires RowsOk(s) && Enabled(s, Write(p)) && s.procs[p].call.AddReceipt?
    ensures RowsOk(DidWrite(s, p))
  {
    var P, s' := s.procs[p], DidWrite(s, p);
    var c := P.call.cell;
    ReceiptIsPrivate(s', p, c, P.phase.seen, P.call.qty, P.call.reference);
    assert [] + [Receive(c, P.call.qty, P.call.reference)] == [Receive(c, P.call.qty, P.call.reference)];
    OwnStep(s, s', p);
  }

  lemma WriteTransferKeeps(s: Sys, p: Pid)
    requires RowsOk(s) && IsRunning(s, p) && s.procs[p].phase.Writing? && s.procs[p].call.Transfer?
    requires RowFree(s, Cell(s.procs[p].call.sku, s.procs[p].call.source), p) && RowFree(s, Cell(s.procs[p].call.sku, s.procs[p].call.target), p)
    requires Check(GoAddTotal(Or(s.procs[p].phase.seen), s.procs[p].call.qty))
    ensures RowsOk(DidWrite(s, p))
  {
    var P, s' := s.procs[p], DidWrite(s, p);
    var a, b := Cell(P.call.sku, P.call.source), Cell(P.call.sku, P.call.target);
    var d, e := Dispatch(a, P.call.qty, P.call.reference), Arrive(b, P.call.qty, P.call.reference);
    TransferIsPrivate(s', p, a, b, P.phase.origin.row, P.phase.seen, P.call.qty, P.call.reference);
    assert [] + [d, e] == [d, e];
    OwnStep(s, s', p);
  }

  lemma CommitKeeps(s: Sys, p: Pid)
    requires RowsOk(s) && Enabled(s, CommitTx(p))
    ensures RowsOk(DidCommit(s, p))
  {
    var P, s' := s.procs[p], DidCommit(s, p);
    QuantitiesStay(s.db.reservations, P.events);
    forall q | q in s'.procs && q != p ensures RowProc(s', q, s'.procs[q]) {
      KeptStaysOk(s, s', q, s.procs[q]);
    }
  }

  lemma StartKeeps(s: Sys, l: Label)
    requires RowsOk(s) && Enabled(s, l) && (l.Spawn? || l.TakeWild? || l.Choose? || l.Sweep?)
    ensures RowsOk(Next(s, l))
  {
    OwnStep(s, Next(s, l), l.p);
  }

  lemma LockKeeps(s: Sys, l: Label)
    requires RowsOk(s) && Enabled(s, l) && (l.DropWild? || l.TakeLock? || l.Scan?)
    ensures RowsOk(Next(s, l))
  {
    OwnStep(s, Next(s, l), l.p);
  }

  lemma ListKeeps(s: Sys, l: Label)
    requires RowsOk(s) && Enabled(s, l) && l.ListOrder?
    ensures RowsOk(Next(s, l))
  {
    OwnStep(s, Next(s, l), l.p);
  }

  lemma EndKeeps(s: Sys, l: Label)
    requires RowsOk(s) && Enabled(s, l) && (l.Fail? || l.Unlock? || l.Finish? || l.Crash? || l.Tick? || l.Expire?)
    ensures RowsOk(Next(s, l))
  {
    OwnStep(s, Next(s, l), if l.Tick? || l.Expire? then 0 else l.p);
  }

  lemma StepKeepsRows(s: Sys, l: Label)
    requires RowsOk(s) && Enabled(s, l)
    ensures RowsOk(Next(s, l))
  {
    match l
    case HoldRow(p) => HoldRowKeeps(s, p);
    case SettleRow(p) => SettleRowKeeps(s, p);
    case Read(p) =>
      if s.procs[p].call.UpdateSafety? {
        SafetyKeeps(s, p);
      } else {
        ReadKeeps(s, p);
      }
    case ReadTarget(p) => ReadTargetKeeps(s, p);
    case Write(p) =>
      if s.procs[p].call.AddReceipt? {
        WriteReceiptKeeps(s, p);
      } else {
        WriteTransferKeeps(s, p);
      }
    case CommitTx(p) => CommitKeeps(s, p);
    case ListOrder(_, _) => ListKeeps(s, l);
    case Spawn(_, _) => StartKeeps(s, l);
    case TakeWild(_) => StartKeeps(s, l);
    case Choose(_, _) => StartKeeps(s, l);
    case Sweep(_, _) => StartKeeps(s, l);
    case DropWild(_) => LockKeeps(s, l);
    case TakeLock(_) => LockKeeps(s, l);
    case Scan(_) => LockKeeps(s, l);
    case _ => EndKeeps(s, l);
  }

  lemma {:induction false} RowsAlwaysOk(ls: seq<Label>)
    ensures RowsOk(Exec(ls))
    decreases |ls|
  {
    if ls != [] {
      var n := |ls| - 1;
      RowsAlwaysOk(ls[..n]);
      if Enabled(Exec(ls[..n]), ls[n]) {
        StepKeepsRows(Exec(ls[..n]), ls[n]);
      }
    }
  }

  // ---------------------------------------------------------------- main results

  /** No oversell without Redis: under every schedule, with leases expiring or deleted at any time,
      every committed row and every row a transaction proposes satisfies 0 <= reserved <= total. */
  lemma RowsStayInBounds(ls: seq<Label>, p: Pid)
    ensures forall c :: c in Exec(ls).db.stocks ==> InBounds(Exec(ls).db.stocks[c])
    ensures IsRunning(Exec(ls), p) ==> forall c :: c in Exec(ls).procs[p].writes ==> InBounds(Exec(ls).procs[p].writes[c])
  {
    RowsAlwaysOk(ls);
  }

  /** No update of an existing row is lost and no `int64` sum wraps, again under every schedule: a
      commit leaves each row it had read as the row committed just before it with the transaction's
      own effects applied in exact integers, each row it had found missing as if that row had been
      empty, and every other row alone. */
  lemma NoLostUpdate(ls: seq<Label>, p: Pid, c: Cell)
    requires Enabled(Exec(ls), CommitTx(p))
    ensures var s := Exec(ls);
            var P := s.procs[p];
            && (c in P.writes && c !in P.inserts ==>
                  c in s.db.stocks && RowAt(DidCommit(s, p).db, c) == Folded(s.db.stocks[c], P.events, c))
            && (c in P.writes && c in P.inserts ==> RowAt(DidCommit(s, p).db, c) == Folded(EMPTY_ROW, P.events, c))
            && (c !in P.writes ==> RowAt(DidCommit(s, p).db, c) == RowAt(s.db, c))
  {
    RowsAlwaysOk(ls);
  }

  // ---------------------------------------------------------------- the ledger without Redis

  /** By how much the total of a cell is ahead of the movement log. */
  ghost function Drift(s: Sys, c: Cell): int {
    RowAt(s.db, c).total - LedgerTotal(s.moves, AtCell(c))
  }

  /** What the movements of some effects add to the total of a cell. */
  function LoggedTotal(es: seq<Event>, c: Cell): int {
    if es == [] then 0 else LoggedTotal(es[..|es| - 1], c) + TotalChange(AtCell(c), es[|es| - 1])
  }

  lemma {:induction false} LedgerAfter(ms: seq<Movement>, es: seq<Event>, c: Cell)
    ensures LedgerTotal(ms + LoggedAll(es), AtCell(c)) == LedgerTotal(ms, AtCell(c)) + LoggedTotal(es, c)
    decreases |es|
  {
    if es == [] {
      assert ms + LoggedAll(es) == ms;
    } else {
      var front, e := es[..|es| - 1], es[|es| - 1];
      LedgerAfter(ms, front, c);
      LedgerAppend(ms + LoggedAll(front), e, AtCell(c));
      Regroup(ms, LoggedAll(front), Logged(e));
    }
  }

  /** Without settlements the total changes by what is logged. */
  lemma {:induction false} TotalWithoutSettling(r: Row, es: seq<Event>, c: Cell)
    requires forall i :: 0 <= i < |es| ==> !es[i].Settle?
    ensures Folded(r, es, c).total == r.total + LoggedTotal(es, c)
    decreases |es|
  {
    if es != [] {
      TotalWithoutSettling(r, es[..|es| - 1], c);
    }
  }

  /** A release or an expiry leaves the total alone and logs nothing for it; a confirmation logs all it
      settles, and takes that, or all there is, from the total. */
  lemma {:induction false} TotalAfterSettling(r: Row, es: seq<Event>, how: Ending, c: Cell)
    requires 0 <= r.total
    requires forall i :: 0 <= i < |es| ==> es[i].Settle? && es[i].how == how && es[i].row.status == Reserved && IsQuantity(es[i].row.qty)
    ensures LoggedTotal(es, c) == if how == Confirming then -Planned(es, AtCell(c)) else 0
    ensures Folded(r, es, c).total == if how == Confirming then Clamp(r.total - Planned(es, AtCell(c))) else r.total
    ensures 0 <= Planned(es, AtCell(c))
    decreases |es|
  {
    if es != [] {
      TotalAfterSettling(r, es[..|es| - 1], how, c);
    }
  }

  lemma {:induction false} NothingElsewhere(writes: map<Cell, Row>, es: seq<Event>, c: Cell)
    requires Covered(writes, es) && c !in writes
    ensures LoggedTotal(es, c) == 0 && Planned(es, AtCell(c)) == 0
    decreases |es|
  {
    if es != [] {
      NothingElsewhere(writes, es[..|es| - 1], c);
    }
  }

  /** The transaction of `P` took nothing from the total of `c` that was not there, and did not put
      its own row over another one. */
  predicate KeepsLedger(t: Tables, P: Proc, c: Cell)
    requires P.Running?
  {
    if c in P.inserts then RowAt(t, c).total == 0
    else P.call.ConfirmStock? ==> Planned(P.events, AtCell(c)) <= RowAt(t, c).total
  }

  /** How far the commit moves the total of a row away from what it logs. */
  lemma CommitMoves(P: Proc, r: Row, c: Cell)
    requires P.Running? && Fits(P.call, P.events) && InBounds(r)
    ensures P.call.Settles() ==>
              Folded(r, P.events, c).total - r.total - LoggedTotal(P.events, c)
              == if P.call.ConfirmStock? then Clamp(Planned(P.events, AtCell(c)) - r.total) else 0
    ensures !P.call.Settles() ==> Folded(r, P.events, c).total - r.total == LoggedTotal(P.events, c)
  {
    if P.call.Settles() {
      TotalAfterSettling(r, P.events, P.call.How(), c);
    } else {
      TotalWithoutSettling(r, P.events, c);
    }
  }

  /** The row a commit leaves. */
  function RowLeft(t: Tables, P: Proc, c: Cell): Row
    requires P.Running?
  {
    if c !in P.writes then RowAt(t, c) else Folded(if c in P.inserts then EMPTY_ROW else RowAt(t, c), P.events, c)
  }

  lemma CommitLeaves(s: Sys, p: Pid, c: Cell)
    requires IsRunning(s, p) && RowProc(s, p, s.procs[p])
    ensures RowAt(DidCommit(s, p).db, c) == RowLeft(s.db, s.procs[p], c)
  {
  }

  lemma RowLeftInStep(t: Tables, P: Proc, c: Cell)
    requires P.Running? && Fits(P.call, P.events) && InsertsFit(P.call, P.writes, P.inserts) && Covered(P.writes, P.events)
    requires InBounds(RowAt(t, c))
    ensures RowLeft(t, P, c).total - RowAt(t, c).total == LoggedTotal(P.events, c) <==> KeepsLedger(t, P, c)
  {
    if c !in P.writes {
      NothingElsewhere(P.writes, P.events, c);
    } else if c in P.inserts {
      CommitMoves(P, EMPTY_ROW, c);
    } else {
      CommitMoves(P, RowAt(t, c), c);
    }
  }

  /** Ledger replay without Redis: under every schedule a commit keeps the total of a cell in step with
      the movement log if and only if it does not insert its row blind over one with stock, and, if it
      is a confirmation, the row has as much as it takes. */
  lemma LedgerStaysInStep(ls: seq<Label>, p: Pid, c: Cell)
    requires Enabled(Exec(ls), CommitTx(p))
    ensures var s := Exec(ls);
            Drift(DidCommit(s, p), c) == Drift(s, c) <==> KeepsLedger(s.db, s.procs[p], c)
  {
    RowsAlwaysOk(ls);
    DriftAfter(Exec(ls), p, c);
  }

  lemma DriftAfter(s: Sys, p: Pid, c: Cell)
    requires RowsOk(s) && IsRunning(s, p)
    ensures Drift(DidCommit(s, p), c) == Drift(s, c) <==> KeepsLedger(s.db, s.procs[p], c)
  {
    assert RowProc(s, p, s.procs[p]);
    LedgerAfter(s.moves, s.procs[p].events, c);
    CommitLeaves(s, p, c);
    RowLeftInStep(s.db, s.procs[p], c);
  }
}
