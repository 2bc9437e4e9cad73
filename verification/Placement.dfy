/** What one reservation attempt may answer on given tables, what it then does to them, and the
    left fold of attempts that the batch endpoint makes. */
module Placement {
  import opened Options
  import opened Stock
  import opened Tables
  import opened Calls

  datatype Error =
    | BadArgument
    | UnknownWarehouse
    | LockBusy          // the key is set
    | LockFailed        // Redis failed
    | DbFailed          // the connection, a statement or the commit failed
    | CheckRefused      // the statement ran, and a CHECK constraint refused the row
    | NoWarehouse
    | StockNotFound
    | Insufficient

  /** The errors that have no cause in the tables, the keys or the arguments. */
  predicate Broken(e: Error) {
    e == LockFailed || e == DbFailed
  }

  datatype Outcome<+T> = Ok(value: T) | Err(error: Error)

  datatype Placed = Placed(id: Id, warehouse: string)

  /** One line of an order; a blank warehouse asks for an automatic choice. */
  datatype Item = Item(sku: string, warehouse: string, qty: Int64)

  predicate BadItem(order: string, it: Item) {
    order == "" || it.sku == "" || it.qty <= 0
  }

  /** The cells that could take the whole quantity. */
  function Candidates(t: Tables, sku: string, qty: int): set<Cell> {
    set c | c in t.stocks && c.sku == sku && qty <= Available(t.stocks[c])
  }

  /** The row `ORDER BY (total_qty - reserved_qty) DESC LIMIT 1` may return. */
  predicate IsBest(t: Tables, c: Cell, qty: int) {
    c in Candidates(t, c.sku, qty) && forall d :: d in t.stocks && d.sku == c.sku ==> Available(t.stocks[d]) <= Available(t.stocks[c])
  }

  /** The answers ReserveStock may give on `t`.  A failure of Redis or of the database is always
      possible; a refusal by a CHECK is not. */
  ghost predicate Answers(t: Tables, order: string, it: Item, r: Outcome<Placed>) {
    && (r == Err(BadArgument) <==> BadItem(order, it))
    && match r
       case Ok(p) =>
         var c := Cell(it.sku, p.warehouse);
         && (if it.warehouse == "" then IsBest(t, c, it.qty) else p.warehouse == it.warehouse)
         && (if Taken(t, Wanted(order, c, it.qty)) then p.id in t.reservations && Clash(t.reservations[p.id], Wanted(order, c, it.qty))
             else p.id !in t.reservations && c in t.stocks && it.qty <= Available(t.stocks[c]))
       case Err(NoWarehouse) => it.warehouse == "" && Candidates(t, it.sku, it.qty) == {}
       case Err(StockNotFound) =>
         var c := Cell(it.sku, it.warehouse);
         it.warehouse != "" && c !in t.stocks && !Taken(t, Wanted(order, c, it.qty))
       case Err(Insufficient) =>
         var c := Cell(it.sku, it.warehouse);
         it.warehouse != "" && c in t.stocks && Available(t.stocks[c]) < it.qty && !Taken(t, Wanted(order, c, it.qty))
       case Err(UnknownWarehouse) => false
       case Err(CheckRefused) => false
       case _ => true
  }

  /** What the answer means for the tables. */
  ghost function Effect(t: Tables, order: string, it: Item, now: int, r: Outcome<Placed>): seq<Event> {
    if r.Err? || Taken(t, Wanted(order, Cell(it.sku, r.value.warehouse), it.qty)) then []
    else [Hold(r.value.id, Reservation(order, Cell(it.sku, r.value.warehouse), it.qty, Reserved, now + HOLD_TIME))]
  }

  /** The cell ends up with this reservation alive under `id`: as it was found, or newly held. */
  ghost predicate Reserves(t: Tables, ms: seq<Movement>, order: string, c: Cell, qty: int, now: int, id: Id, t': Tables, ms': seq<Movement>) {
    if Taken(t, Wanted(order, c, qty)) then
      id in t.reservations && Clash(t.reservations[id], Wanted(order, c, qty)) && t' == t && ms' == ms
    else
      var e := Hold(id, Reservation(order, c, qty, Reserved, now + HOLD_TIME));
      Legal(t, e) && t' == Apply(t, e) && ms' == ms + Logged(e)
  }

  lemma ReservesIsEffect(t: Tables, ms: seq<Movement>, order: string, it: Item, now: int, p: Placed, t': Tables, ms': seq<Movement>)
    requires Reserves(t, ms, order, Cell(it.sku, p.warehouse), it.qty, now, p.id, t', ms')
    requires if it.warehouse == "" then IsBest(t, Cell(it.sku, p.warehouse), it.qty) else p.warehouse == it.warehouse
    requires !BadItem(order, it)
    ensures Answers(t, order, it, Ok(p))
    ensures t' == ApplyAll(t, Effect(t, order, it, now, Ok(p)))
    ensures ms' == ms + LoggedAll(Effect(t, order, it, now, Ok(p)))
  {
    var c := Cell(it.sku, p.warehouse);
    if Taken(t, Wanted(order, c, it.qty)) {
      assert ms + LoggedAll([]) == ms;
    } else {
      SingleEvent(t, Hold(p.id, Reservation(order, c, it.qty, Reserved, now + HOLD_TIME)));
    }
  }

  /** A successful attempt is a serial ReserveStock of the chosen cell. */
  lemma AnswerIsCall(t: Tables, order: string, it: Item, now: int, r: Outcome<Placed>)
    requires Answers(t, order, it, r) && r.Ok?
    ensures Does(t, ReserveStock(order, Cell(it.sku, r.value.warehouse), it.qty), Effect(t, order, it, now, r))
  {
  }

  /** Automatic choice is complete: unless Redis, the database or the arguments fail, it succeeds
      exactly when some single warehouse has the whole quantity available, never ends in "stock not
      found" or "insufficient stock", and a success names a cell of maximal availability. */
  lemma AutomaticChoiceIsComplete(t: Tables, order: string, it: Item, r: Outcome<Placed>)
    requires it.warehouse == "" && Answers(t, order, it, r)
    requires r.Err? ==> !Broken(r.error) && r.error !in {BadArgument, LockBusy}
    ensures r.Ok? <==> exists c :: c in t.stocks && c.sku == it.sku && it.qty <= Available(t.stocks[c])
    ensures r.Err? ==> r == Err(NoWarehouse)
    ensures r.Ok? ==> forall d :: d in t.stocks && d.sku == it.sku ==>
                        Available(t.stocks[d]) <= Available(RowAt(t, Cell(it.sku, r.value.warehouse)))
  {
    if r.Err? {
      assert r == Err(NoWarehouse);
      forall c | c in t.stocks && c.sku == it.sku ensures Available(t.stocks[c]) < it.qty {
        assert c !in Candidates(t, it.sku, it.qty);
      }
    }
  }

  /** With the warehouse given, a reserve succeeds exactly when it has been made already or the cell
      has the quantity available. */
  lemma ExplicitReserveIsComplete(t: Tables, order: string, it: Item, r: Outcome<Placed>)
    requires it.warehouse != "" && Answers(t, order, it, r)
    requires r.Err? ==> !Broken(r.error) && r.error !in {BadArgument, LockBusy}
    ensures var c := Cell(it.sku, it.warehouse);
            r.Ok? <==> Taken(t, Wanted(order, c, it.qty)) || (c in t.stocks && it.qty <= Available(t.stocks[c]))
  {
  }

  /** Both at once, for an answer that infrastructure did not spoil. */
  lemma AnswerDecides(t: Tables, order: string, it: Item, r: Outcome<Placed>)
    requires Answers(t, order, it, r)
    ensures (r.Err? ==> !Broken(r.error) && r.error !in {BadArgument, LockBusy}) ==>
              var c := Cell(it.sku, it.warehouse);
              (r.Ok? <==> if it.warehouse == "" then Candidates(t, it.sku, it.qty) != {}
                          else Taken(t, Wanted(order, c, it.qty)) || (c in t.stocks && it.qty <= Available(t.stocks[c])))
  {
    if r.Ok? && it.warehouse == "" {
      assert Cell(it.sku, r.value.warehouse) in Candidates(t, it.sku, it.qty);
    }
  }

  /** Repeating an explicit-warehouse reserve after any run that did not settle it: infrastructure
      aside it succeeds, returns the reservation it made the first time, and has no effect. */
  lemma RetryReturnsTheSame(t: Tables, h: seq<Step>, order: string, it: Item, now: int, id: Id, r: Outcome<Placed>)
    requires Sound(t) && Serial(t, h) && it.warehouse != "" && !BadItem(order, it)
    requires id in t.reservations && Clash(t.reservations[id], Wanted(order, Cell(it.sku, it.warehouse), it.qty))
    requires forall e :: e in Calls.Effects(h) && e.Settle? ==> e.id != id
    requires Answers(Replay(t, h), order, it, r)
    ensures r.Ok? ==> r.value == Placed(id, it.warehouse) && Effect(Replay(t, h), order, it, now, r) == []
    ensures r.Err? ==> Broken(r.error) || r.error == LockBusy
  {
    var c := Cell(it.sku, it.warehouse);
    var u := Replay(t, h);
    SerialIsLegal(t, h);
    ReplayIsEffects(t, h);
    KeepsLive(t, Calls.Effects(h), id);
    assert Taken(u, Wanted(order, c, it.qty));
    if r.Ok? {
      AnswerIsCall(u, order, it, now, r);
      RetryIsIdempotent(t, h, order, c, it.qty, id, Effect(u, order, it, now, r));
    }
  }

  // ---------------------------------------------------------------- the batch

  /** An attempt on an item at a time, with its answer. */
  datatype Attempt = Attempt(item: Item, now: int, answer: Outcome<Placed>)

  /** The effects of attempts for one order, each made on what the ones before it left. */
  ghost function Fold(t: Tables, order: string, tries: seq<Attempt>): seq<Event> {
    if tries == [] then []
    else
      var es := Fold(t, order, tries[..|tries| - 1]);
      var a := tries[|tries| - 1];
      es + Effect(ApplyAll(t, es), order, a.item, a.now, a.answer)
  }

  /** Every answer is one the code may give on the tables that attempt met. */
  ghost predicate AnswersAll(t: Tables, order: string, tries: seq<Attempt>) {
    tries == [] ||
    var front, a := tries[..|tries| - 1], tries[|tries| - 1];
    AnswersAll(t, order, front) && Answers(ApplyAll(t, Fold(t, order, front)), order, a.item, a.answer)
  }

  function Successes(tries: seq<Attempt>): (n: nat)
    ensures n <= |tries|
  {
    if tries == [] then 0 else Successes(tries[..|tries| - 1]) + if tries[|tries| - 1].answer.Ok? then 1 else 0
  }

  lemma FoldOneMore(t: Tables, order: string, tries: seq<Attempt>, a: Attempt)
    ensures var es := Fold(t, order, tries);
            && Fold(t, order, tries + [a]) == es + Effect(ApplyAll(t, es), order, a.item, a.now, a.answer)
            && (AnswersAll(t, order, tries + [a]) <==> AnswersAll(t, order, tries) && Answers(ApplyAll(t, es), order, a.item, a.answer))
  {
    assert (tries + [a])[..|tries|] == tries;
  }

  lemma SuccessesOneMore(tries: seq<Attempt>, a: Attempt)
    ensures Successes(tries + [a]) == Successes(tries) + if a.answer.Ok? then 1 else 0
  {
    assert (tries + [a])[..|tries|] == tries;
  }

  /** Counting decides who succeeded. */
  lemma {:induction false} SuccessesCount(tries: seq<Attempt>)
    ensures Successes(tries) == |tries| <==> forall k :: 0 <= k < |tries| ==> tries[k].answer.Ok?
    ensures Successes(tries) == 0 <==> forall k :: 0 <= k < |tries| ==> tries[k].answer.Err?
    decreases |tries|
  {
    if tries != [] {
      var n := |tries| - 1;
      SuccessesCount(tries[..n]);
      assert forall k :: 0 <= k < n ==> tries[..n][k] == tries[k];
      assert (forall k :: 0 <= k < |tries| ==> tries[k].answer.Ok?) ==> forall k :: 0 <= k < n ==> tries[..n][k].answer.Ok?;
      assert (forall k :: 0 <= k < |tries| ==> tries[k].answer.Err?) ==> forall k :: 0 <= k < n ==> tries[..n][k].answer.Err?;
    }
  }

  /** A batch is a serial run of its successful attempts; the failed ones leave no trace. */
  lemma {:induction false} BatchIsSerial(t: Tables, order: string, tries: seq<Attempt>) returns (h: seq<Step>)
    requires AnswersAll(t, order, tries)
    ensures Serial(t, h) && Effects(h) == Fold(t, order, tries) && |h| == Successes(tries)
    ensures forall s :: s in h ==> s.call.ReserveStock? && s.call.order == order
    decreases |tries|
  {
    if tries == [] {
      h := [];
    } else {
      var n := |tries| - 1;
      var a := tries[n];
      var before := BatchIsSerial(t, order, tries[..n]);
      ReplayIsEffects(t, before);
      var u := Replay(t, before);
      if a.answer.Ok? {
        AnswerIsCall(u, order, a.item, a.now, a.answer);
        var last := Step(ReserveStock(order, Cell(a.item.sku, a.answer.value.warehouse), a.item.qty),
                         Effect(u, order, a.item, a.now, a.answer));
        h := before + [last];
        assert h[..|h| - 1] == before;
      } else {
        h := before;
      }
    }
  }

  datatype Note = OrderMissing | ItemsMissing | Refused(last: Error) | Partly(last: Error) | AllReserved

  datatype Reply = Reply(success: bool, note: Note)

  /** The error of the last attempt that failed. */
  ghost predicate LastError(tries: seq<Attempt>, e: Error) {
    exists k :: 0 <= k < |tries| && tries[k].answer == Err(e) && forall j :: k < j < |tries| ==> tries[j].answer.Ok?
  }

  /** The reply that fits the attempts of a batch. */
  ghost predicate Reports(tries: seq<Attempt>, reply: Reply) {
    && (reply.success <==> exists k :: 0 <= k < |tries| && tries[k].answer.Ok?)
    && (reply.note == AllReserved <==> forall k :: 0 <= k < |tries| ==> tries[k].answer.Ok?)
    && (reply.note.Refused? <==> !reply.success)
    && (reply.note.Refused? || reply.note.Partly? ==> LastError(tries, reply.note.last))
    && !reply.note.OrderMissing? && !reply.note.ItemsMissing?
  }

  // ---------------------------------------------------------------- the batch loop

  /** The first `|tries|` items at the first `|tries|` times. */
  ghost predicate AttemptsOf(items: seq<Item>, times: seq<int>, tries: seq<Attempt>) {
    && |tries| <= |items| && |tries| <= |times|
    && forall k :: 0 <= k < |tries| ==> tries[k].item == items[k] && tries[k].now == times[k]
  }

  lemma AttemptsOneMore(items: seq<Item>, times: seq<int>, tries: seq<Attempt>, a: Attempt)
    requires AttemptsOf(items, times, tries) && |tries| < |items| && |tries| < |times|
    requires a.item == items[|tries|] && a.now == times[|tries|]
    ensures AttemptsOf(items, times, tries + [a])
  {
  }

  /** The first `|tries|` items have been attempted, and led to `t'` and `ms'`. */
  ghost predicate Batched(t: Tables, ms: seq<Movement>, order: string, items: seq<Item>, times: seq<int>,
                          tries: seq<Attempt>, t': Tables, ms': seq<Movement>)
  {
    && AttemptsOf(items, times, tries)
    && AnswersAll(t, order, tries)
    && t' == ApplyAll(t, Fold(t, order, tries))
    && ms' == ms + LoggedAll(Fold(t, order, tries))
  }

  lemma BatchStart(t: Tables, ms: seq<Movement>, order: string, items: seq<Item>, times: seq<int>)
    ensures Batched(t, ms, order, items, times, [], t, ms)
  {
    assert ms + LoggedAll([]) == ms;
  }

  lemma FoldTurn(t: Tables, ms: seq<Movement>, order: string, tries: seq<Attempt>, a: Attempt)
    ensures var es := Fold(t, order, tries);
            var more := Effect(ApplyAll(t, es), order, a.item, a.now, a.answer);
            && ApplyAll(t, Fold(t, order, tries + [a])) == ApplyAll(ApplyAll(t, es), more)
            && ms + LoggedAll(Fold(t, order, tries + [a])) == ms + LoggedAll(es) + LoggedAll(more)
  {
    var es := Fold(t, order, tries);
    var more := Effect(ApplyAll(t, es), order, a.item, a.now, a.answer);
    assert Fold(t, order, tries + [a]) == es + more by {
      FoldOneMore(t, order, tries, a);
    }
    ApplyConcat(t, es, more);
    calc {
      ms + LoggedAll(es + more);
    == { LoggedConcat(es, more); }
      ms + (LoggedAll(es) + LoggedAll(more));
    == { Regroup(ms, LoggedAll(es), LoggedAll(more)); }
      ms + LoggedAll(es) + LoggedAll(more);
    }
  }

  lemma BatchTurn(t: Tables, ms: seq<Movement>, order: string, items: seq<Item>, times: seq<int>,
                  tries: seq<Attempt>, u: Tables, us: seq<Movement>, r: Outcome<Placed>)
    requires Batched(t, ms, order, items, times, tries, u, us) && |tries| < |items| && |tries| < |times|
    requires Answers(u, order, items[|tries|], r)
    ensures var a := Attempt(items[|tries|], times[|tries|], r);
            var more := Effect(u, order, a.item, a.now, r);
            Batched(t, ms, order, items, times, tries + [a], ApplyAll(u, more), us + LoggedAll(more))
  {
    var a := Attempt(items[|tries|], times[|tries|], r);
    AttemptsOneMore(items, times, tries, a);
    FoldTurn(t, ms, order, tries, a);
    FoldOneMore(t, order, tries, a);
  }

  /** Every failure has its cause in the arguments or the tables. */
  predicate Unspoilt(tries: seq<Attempt>) {
    forall k :: 0 <= k < |tries| && tries[k].answer.Err? ==> !Broken(tries[k].answer.error) && tries[k].answer.error != LockBusy
  }

  lemma UnspoiltOneMore(tries: seq<Attempt>, a: Attempt)
    ensures Unspoilt(tries) && (a.answer.Err? ==> !Broken(a.answer.error) && a.answer.error != LockBusy) ==> Unspoilt(tries + [a])
  {
  }

  /** `reservedCount` and `lastErr` after some attempts. */
  ghost predicate Tallied(tries: seq<Attempt>, reservedCount: int, lastErr: Option<Error>) {
    && reservedCount == Successes(tries)
    && match lastErr
       case None => forall k :: 0 <= k < |tries| ==> tries[k].answer.Ok?
       case Some(e) => LastError(tries, e)
  }

  lemma TallyTurn(tries: seq<Attempt>, reservedCount: int, lastErr: Option<Error>, a: Attempt)
    requires Tallied(tries, reservedCount, lastErr)
    ensures a.answer.Err? ==> Tallied(tries + [a], reservedCount, Some(a.answer.error))
    ensures a.answer.Ok? ==> Tallied(tries + [a], reservedCount + 1, lastErr)
  {
    SuccessesOneMore(tries, a);
    assert (tries + [a])[|tries|] == a;
    if a.answer.Err? {
      LatestIsLast(tries, a);
    } else if lastErr.Some? {
      LastErrorStays(tries, lastErr.value, a);
    }
  }

  lemma LatestIsLast(tries: seq<Attempt>, a: Attempt)
    requires a.answer.Err?
    ensures LastError(tries + [a], a.answer.error)
  {
    assert (tries + [a])[|tries|].answer == Err(a.answer.error);
  }

  lemma LastErrorStays(tries: seq<Attempt>, e: Error, a: Attempt)
    requires LastError(tries, e) && a.answer.Ok?
    ensures LastError(tries + [a], e)
  {
    var k :| 0 <= k < |tries| && tries[k].answer == Err(e) && forall j :: k < j < |tries| ==> tries[j].answer.Ok?;
    assert (tries + [a])[k].answer == Err(e);
  }

  /** The branches at the end of the endpoint: an error is there whenever its text is needed, and
      what they answer is what happened. */
  lemma TallyReports(tries: seq<Attempt>, reservedCount: int, lastErr: Option<Error>)
    requires Tallied(tries, reservedCount, lastErr) && tries != []
    ensures reservedCount < |tries| ==> lastErr.Some?
    ensures reservedCount == 0 && lastErr.Some? ==> Reports(tries, Reply(false, Refused(lastErr.value)))
    ensures 0 < reservedCount < |tries| ==> Reports(tries, Reply(true, Partly(lastErr.value)))
    ensures reservedCount == |tries| ==> Reports(tries, Reply(true, AllReserved))
  {
    SuccessesCount(tries);
  }
}
