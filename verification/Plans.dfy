/** Settlement plans: the effects of a loop that ends every reservation of a listing.  Release,
    confirm and cleanup differ only in which reservations they list and how these end. */
module Plans {
  import opened Stock
  import opened Tables

  function Ids(es: seq<Event>): set<Id> {
    if es == [] then {}
    else
      var e := es[|es| - 1];
      Ids(es[..|es| - 1]) + if e.Settle? then {e.id} else {}
  }

  lemma IdsOneMore(es: seq<Event>, e: Event)
    ensures Ids(es + [e]) == Ids(es) + if e.Settle? then {e.id} else {}
  {
    assert (es + [e])[..|es|] == es;
  }

  lemma {:induction false} IdsConcat(a: seq<Event>, b: seq<Event>)
    ensures Ids(a + b) == Ids(a) + Ids(b)
    decreases |b|
  {
    if b == [] {
      assert a + b == a;
    } else {
      IdsConcat(a, b[..|b| - 1]);
      assert (a + b)[..|a + b| - 1] == a + b[..|b| - 1];
    }
  }

  lemma {:induction false} IdsAreSettled(es: seq<Event>)
    ensures forall e :: e in es && e.Settle? ==> e.id in Ids(es)
    ensures forall id :: id in Ids(es) ==> exists e :: e in es && e.Settle? && e.id == id
    decreases |es|
  {
    if es != [] {
      IdsAreSettled(es[..|es| - 1]);
    }
  }

  /** `es` ends distinct live reservations of `m`, each with the row the table holds. */
  ghost predicate Listed(m: map<Id, Reservation>, es: seq<Event>, how: Ending) {
    && (forall i :: 0 <= i < |es| ==> es[i].Settle? && es[i].how == how && es[i].row.status == Reserved)
    && (forall i :: 0 <= i < |es| ==> es[i].id in m && m[es[i].id] == es[i].row)
    && (forall i, j :: 0 <= i < j < |es| ==> es[i].id != es[j].id)
  }

  lemma NoIdsNoEvents(m: map<Id, Reservation>, es: seq<Event>, how: Ending)
    requires Listed(m, es, how)
    ensures es != [] ==> exists id :: id in Ids(es)
  {
    if es != [] {
      IdsAreSettled(es);
      assert es[0] in es;
    }
  }

  /** The effects of running a listing. */
  function Ends(rows: seq<(Id, Reservation)>, how: Ending): (es: seq<Event>)
    ensures |es| == |rows|
    ensures forall i :: 0 <= i < |es| ==> es[i] == Settle(rows[i].0, rows[i].1, how)
  {
    seq(|rows|, i requires 0 <= i < |rows| => Settle(rows[i].0, rows[i].1, how))
  }

  /** The quantity a plan settles in a scope. */
  function Planned(es: seq<Event>, f: Scope): int {
    if es == [] then 0
    else Planned(es[..|es| - 1], f) + (if es[|es| - 1].Settle? then Weight(f, es[|es| - 1].row) else 0)
  }

  lemma PlannedOneMore(es: seq<Event>, e: Event, f: Scope)
    requires e.Settle?
    ensures Planned(es + [e], f) == Planned(es, f) + Weight(f, e.row)
  {
    assert (es + [e])[..|es|] == es;
  }

  lemma {:induction false} PlannedInSameScopes(es: seq<Event>, f: Scope, g: Scope)
    requires forall e :: e in es && e.Settle? ==> Weight(f, e.row) == Weight(g, e.row)
    ensures Planned(es, f) == Planned(es, g)
    decreases |es|
  {
    if es != [] {
      assert es[|es| - 1] in es;
      PlannedInSameScopes(es[..|es| - 1], f, g);
    }
  }

  lemma ListedPrefix(m: map<Id, Reservation>, es: seq<Event>, how: Ending, n: nat)
    requires Listed(m, es, how) && n <= |es|
    ensures Listed(m, es[..n], how)
    ensures forall i :: n <= i < |es| ==> es[i].id !in Ids(es[..n])
  {
    IdsAreSettled(es[..n]);
  }

  /** What a plan leaves in the reservation table. */
  ghost predicate PlanDone(m: map<Id, Reservation>, es: seq<Event>, how: Ending, m': map<Id, Reservation>) {
    && (forall id :: id !in Ids(es) ==> (id in m' <==> id in m))
    && (forall id :: id !in Ids(es) && id in m ==> m'[id] == m[id])
    && (forall id :: id in Ids(es) ==> id in m && (id in m' <==> how != Expiring))
    && (forall id :: id in Ids(es) && how != Expiring ==> m'[id] == Ended(m[id], how))
  }

  lemma {:induction false} PlanRewrites(m: map<Id, Reservation>, es: seq<Event>, how: Ending)
    requires Listed(m, es, how)
    ensures PlanDone(m, es, how, RewriteAll(m, es))
    decreases |es|
  {
    if es != [] {
      var n := |es| - 1;
      ListedPrefix(m, es, how, n);
      PlanRewrites(m, es[..n], how);
    }
  }

  lemma PlanOnReservations(t: Tables, es: seq<Event>, how: Ending)
    requires Listed(t.reservations, es, how)
    ensures PlanDone(t.reservations, es, how, ApplyAll(t, es).reservations)
  {
    PlanRewrites(t.reservations, es, how);
    ReservationsAfter(t, es);
  }

  /** What a plan leaves in the stock table and in the sums over live reservations. */
  lemma {:induction false} PlanOnStocks(t: Tables, es: seq<Event>, how: Ending, c: Cell)
    requires Listed(t.reservations, es, how)
    ensures RowAt(ApplyAll(t, es), c).reserved == RowAt(t, c).reserved - Planned(es, AtCell(c))
    ensures RowAt(ApplyAll(t, es), c).total == RowAt(t, c).total - (if how == Confirming then Planned(es, AtCell(c)) else 0)
    ensures RowAt(ApplyAll(t, es), c).safety == RowAt(t, c).safety
    ensures c in t.stocks ==> c in ApplyAll(t, es).stocks
    decreases |es|
  {
    if es != [] {
      ListedPrefix(t.reservations, es, how, |es| - 1);
      PlanOnStocks(t, es[..|es| - 1], how, c);
    }
  }

  lemma {:induction false} PlanOnHeld(t: Tables, es: seq<Event>, how: Ending, f: Scope)
    requires Listed(t.reservations, es, how)
    ensures Held(ApplyAll(t, es).reservations, f) == Held(t.reservations, f) - Planned(es, f)
    decreases |es|
  {
    if es != [] {
      var n := |es| - 1;
      ListedPrefix(t.reservations, es, how, n);
      PlanOnHeld(t, es[..n], how, f);
      PlanOnReservations(t, es[..n], how);
      HeldAfter(ApplyAll(t, es[..n]).reservations, es[n], f);
    }
  }

  /** A plan only touches cells that already have a row. */
  lemma {:induction false} PlanKeepsCells(t: Tables, es: seq<Event>, how: Ending)
    requires Sound(t) && Listed(t.reservations, es, how)
    ensures ApplyAll(t, es).stocks.Keys == t.stocks.Keys
    decreases |es|
  {
    if es != [] {
      ListedPrefix(t.reservations, es, how, |es| - 1);
      PlanKeepsCells(t, es[..|es| - 1], how);
      CounterCoversReservation(t, es[|es| - 1].id);
    }
  }

  lemma {:induction false} PlanIsLegal(t: Tables, es: seq<Event>, how: Ending)
    requires Listed(t.reservations, es, how)
    ensures LegalAll(t, es)
    decreases |es|
  {
    if es != [] {
      var n := |es| - 1;
      ListedPrefix(t.reservations, es, how, n);
      PlanIsLegal(t, es[..n], how);
      PlanOnReservations(t, es[..n], how);
    }
  }

  /** The next row of a listing after `es` has been settled: it still has the listed content, and
      its cell's counter still covers it, so neither the clamps nor the missing-row branch fires. */
  lemma NextOfPlan(t: Tables, es: seq<Event>, e: Event, how: Ending)
    requires e.Settle? && Sound(t) && Listed(t.reservations, es + [e], how)
    ensures Sound(ApplyAll(t, es)) && Legal(ApplyAll(t, es), e)
    ensures e.row.cell in t.stocks && e.row.cell in ApplyAll(t, es).stocks
    ensures InBounds(ApplyAll(t, es).stocks[e.row.cell])
    ensures IsQuantity(e.row.qty) && e.row.qty <= ApplyAll(t, es).stocks[e.row.cell].reserved
  {
    var all := es + [e];
    assert all[..|es|] == es && all[|es|] == e;
    PlanIsLegal(t, all, how);
    PlanIsLegal(t, es, how);
    LegalRunKeepsInvariants(t, [], es);
    CounterCoversReservation(ApplyAll(t, es), e.id);
    PlanKeepsCells(t, es, how);
  }
}
