/** Serialisability: whatever the interleaving, the committed tables are those of some run of the
    committed calls one at a time.

    Release and confirm take effect when they list their order's reservations, since a reservation
    made after that moment escapes them; every other call takes effect when it commits.  The proof
    keeps a line of slots: a release or confirm books its slot when it lists and fills it when it
    commits, and filling an earlier slot commutes past everything that was placed after it. */
module Serialisability {
  import opened Stock
  import opened Tables
  import opened Plans
  import opened Calls
  import opened Protocol
  import opened Accounting
  import Orders

  datatype Slot = Done(commit: Commit) | Pending(pid: Pid) | Void

  /** Calls that are ordered by their listing. */
  predicate Early(call: Call) {
    call.ReleaseStock? || call.ConfirmStock?
  }

  /** The tables after the filled slots. */
  function Played(slots: seq<Slot>): Tables {
    if slots == [] then NO_TABLES
    else
      var z := slots[|slots| - 1];
      var t := Played(slots[..|slots| - 1]);
      if z.Done? then ApplyAll(t, z.commit.step.events) else t
  }

  /** A release or confirm that has listed and not yet finished. */
  predicate HasListed(P: Proc) {
    && P.Running?
    && Early(P.call)
    && (P.phase.Committing? || (P.phase.Settling? && P.phase.orders == []))
  }

  function RowsToGo(P: Proc): seq<(Id, Reservation)>
    requires P.Running?
  {
    if P.phase.Settling? then P.phase.rows else []
  }

  /** Everything the process has settled or will settle. */
  function PlanOf(P: Proc): seq<Event>
    requires P.Running?
  {
    P.events + Ends(RowsToGo(P), P.call.How())
  }

  ghost predicate SlotOk(s: Sys, t: Tables, z: Slot) {
    match z
    case Done(c) => Does(t, c.step.call, c.step.events) && (c.step.call.ReserveStock? ==> c.step.events != [])
    case Pending(p) => p in s.procs && HasListed(s.procs[p]) && Does(t, s.procs[p].call, PlanOf(s.procs[p]))
    case Void => true
  }

  predicate Avoids(es: seq<Event>, ids: set<Id>) {
    forall e :: e in es && (e.Hold? || e.Settle?) ==> e.id !in ids
  }

  /** What comes after a booked slot has nothing to do with its order. */
  predicate Apart(s: Sys, p: Pid, z: Slot)
    requires p in s.procs && HasListed(s.procs[p])
  {
    match z
    case Done(c) => !c.step.call.Concerns(s.procs[p].call.order) && Avoids(c.step.events, Ids(PlanOf(s.procs[p])))
    case Pending(q) => q in s.procs && HasListed(s.procs[q]) && s.procs[q].call.order != s.procs[p].call.order
    case Void => true
  }

  function Dones(slots: seq<Slot>): seq<Commit> {
    if slots == [] then []
    else
      var z := slots[|slots| - 1];
      Dones(slots[..|slots| - 1]) + if z.Done? then [z.commit] else []
  }

  predicate PairOk(s: Sys, y: Slot, z: Slot) {
    y.Pending? ==> y.pid in s.procs && HasListed(s.procs[y.pid]) && Apart(s, y.pid, z)
  }

  ghost predicate Lined(s: Sys, slots: seq<Slot>) {
    && (forall i :: 0 <= i < |slots| ==> SlotOk(s, Played(slots[..i]), slots[i]))
    && (forall i, j :: 0 <= i < j < |slots| ==> PairOk(s, slots[i], slots[j]))
    && (forall p :: p in s.procs && HasListed(s.procs[p]) ==> Pending(p) in slots)
  }

  function PidOf(z: Slot): Pid
    requires !z.Void?
  {
    if z.Done? then z.commit.pid else z.pid
  }

  /** A call's slot comes after everything that had committed when the call started. */
  ghost predicate Timely(s: Sys, slots: seq<Slot>) {
    && (forall p :: p in s.procs ==> p in s.born && p < s.nextPid)
    && (forall p :: p in s.born ==> s.born[p] <= |s.commits|)
    && (forall m :: 0 <= m < |s.commits| ==> Done(s.commits[m]) in slots)
    && (forall j :: 0 <= j < |slots| && !slots[j].Void? ==> PidOf(slots[j]) in s.born && PidOf(slots[j]) < s.nextPid)
    && (forall j, m :: 0 <= j < |slots| && !slots[j].Void? && 0 <= m < s.born[PidOf(slots[j])] ==>
          Done(s.commits[m]) in slots[..j])
  }

  ghost predicate Explains(s: Sys, slots: seq<Slot>) {
    && Played(slots) == s.db
    && multiset(Dones(slots)) == multiset(s.commits)
    && Lined(s, slots)
    && Timely(s, slots)
  }

  // ---------------------------------------------------------------- a plan in front of a call

  lemma {:induction false} UntouchedRows(t: Tables, es: seq<Event>, id: Id)
    requires Avoids(es, {id})
    ensures id in ApplyAll(t, es).reservations <==> id in t.reservations
    ensures id in t.reservations ==> ApplyAll(t, es).reservations[id] == t.reservations[id]
    decreases |es|
  {
    if es != [] {
      assert es[|es| - 1] in es;
      UntouchedRows(t, es[..|es| - 1], id);
    }
  }

  lemma PlanSurvives(t: Tables, plan: seq<Event>, how: Ending, es: seq<Event>)
    requires Listed(t.reservations, plan, how) && Avoids(es, Ids(plan))
    ensures Listed(ApplyAll(t, es).reservations, plan, how)
  {
    IdsAreSettled(plan);
    forall i | 0 <= i < |plan|
      ensures plan[i].id in ApplyAll(t, es).reservations && ApplyAll(t, es).reservations[plan[i].id] == plan[i].row
    {
      assert plan[i] in plan;
      UntouchedRows(t, es, plan[i].id);
    }
  }

  lemma PlanCommutes(t: Tables, plan: seq<Event>, how: Ending, es: seq<Event>)
    requires Listed(t.reservations, plan, how) && Avoids(es, Ids(plan))
    ensures ApplyAll(ApplyAll(t, plan), es) == ApplyAll(ApplyAll(t, es), plan)
  {
    IdsAreSettled(plan);
    forall a, b | a in plan && b in es ensures Independent(a, b) {
      assert a.Settle? && a.id in Ids(plan);
    }
    CommuteBlocks(t, plan, es);
  }

  lemma {:induction false} PlannedIsPositive(m: map<Id, Reservation>, es: seq<Event>, how: Ending, f: Scope)
    requires Listed(m, es, how) && forall id :: id in m ==> IsQuantity(m[id].qty)
    ensures 0 <= Planned(es, f)
    decreases |es|
  {
    if es != [] {
      ListedPrefix(m, es, how, |es| - 1);
      PlannedIsPositive(m, es[..|es| - 1], how, f);
    }
  }

  /** Settling first only makes room: availability does not drop, totals do not grow, rows stay. */
  lemma PlanMakesRoom(t: Tables, plan: seq<Event>, how: Ending, c: Cell)
    requires Sound(t) && Listed(t.reservations, plan, how)
    ensures Available(RowAt(t, c)) <= Available(RowAt(ApplyAll(t, plan), c))
    ensures RowAt(ApplyAll(t, plan), c).total <= RowAt(t, c).total
    ensures c in t.stocks <==> c in ApplyAll(t, plan).stocks
  {
    PlanOnStocks(t, plan, how, c);
    PlanKeepsCells(t, plan, how);
    PlannedIsPositive(t.reservations, plan, how, AtCell(c));
  }

  lemma ReserveAfterPlan(t: Tables, plan: seq<Event>, how: Ending, call: Call, es: seq<Event>)
    requires Sound(t) && Listed(t.reservations, plan, how) && how != Expiring
    requires call.ReserveStock? && Does(t, call, es) && es != []
    ensures Does(ApplyAll(t, plan), call, es)
  {
    var t' := ApplyAll(t, plan);
    PlanOnReservations(t, plan, how);
    PlanMakesRoom(t, plan, how, call.cell);
    assert RowAt(t, call.cell) == t.stocks[call.cell] && RowAt(t', call.cell) == t'.stocks[call.cell];
    var w := Wanted(call.order, call.cell, call.qty);
    forall id | id in t'.reservations ensures !Clash(t'.reservations[id], w) {
      assert id in t.reservations && !Clash(t.reservations[id], w);
    }
  }

  lemma SettlementAfterPlan(t: Tables, plan: seq<Event>, how: Ending, o: string, call: Call, es: seq<Event>)
    requires Listed(t.reservations, plan, how) && how != Expiring && forall e :: e in plan ==> e.Settle? && e.row.order == o
    requires call.Settles() && !call.Concerns(o) && Does(t, call, es)
    ensures Does(ApplyAll(t, plan), call, es)
  {
    var m, m' := t.reservations, ApplyAll(t, plan).reservations;
    PlanOnReservations(t, plan, how);
    IdsAreSettled(plan);
    forall id | id in Ids(plan) ensures id in m && m[id].order == o {
      var e :| e in plan && e.Settle? && e.id == id;
      var i :| 0 <= i < |plan| && plan[i] == e;
    }
    forall i | 0 <= i < |es| ensures es[i].id in m' && m'[es[i].id] == es[i].row {
      assert es[i] in es && call.Picks(es[i].row);
    }
    forall id | id in m' && call.Picks(m'[id]) ensures id in Ids(es) {
      assert id !in Ids(plan);
    }
  }

  lemma MoveAfterPlan(t: Tables, plan: seq<Event>, how: Ending, a: Cell, b: Cell, q: int)
    requires Sound(t) && Listed(t.reservations, plan, how) && CanMove(t, a, b, q)
    ensures CanMove(ApplyAll(t, plan), a, b, q)
  {
    PlanMakesRoom(t, plan, how, a);
    PlanMakesRoom(t, plan, how, b);
  }

  lemma ReceiptWithRoom(t: Tables, t': Tables, call: Call, es: seq<Event>)
    requires call.AddReceipt? && Does(t, call, es) && RowAt(t', call.cell).total <= RowAt(t, call.cell).total
    ensures Does(t', call, es)
  {
  }

  lemma SafetyOnSameCells(t: Tables, t': Tables, call: Call, es: seq<Event>)
    requires call.UpdateSafety? && Does(t, call, es) && (call.cell in t.stocks <==> call.cell in t'.stocks)
    ensures Does(t', call, es)
  {
  }

  lemma RowCallAfterPlan(t: Tables, plan: seq<Event>, how: Ending, call: Call, es: seq<Event>)
    requires Sound(t) && Listed(t.reservations, plan, how)
    requires (call.AddReceipt? || call.UpdateSafety?) && Does(t, call, es)
    ensures Does(ApplyAll(t, plan), call, es)
  {
    var t' := ApplyAll(t, plan);
    PlanMakesRoom(t, plan, how, call.cell);
    if call.AddReceipt? {
      ReceiptWithRoom(t, t', call, es);
    } else {
      SafetyOnSameCells(t, t', call, es);
    }
  }

  /** A release or confirm of an order can be slipped in before any call that does not concern it. */
  lemma DoesAfterPlan(t: Tables, plan: seq<Event>, how: Ending, o: string, call: Call, es: seq<Event>)
    requires Sound(t) && Listed(t.reservations, plan, how) && how != Expiring
    requires forall e :: e in plan ==> e.Settle? && e.row.order == o
    requires !call.Concerns(o) && Does(t, call, es) && (call.ReserveStock? ==> es != [])
    ensures Does(ApplyAll(t, plan), call, es)
  {
    if call.ReserveStock? {
      ReserveAfterPlan(t, plan, how, call, es);
    } else if call.Transfer? {
      MoveAfterPlan(t, plan, how, Cell(call.sku, call.source), Cell(call.sku, call.target), call.qty);
    } else if call.Settles() {
      SettlementAfterPlan(t, plan, how, o, call, es);
    } else {
      RowCallAfterPlan(t, plan, how, call, es);
    }
  }

  // ---------------------------------------------------------------- the line of slots

  lemma PlayedOneMore(slots: seq<Slot>, z: Slot)
    ensures Played(slots + [z]) == if z.Done? then ApplyAll(Played(slots), z.commit.step.events) else Played(slots)
    ensures Dones(slots + [z]) == Dones(slots) + if z.Done? then [z.commit] else []
  {
    assert (slots + [z])[..|slots|] == slots;
  }

  lemma {:induction false} PlayedIsSound(s: Sys, slots: seq<Slot>, n: nat)
    requires n <= |slots| && forall i :: 0 <= i < |slots| ==> SlotOk(s, Played(slots[..i]), slots[i])
    ensures Sound(Played(slots[..n]))
  {
    if n == 0 {
      EmptyTablesAreSound();
    } else {
      PlayedIsSound(s, slots, n - 1);
      var t, z := Played(slots[..n - 1]), slots[n - 1];
      assert slots[..n][..n - 1] == slots[..n - 1];
      if z.Done? {
        DoesIsLegal(t, z.commit.step.call, z.commit.step.events);
        LegalRunKeepsInvariants(t, [], z.commit.step.events);
      }
    }
  }

  lemma PlanOfEarly(s: Sys, p: Pid, t: Tables)
    requires p in s.procs && HasListed(s.procs[p]) && Does(t, s.procs[p].call, PlanOf(s.procs[p]))
    ensures var P := s.procs[p];
            && Listed(t.reservations, PlanOf(P), P.call.How())
            && P.call.How() != Expiring
            && forall e :: e in PlanOf(P) ==> e.Settle? && e.row.order == P.call.order
  {
  }

  lemma PlayedNext(slots: seq<Slot>, k: nat)
    requires k < |slots|
    ensures Played(slots[..k + 1]) ==
            if slots[k].Done? then ApplyAll(Played(slots[..k]), slots[k].commit.step.events) else Played(slots[..k])
  {
    assert slots[..k + 1] == slots[..k] + [slots[k]];
    PlayedOneMore(slots[..k], slots[k]);
  }

  lemma PassSlot(t: Tables, t': Tables, plan: seq<Event>, how: Ending, es: seq<Event>)
    requires Listed(t.reservations, plan, how) && Avoids(es, Ids(plan)) && t' == ApplyAll(t, plan)
    ensures ApplyAll(t', es) == ApplyAll(ApplyAll(t, es), plan)
    ensures Listed(ApplyAll(t, es).reservations, plan, how)
  {
    PlanSurvives(t, plan, how, es);
    PlanCommutes(t, plan, how, es);
  }

  /** With slot `i` filled, every later point of the line is the old one plus the plan. */
  lemma {:induction false} PlanShifts(slots: seq<Slot>, slots': seq<Slot>, i: nat, c: Commit, how: Ending, k: nat)
    requires i < k <= |slots| && !slots[i].Done? && slots' == slots[i := Done(c)]
    requires Listed(Played(slots[..i]).reservations, c.step.events, how)
    requires forall j :: i < j < |slots| && slots[j].Done? ==> Avoids(slots[j].commit.step.events, Ids(c.step.events))
    ensures Played(slots'[..k]) == ApplyAll(Played(slots[..k]), c.step.events)
    ensures Listed(Played(slots[..k]).reservations, c.step.events, how)
    decreases k
  {
    PlayedNext(slots, k - 1);
    PlayedNext(slots', k - 1);
    if k == i + 1 {
      assert slots'[..i] == slots[..i];
    } else {
      PlanShifts(slots, slots', i, c, how, k - 1);
      if slots[k - 1].Done? {
        PassSlot(Played(slots[..k - 1]), Played(slots'[..k - 1]), c.step.events, how, slots[k - 1].commit.step.events);
      }
    }
  }

  lemma FillShifts(s: Sys, slots: seq<Slot>, i: nat, p: Pid, c: Commit, k: nat)
    requires Lined(s, slots) && i < |slots| && slots[i] == Pending(p) && i < k <= |slots|
    requires c.step == Step(s.procs[p].call, PlanOf(s.procs[p]))
    ensures Played(slots[i := Done(c)][..k]) == ApplyAll(Played(slots[..k]), c.step.events)
    ensures Listed(Played(slots[..k]).reservations, c.step.events, c.step.call.How())
  {
    assert SlotOk(s, Played(slots[..i]), slots[i]);
    PlanOfEarly(s, p, Played(slots[..i]));
    forall j | i < j < |slots| && slots[j].Done? ensures Avoids(slots[j].commit.step.events, Ids(c.step.events)) {
      assert PairOk(s, slots[i], slots[j]);
    }
    PlanShifts(slots, slots[i := Done(c)], i, c, c.step.call.How(), k);
  }

  lemma FilledSlotOk(s: Sys, slots: seq<Slot>, i: nat, p: Pid, c: Commit, k: nat)
    requires Lined(s, slots) && i < |slots| && slots[i] == Pending(p) && k < |slots|
    requires c.step == Step(s.procs[p].call, PlanOf(s.procs[p]))
    ensures SlotOk(s, Played(slots[i := Done(c)][..k]), slots[i := Done(c)][k])
  {
    var slots' := slots[i := Done(c)];
    assert SlotOk(s, Played(slots[..k]), slots[k]) && SlotOk(s, Played(slots[..i]), slots[i]);
    if k <= i {
      assert slots'[..k] == slots[..k];
    } else {
      FillShifts(s, slots, i, p, c, k);
      PlayedIsSound(s, slots, k);
      PlanOfEarly(s, p, Played(slots[..i]));
      assert PairOk(s, slots[i], slots[k]);
      match slots[k]
      case Done(d) =>
        DoesAfterPlan(Played(slots[..k]), c.step.events, c.step.call.How(), c.step.call.order, d.step.call, d.step.events);
      case Pending(q) =>
        DoesAfterPlan(Played(slots[..k]), c.step.events, c.step.call.How(), c.step.call.order, s.procs[q].call, PlanOf(s.procs[q]));
      case Void =>
    }
  }

  // ---------------------------------------------------------------- steps

  /** The process is as far as the line is concerned what it was. */
  predicate SameListing(s: Sys, s': Sys, q: Pid) {
    && (q in s'.procs && HasListed(s'.procs[q]) ==> q in s.procs && HasListed(s.procs[q]))
    && (q in s.procs && HasListed(s.procs[q]) ==>
          && q in s'.procs && HasListed(s'.procs[q])
          && s'.procs[q].call == s.procs[q].call
          && PlanOf(s'.procs[q]) == PlanOf(s.procs[q]))
  }

  ghost predicate SameHistory(s: Sys, s': Sys) {
    && s'.commits == s.commits
    && s.nextPid <= s'.nextPid
    && (forall q :: q in s'.procs ==> q in s'.born && q < s'.nextPid)
    && (forall q :: q in s.born && q < s.nextPid ==> q in s'.born && s'.born[q] == s.born[q])
    && (forall q :: q in s'.born ==> s'.born[q] <= |s.commits|)
  }

  lemma SameSlots(s: Sys, s': Sys, slots: seq<Slot>)
    requires Explains(s, slots) && s'.db == s.db && SameHistory(s, s') && forall q :: SameListing(s, s', q)
    ensures Explains(s', slots)
  {
    forall i | 0 <= i < |slots| ensures SlotOk(s', Played(slots[..i]), slots[i]) {
      assert SlotOk(s, Played(slots[..i]), slots[i]);
      if slots[i].Pending? {
        assert SameListing(s, s', slots[i].pid);
      }
    }
    forall i, j | 0 <= i < j < |slots| ensures PairOk(s', slots[i], slots[j]) {
      assert PairOk(s, slots[i], slots[j]);
      if slots[i].Pending? {
        assert SameListing(s, s', slots[i].pid);
        if slots[j].Pending? {
          assert SameListing(s, s', slots[j].pid);
        }
      }
    }
    forall p | p in s'.procs && HasListed(s'.procs[p]) ensures Pending(p) in slots {
      assert SameListing(s, s', p);
    }
  }

  /** Booking a slot, or placing a late call, at the end of the line. */
  lemma AddSlot(s: Sys, s': Sys, slots: seq<Slot>, z: Slot)
    requires Explains(s, slots) && !z.Void?
    requires forall q :: q != PidOf(z) ==> SameListing(s, s', q)
    requires PidOf(z) in s.procs && !HasListed(s.procs[PidOf(z)]) && PidOf(z) in s'.procs
    requires SlotOk(s', s.db, z) && s'.born == s.born && s'.nextPid == s.nextPid && s'.procs.Keys == s.procs.Keys
    requires s'.db == if z.Done? then ApplyAll(s.db, z.commit.step.events) else s.db
    requires s'.commits == s.commits + if z.Done? then [z.commit] else []
    requires HasListed(s'.procs[PidOf(z)]) ==> z.Pending?
    requires forall q :: q in s'.procs && q != PidOf(z) && HasListed(s'.procs[q]) ==> Apart(s', q, z)
    ensures Explains(s', slots + [z])
  {
    var slots' := slots + [z];
    PlayedOneMore(slots, z);
    forall i | 0 <= i < |slots'| ensures SlotOk(s', Played(slots'[..i]), slots'[i]) {
      assert slots'[..i] == slots[..i];
      if i < |slots| {
        assert SlotOk(s, Played(slots[..i]), slots[i]);
        if slots[i].Pending? {
          assert SameListing(s, s', slots[i].pid);
        }
      } else {
        assert slots[..i] == slots;
      }
    }
    forall i, j | 0 <= i < j < |slots'| ensures PairOk(s', slots'[i], slots'[j]) {
      if slots'[i].Pending? {
        assert SlotOk(s, Played(slots[..i]), slots[i]) && SameListing(s, s', slots[i].pid);
        if j < |slots| {
          assert PairOk(s, slots[i], slots[j]);
          if slots[j].Pending? {
            assert SlotOk(s, Played(slots[..j]), slots[j]) && SameListing(s, s', slots[j].pid);
          }
        }
      }
    }
    forall p | p in s'.procs && HasListed(s'.procs[p]) ensures Pending(p) in slots' {
      assert p != PidOf(z) ==> SameListing(s, s', p) && Pending(p) in slots;
      assert slots'[|slots|] == z;
    }
    AddedInTime(s, s', slots, z);
  }

  lemma AddedInTime(s: Sys, s': Sys, slots: seq<Slot>, z: Slot)
    requires Timely(s, slots) && !z.Void? && PidOf(z) in s.procs
    requires s'.born == s.born && s'.nextPid == s.nextPid && s'.procs.Keys == s.procs.Keys
    requires s'.commits == s.commits + if z.Done? then [z.commit] else []
    ensures Timely(s', slots + [z])
  {
    var slots' := slots + [z];
    forall m | 0 <= m < |s'.commits| ensures Done(s'.commits[m]) in slots' {
      assert m < |s.commits| ==> Done(s.commits[m]) in slots;
      assert slots'[|slots|] == z;
    }
    forall j, m | 0 <= j < |slots'| && !slots'[j].Void? && 0 <= m < s'.born[PidOf(slots'[j])]
      ensures Done(s'.commits[m]) in slots'[..j]
    {
      assert slots'[..j] == slots[..j];
      assert j == |slots| ==> slots[..j] == slots;
    }
  }

  lemma {:induction false} DonesReplaced(slots: seq<Slot>, i: nat, z: Slot)
    requires i < |slots| && slots[i].Pending? && !z.Pending?
    ensures multiset(Dones(slots[i := z])) == multiset(Dones(slots)) + if z.Done? then multiset{z.commit} else multiset{}
    decreases |slots|
  {
    var n := |slots| - 1;
    if i < n {
      DonesReplaced(slots[..n], i, z);
      assert slots[i := z][..n] == slots[..n][i := z];
    } else {
      assert slots[i := z][..n] == slots[..n];
    }
  }

  lemma ReplacedInTime(s: Sys, s': Sys, slots: seq<Slot>, i: nat, z: Slot)
    requires Timely(s, slots) && i < |slots| && slots[i].Pending? && !z.Pending?
    requires z.Done? ==> z.commit.pid == slots[i].pid
    requires s'.born == s.born && s'.nextPid == s.nextPid && s'.procs.Keys <= s.procs.Keys
    requires s'.commits == s.commits + if z.Done? then [z.commit] else []
    ensures Timely(s', slots[i := z])
  {
    var slots' := slots[i := z];
    forall m | 0 <= m < |s'.commits| ensures Done(s'.commits[m]) in slots' {
      if m < |s.commits| {
        var k :| 0 <= k < |slots| && slots[k] == Done(s.commits[m]);
        assert slots'[k] == slots[k];
      } else {
        assert slots'[i] == z;
      }
    }
    forall j, m | 0 <= j < |slots'| && !slots'[j].Void? && 0 <= m < s'.born[PidOf(slots'[j])]
      ensures Done(s'.commits[m]) in slots'[..j]
    {
      assert PidOf(slots'[j]) == PidOf(slots[j]);
      var k :| 0 <= k < j && slots[..j][k] == Done(s.commits[m]);
      assert slots'[..j][k] == slots[..j][k];
    }
  }

  /** Replacing a booked slot keeps the others apart and booked. */
  lemma ReplacedStaysApart(s: Sys, s': Sys, slots: seq<Slot>, i: nat, z: Slot, slots': seq<Slot>)
    requires Lined(s, slots) && i < |slots| && slots[i].Pending? && !z.Pending? && slots' == slots[i := z]
    requires forall q :: q != slots[i].pid ==> SameListing(s, s', q)
    requires slots[i].pid in s'.procs ==> !HasListed(s'.procs[slots[i].pid])
    requires forall q :: q in s'.procs && q != slots[i].pid && HasListed(s'.procs[q]) ==> Apart(s', q, z)
    ensures forall k, j :: 0 <= k < j < |slots'| ==> PairOk(s', slots'[k], slots'[j])
    ensures forall p :: p in s'.procs && HasListed(s'.procs[p]) ==> Pending(p) in slots'
  {
    OthersPending(s, slots, i);
    forall k, j | 0 <= k < j < |slots'| ensures PairOk(s', slots'[k], slots'[j]) {
      assert PairOk(s, slots[k], slots[j]);
      if slots'[k].Pending? {
        assert SameListing(s, s', slots[k].pid);
        if j != i && slots[j].Pending? {
          assert SameListing(s, s', slots[j].pid);
        }
      }
    }
    forall p | p in s'.procs && HasListed(s'.procs[p]) ensures Pending(p) in slots' {
      assert SameListing(s, s', p);
      var k :| 0 <= k < |slots| && slots[k] == Pending(p);
      assert slots'[k] == slots[k];
    }
  }

  lemma FilledStaysOk(s: Sys, s': Sys, slots: seq<Slot>, i: nat, c: Commit, slots': seq<Slot>)
    requires Lined(s, slots) && i < |slots| && slots[i] == Pending(c.pid) && slots' == slots[i := Done(c)]
    requires c.pid in s.procs && HasListed(s.procs[c.pid])
    requires c.step == Step(s.procs[c.pid].call, PlanOf(s.procs[c.pid]))
    requires forall q :: q != c.pid ==> SameListing(s, s', q)
    ensures forall k :: 0 <= k < |slots'| ==> SlotOk(s', Played(slots'[..k]), slots'[k])
  {
    OthersPending(s, slots, i);
    forall k | 0 <= k < |slots| ensures SlotOk(s', Played(slots'[..k]), slots'[k]) {
      FilledSlotOk(s, slots, i, c.pid, c, k);
      if slots'[k].Pending? {
        assert SameListing(s, s', slots'[k].pid);
      }
    }
  }

  /** The release or confirm in slot `i` commits. */
  lemma FillSlot(s: Sys, s': Sys, slots: seq<Slot>, i: nat, c: Commit)
    requires Explains(s, slots) && i < |slots| && slots[i] == Pending(c.pid)
    requires c.pid in s.procs && HasListed(s.procs[c.pid])
    requires c.step == Step(s.procs[c.pid].call, PlanOf(s.procs[c.pid]))
    requires s'.db == ApplyAll(s.db, c.step.events) && s'.commits == s.commits + [c]
    requires s'.born == s.born && s'.nextPid == s.nextPid && s'.procs.Keys == s.procs.Keys
    requires forall q :: q != c.pid ==> SameListing(s, s', q)
    requires !HasListed(s'.procs[c.pid])
    requires forall q :: q in s'.procs && q != c.pid && HasListed(s'.procs[q]) ==> Apart(s', q, Done(c))
    ensures Explains(s', slots[i := Done(c)])
  {
    var slots' := slots[i := Done(c)];
    assert slots[..|slots|] == slots && slots'[..|slots|] == slots';
    FillShifts(s, slots, i, c.pid, c, |slots|);
    DonesReplaced(slots, i, Done(c));
    FilledStaysOk(s, s', slots, i, c, slots');
    ReplacedStaysApart(s, s', slots, i, Done(c), slots');
    ReplacedInTime(s, s', slots, i, Done(c));
  }

  /** A process has booked one slot only. */
  lemma OthersPending(s: Sys, slots: seq<Slot>, i: nat)
    requires Lined(s, slots) && i < |slots| && slots[i].Pending?
    ensures forall k :: 0 <= k < |slots| && k != i && slots[k].Pending? ==>
              slots[k].pid != slots[i].pid && slots[k].pid in s.procs && HasListed(s.procs[slots[k].pid])
  {
    forall k | 0 <= k < |slots| && k != i && slots[k].Pending?
      ensures slots[k].pid != slots[i].pid && slots[k].pid in s.procs && HasListed(s.procs[slots[k].pid])
    {
      assert SlotOk(s, Played(slots[..k]), slots[k]);
      if k < i {
        assert PairOk(s, slots[k], slots[i]);
      } else {
        assert PairOk(s, slots[i], slots[k]);
      }
    }
  }

  lemma VoidedStaysOk(s: Sys, s': Sys, slots: seq<Slot>, i: nat, slots': seq<Slot>)
    requires Lined(s, slots) && i < |slots| && slots[i].Pending? && slots' == slots[i := Void]
    requires forall q :: q != slots[i].pid ==> SameListing(s, s', q)
    ensures forall k :: 0 <= k < |slots'| ==> SlotOk(s', Played(slots'[..k]), slots'[k])
  {
    OthersPending(s, slots, i);
    forall k | 0 <= k < |slots'| ensures SlotOk(s', Played(slots'[..k]), slots'[k]) {
      VoidPlays(slots, i, k);
      assert SlotOk(s, Played(slots[..k]), slots[k]);
      if k != i && slots[k].Pending? {
        assert SameListing(s, s', slots[k].pid);
      }
    }
  }

  /** The release or confirm in slot `i` fails or crashes. */
  lemma VoidSlot(s: Sys, s': Sys, slots: seq<Slot>, i: nat)
    requires Explains(s, slots) && i < |slots| && slots[i].Pending?
    requires s'.db == s.db && s'.commits == s.commits
    requires s'.born == s.born && s'.nextPid == s.nextPid && s'.procs.Keys <= s.procs.Keys
    requires forall q :: q != slots[i].pid ==> SameListing(s, s', q)
    requires slots[i].pid in s'.procs ==> !HasListed(s'.procs[slots[i].pid])
    ensures Explains(s', slots[i := Void])
  {
    var slots' := slots[i := Void];
    assert slots[..|slots|] == slots && slots'[..|slots|] == slots';
    VoidPlays(slots, i, |slots|);
    DonesReplaced(slots, i, Void);
    VoidedStaysOk(s, s', slots, i, slots');
    ReplacedStaysApart(s, s', slots, i, Void, slots');
    ReplacedInTime(s, s', slots, i, Void);
  }

  lemma {:induction false} VoidPlays(slots: seq<Slot>, i: nat, k: nat)
    requires i < |slots| && slots[i].Pending? && k <= |slots|
    ensures Played(slots[i := Void][..k]) == Played(slots[..k])
    decreases k
  {
    if k > 0 {
      VoidPlays(slots, i, k - 1);
      PlayedNext(slots, k - 1);
      PlayedNext(slots[i := Void], k - 1);
    }
  }

  // ---------------------------------------------------------------- the protocol's steps

  lemma ListedPlan(s: Sys, q: Pid)
    requires q in s.procs && ProcOk(s, q, s.procs[q]) && HasListed(s.procs[q])
    ensures var Q := s.procs[q];
            && Q.phase != Dropping
            && OrderKey(Q.call.order) in Q.defers
            && forall id :: id in Ids(PlanOf(Q)) ==> id in s.db.reservations && s.db.reservations[id].order == Q.call.order
  {
    var Q := s.procs[q];
    assert KeysOf(Q.call)[0] == OrderKey(Q.call.order);
    assert OnPlan(s.db, Q.call, Q.events, RowsToGo(Q), []);
    IdsAreSettled(PlanOf(Q));
    forall id | id in Ids(PlanOf(Q)) ensures id in s.db.reservations && s.db.reservations[id].order == Q.call.order {
      var e :| e in PlanOf(Q) && e.Settle? && e.id == id;
      var i :| 0 <= i < |PlanOf(Q)| && PlanOf(Q)[i] == e;
      assert Q.call.Picks(e.row);
    }
  }

  /** A commit is apart from every order that another release or confirm has listed. */
  lemma CommitApart(s: Sys, p: Pid, q: Pid)
    requires Good(s) && p != q && IsRunning(s, p) && s.procs[p].phase.Committing? && q in s.procs && HasListed(s.procs[q])
    ensures !s.procs[p].call.Concerns(s.procs[q].call.order)
    ensures Avoids(s.procs[p].events, Ids(PlanOf(s.procs[q])))
  {
    var P, Q := s.procs[p], s.procs[q];
    var o := Q.call.order;
    ListedPlan(s, q);
    assert OrderKey(o) !in P.defers;
    if P.call.Concerns(o) {
      ConcernedKey(P.call, o);
    }
    forall e | e in P.events && (e.Hold? || e.Settle?) ensures e.id !in Ids(PlanOf(Q)) {
      if e.Settle? {
        EventsOfOrders(s, p, e);
      } else {
        HoldIsNew(s, p, e);
      }
    }
  }

  lemma HoldIsNew(s: Sys, p: Pid, e: Event)
    requires IsRunning(s, p) && ProcOk(s, p, s.procs[p]) && s.procs[p].phase.Committing?
    requires e in s.procs[p].events && e.Hold?
    ensures e.id !in s.db.reservations
  {
    var P := s.procs[p];
    assert P.events + Ends([], P.call.How()) == P.events;
  }

  lemma CommitDoes(s: Sys, p: Pid)
    requires IsRunning(s, p) && ProcOk(s, p, s.procs[p]) && s.procs[p].phase.Committing? && !Early(s.procs[p].call)
    ensures Does(s.db, s.procs[p].call, s.procs[p].events)
    ensures s.procs[p].call.ReserveStock? ==> s.procs[p].events != []
  {
    var P := s.procs[p];
    assert P.events + Ends([], P.call.How()) == P.events;
  }

  lemma HeadOfPlan(t: Tables, call: Call, es: seq<Event>, orders: seq<string>)
    requires es != [] && OnPlan(t, call, es, [], orders)
    ensures es[0].Settle? && call.Concerns(es[0].row.order) && es[0].row.order !in orders
  {
    assert es[0] in es + Ends([], call.How());
  }

  /** Release and confirm list once, and first. */
  lemma ListsFirst(t: Tables, call: Call, es: seq<Event>, orders: seq<string>)
    requires Early(call) && orders != [] && OnPlan(t, call, es, [], orders)
    ensures es == [] && orders[0] == call.order && orders[1..] == []
  {
    forall i | 0 <= i < |orders| ensures orders[i] in orders && orders[i] == call.order {
      assert orders[i] in orders;
    }
    assert orders[0] in orders;
    if |orders| > 1 {
      SecondDiffers(orders);
    }
    if es != [] {
      HeadOfPlan(t, call, es, orders);
    }
  }

  lemma SecondDiffers(orders: seq<string>)
    requires Distinct(orders) && |orders| > 1
    ensures orders[0] != orders[1]
  {
  }

  lemma ListingEnumerates(m: map<Id, Reservation>, call: Call, rows: seq<(Id, Reservation)>)
    requires Early(call) && Lists(m, call, call.order, rows)
    ensures Enumerates(m, call, Ends(rows, call.How()))
  {
    var es := Ends(rows, call.How());
    IdsAreSettled(es);
    forall id | id in m && call.Picks(m[id]) ensures id in Ids(es) {
      var i :| 0 <= i < |rows| && rows[i].0 == id;
      assert es[i] in es;
    }
  }

  lemma OthersSame(s: Sys, s': Sys, p: Pid)
    requires p in s.procs && p in s'.procs && s'.procs == s.procs[p := s'.procs[p]]
    ensures s'.procs.Keys == s.procs.Keys
    ensures forall q :: q != p ==> SameListing(s, s', q)
  {
  }

  lemma BookSlot(s: Sys, s': Sys, slots: seq<Slot>, p: Pid, P': Proc)
    requires Explains(s, slots) && IsRunning(s, p) && !HasListed(s.procs[p]) && s' == Moved(s, p, P')
    requires HasListed(P') && Does(s.db, P'.call, PlanOf(P'))
    requires forall q :: q in s.procs && q != p && HasListed(s.procs[q]) ==> s.procs[q].call.order != P'.call.order
    ensures Explains(s', slots + [Pending(p)])
  {
    OthersSame(s, s', p);
    AddSlot(s, s', slots, Pending(p));
  }

  lemma ListingIsPlan(s: Sys, p: Pid, rows: seq<(Id, Reservation)>, P': Proc)
    requires Good(s) && Enabled(s, ListOrder(p, rows)) && Early(s.procs[p].call)
    requires P' == s.procs[p].(phase := AfterRow(rows, s.procs[p].phase.orders[1..]))
    ensures !HasListed(s.procs[p]) && HasListed(P') && Does(s.db, P'.call, PlanOf(P'))
  {
    var P := s.procs[p];
    assert ProcOk(s, p, P);
    FirstListingIsPlan(s.db, P, rows, P');
  }

  lemma FirstListingIsPlan(t: Tables, P: Proc, rows: seq<(Id, Reservation)>, P': Proc)
    requires P.Running? && P.phase.Settling? && P.phase.rows == [] && P.phase.orders != [] && Early(P.call)
    requires OnPlan(t, P.call, P.events, [], P.phase.orders)
    requires Lists(t.reservations, P.call, P.phase.orders[0], rows)
    requires P' == P.(phase := AfterRow(rows, P.phase.orders[1..]))
    ensures HasListed(P') && Does(t, P'.call, PlanOf(P'))
  {
    ListsFirst(t, P.call, P.events, P.phase.orders);
    ListingEnumerates(t.reservations, P.call, rows);
    assert RowsToGo(P') == rows;
    assert P.events + Ends(rows, P.call.How()) == Ends(rows, P.call.How());
  }

  lemma ListersDiffer(s: Sys, p: Pid)
    requires Good(s) && IsRunning(s, p) && Early(s.procs[p].call) && s.procs[p].phase.Settling?
    ensures forall q :: q in s.procs && q != p && HasListed(s.procs[q]) ==> s.procs[q].call.order != s.procs[p].call.order
  {
    assert KeysOf(s.procs[p].call)[0] == OrderKey(s.procs[p].call.order);
    forall q | q in s.procs && q != p && HasListed(s.procs[q]) ensures s.procs[q].call.order != s.procs[p].call.order {
      ListedPlan(s, q);
    }
  }

  lemma ListStep(s: Sys, slots: seq<Slot>, p: Pid, rows: seq<(Id, Reservation)>)
    requires Good(s) && Explains(s, slots) && Enabled(s, ListOrder(p, rows)) && Early(s.procs[p].call)
    ensures var P' := s.procs[p].(phase := AfterRow(rows, s.procs[p].phase.orders[1..]));
            Explains(Moved(s, p, P'), slots + [Pending(p)])
  {
    var P' := s.procs[p].(phase := AfterRow(rows, s.procs[p].phase.orders[1..]));
    ListingIsPlan(s, p, rows, P');
    ListersDiffer(s, p);
    BookSlot(s, Moved(s, p, P'), slots, p, P');
  }

  lemma CommitsApart(s: Sys, p: Pid)
    requires Good(s) && IsRunning(s, p) && s.procs[p].phase.Committing?
    ensures forall q :: q in s.procs && q != p && HasListed(s.procs[q]) ==>
              Apart(s, q, Done(Commit(p, Step(s.procs[p].call, s.procs[p].events))))
  {
    forall q | q in s.procs && q != p && HasListed(s.procs[q])
      ensures Apart(s, q, Done(Commit(p, Step(s.procs[p].call, s.procs[p].events))))
    {
      CommitApart(s, p, q);
    }
  }

  lemma FillOnCommit(s: Sys, s': Sys, slots: seq<Slot>, p: Pid) returns (slots': seq<Slot>)
    requires Explains(s, slots) && IsRunning(s, p) && s.procs[p].phase.Committing? && Early(s.procs[p].call)
    requires s' == DidCommit(s, p) && s'.db == ApplyAll(s.db, s.procs[p].events)
    requires forall q :: q in s.procs && q != p && HasListed(s.procs[q]) ==>
               Apart(s, q, Done(Commit(p, Step(s.procs[p].call, s.procs[p].events))))
    ensures Explains(s', slots')
  {
    var P := s.procs[p];
    assert PlanOf(P) == P.events && HasListed(P);
    assert Pending(p) in slots;
    var i :| 0 <= i < |slots| && slots[i] == Pending(p);
    OthersSame(s, s', p);
    FillSlot(s, s', slots, i, Commit(p, Step(P.call, P.events)));
    slots' := slots[i := Done(Commit(p, Step(P.call, P.events)))];
  }

  lemma AddOnCommit(s: Sys, s': Sys, slots: seq<Slot>, p: Pid)
    requires Explains(s, slots) && IsRunning(s, p) && s.procs[p].phase.Committing? && !Early(s.procs[p].call)
    requires s' == DidCommit(s, p) && s'.db == ApplyAll(s.db, s.procs[p].events)
    requires Does(s.db, s.procs[p].call, s.procs[p].events) && (s.procs[p].call.ReserveStock? ==> s.procs[p].events != [])
    requires forall q :: q in s.procs && q != p && HasListed(s.procs[q]) ==>
               Apart(s, q, Done(Commit(p, Step(s.procs[p].call, s.procs[p].events))))
    ensures Explains(s', slots + [Done(Commit(p, Step(s.procs[p].call, s.procs[p].events)))])
  {
    OthersSame(s, s', p);
    AddSlot(s, s', slots, Done(Commit(p, Step(s.procs[p].call, s.procs[p].events))));
  }

  lemma CommitExplained(s: Sys, slots: seq<Slot>, p: Pid) returns (slots': seq<Slot>)
    requires Good(s) && Explains(s, slots) && Enabled(s, CommitTx(p))
    ensures Explains(DidCommit(s, p), slots')
  {
    ReadyIsLegal(s, p);
    CommitsApart(s, p);
    if Early(s.procs[p].call) {
      slots' := FillOnCommit(s, DidCommit(s, p), slots, p);
    } else {
      CommitDoes(s, p);
      AddOnCommit(s, DidCommit(s, p), slots, p);
      slots' := slots + [Done(Commit(p, Step(s.procs[p].call, s.procs[p].events)))];
    }
  }

  lemma StopSame(s: Sys, p: Pid, s': Sys)
    requires p in s.procs
    requires s' == Failed(s, p) || s' == s.(procs := s.procs - {p}, rowLocks := Freed(s.rowLocks, p))
    ensures s'.db == s.db && s'.commits == s.commits && s'.born == s.born && s'.nextPid == s.nextPid && s'.procs.Keys <= s.procs.Keys
    ensures forall q :: q != p ==> SameListing(s, s', q)
    ensures p in s'.procs ==> !HasListed(s'.procs[p])
  {
  }

  lemma StopStep(s: Sys, slots: seq<Slot>, p: Pid, s': Sys) returns (slots': seq<Slot>)
    requires Explains(s, slots) && p in s.procs && HasListed(s.procs[p])
    requires s' == Failed(s, p) || s' == s.(procs := s.procs - {p}, rowLocks := Freed(s.rowLocks, p))
    ensures Explains(s', slots')
  {
    assert Pending(p) in slots;
    var i :| 0 <= i < |slots| && slots[i] == Pending(p);
    StopSame(s, p, s');
    VoidSlot(s, s', slots, i);
    slots' := slots[i := Void];
  }

  /** The steps that book, fill or void a slot. */
  predicate MovesSlots(s: Sys, l: Label) {
    match l
    case ListOrder(p, _) => IsRunning(s, p) && Early(s.procs[p].call)
    case CommitTx(_) => true
    case Fail(p) => p in s.procs && HasListed(s.procs[p])
    case Crash(p) => p in s.procs && HasListed(s.procs[p])
    case _ => false
  }

  lemma SettleRowSameListing(s: Sys, p: Pid)
    requires Enabled(s, SettleRow(p))
    ensures SameListing(s, DidSettleRow(s, p), p)
  {
    var P, P' := s.procs[p], DidSettleRow(s, p).procs[p];
    PlanMovesOn(P.events, P.phase.rows, P.call.How());
    assert RowsToGo(P') == P.phase.rows[1..];
  }

  lemma EarlyListingStays(s: Sys, l: Label, q: Pid)
    requires Good(s) && Enabled(s, l) && !MovesSlots(s, l)
    requires l.Spawn? || l.TakeWild? || l.Choose? || l.DropWild? || l.Sweep? || l.TakeLock? || l.Scan?
    ensures SameListing(s, Next(s, l), q)
  {
  }

  lemma RowListingStays(s: Sys, l: Label, q: Pid)
    requires Enabled(s, l) && !MovesSlots(s, l)
    requires l.OnRows()
    ensures SameListing(s, Next(s, l), q)
  {
    match l
    case SettleRow(p) => SettleRowSameListing(s, p);
    case _ =>
  }

  lemma LateListingStays(s: Sys, l: Label, q: Pid)
    requires Enabled(s, l) && !MovesSlots(s, l)
    requires l.Fail? || l.Unlock? || l.Finish? || l.Crash? || l.Tick? || l.Expire?
    ensures SameListing(s, Next(s, l), q)
  {
  }

  lemma ListingStays(s: Sys, l: Label, q: Pid)
    requires Good(s) && Enabled(s, l) && !MovesSlots(s, l)
    ensures SameListing(s, Next(s, l), q)
  {
    if l.OnRows() {
      RowListingStays(s, l, q);
    } else if l.Fail? || l.Unlock? || l.Finish? || l.Crash? || l.Tick? || l.Expire? {
      LateListingStays(s, l, q);
    } else {
      EarlyListingStays(s, l, q);
    }
  }

  /** Nothing is committed, and a process comes in only when it is spawned. */
  ghost predicate Quiet(s: Sys, s': Sys, l: Label) {
    && s'.db == s.db && s'.commits == s.commits
    && s'.born == (if l.Spawn? then s.born[l.p := |s.commits|] else s.born)
    && s'.nextPid == (if l.Spawn? then s.nextPid + 1 else s.nextPid)
    && s'.procs.Keys <= s.procs.Keys + if l.Spawn? then {s.nextPid} else {}
  }

  lemma QuietStep(s: Sys, l: Label)
    requires Enabled(s, l) && !MovesSlots(s, l)
    requires !l.OnRows()
    ensures Quiet(s, Next(s, l), l)
    ensures l.Spawn? ==> l.p == s.nextPid
  {
  }

  lemma QuietExplained(s: Sys, l: Label, slots: seq<Slot>)
    requires Good(s) && Explains(s, slots) && Enabled(s, l) && !MovesSlots(s, l)
    ensures Explains(Next(s, l), slots)
  {
    if l.OnRows() {
      RowsAreSteady(s, l);
    } else {
      QuietStep(s, l);
    }
    forall q ensures SameListing(s, Next(s, l), q) {
      ListingStays(s, l, q);
    }
    SameSlots(s, Next(s, l), slots);
  }

  lemma StepExplained(s: Sys, l: Label, slots: seq<Slot>) returns (slots': seq<Slot>)
    requires Good(s) && Explains(s, slots) && Enabled(s, l)
    ensures Explains(Next(s, l), slots')
  {
    if !MovesSlots(s, l) {
      QuietExplained(s, l, slots);
      slots' := slots;
    } else if l.CommitTx? {
      slots' := CommitExplained(s, slots, l.p);
    } else if l.ListOrder? {
      ListStep(s, slots, l.p, l.listing);
      slots' := slots + [Pending(l.p)];
    } else {
      slots' := StopStep(s, slots, l.p, Next(s, l));
    }
  }

  lemma {:induction false} RunExplained(ls: seq<Label>) returns (slots: seq<Slot>)
    requires PromptRun(ls)
    ensures Explains(Exec(ls), slots)
    decreases |ls|
  {
    if ls == [] {
      slots := [];
    } else {
      var n := |ls| - 1;
      slots := RunExplained(ls[..n]);
      ConcurrentAccounting(ls[..n]);
      if Enabled(Exec(ls[..n]), ls[n]) {
        slots := StepExplained(Exec(ls[..n]), ls[n], slots);
      }
    }
  }

  // ---------------------------------------------------------------- the theorem

  function Steps(h: seq<Commit>): seq<Step> {
    if h == [] then [] else Steps(h[..|h| - 1]) + [h[|h| - 1].step]
  }

  lemma StepsOneMore(h: seq<Commit>, c: Commit)
    ensures Steps(h + [c]) == Steps(h) + [c.step]
  {
    assert (h + [c])[..|h|] == h;
  }

  lemma DonesNext(slots: seq<Slot>, k: nat)
    requires k < |slots|
    ensures Dones(slots[..k + 1]) == Dones(slots[..k]) + if slots[k].Done? then [slots[k].commit] else []
  {
    assert slots[..k + 1] == slots[..k] + [slots[k]];
    PlayedOneMore(slots[..k], slots[k]);
  }

  lemma {:induction false} DonesReplay(s: Sys, slots: seq<Slot>, n: nat)
    requires n <= |slots| && forall i :: 0 <= i < |slots| ==> SlotOk(s, Played(slots[..i]), slots[i])
    ensures Replay(NO_TABLES, Steps(Dones(slots[..n]))) == Played(slots[..n])
    ensures Serial(NO_TABLES, Steps(Dones(slots[..n])))
  {
    if n > 0 {
      DonesReplay(s, slots, n - 1);
      PlayedNext(slots, n - 1);
      DonesNext(slots, n - 1);
      var h := Dones(slots[..n - 1]);
      if slots[n - 1].Done? {
        StepsOneMore(h, slots[n - 1].commit);
        RunOneMore(NO_TABLES, Steps(h), slots[n - 1].commit.step);
        assert SlotOk(s, Played(slots[..n - 1]), slots[n - 1]);
      } else {
        assert h + [] == h;
      }
    }
  }

  /** Where a filled slot ends up once the others are dropped. */
  lemma {:induction false} DonesIndex(slots: seq<Slot>, j: nat)
    requires j < |slots| && slots[j].Done?
    ensures |Dones(slots[..j])| < |Dones(slots)| && Dones(slots)[|Dones(slots[..j])|] == slots[j].commit
    decreases |slots|
  {
    var n := |slots| - 1;
    if j < n {
      DonesIndex(slots[..n], j);
      assert slots[..n][..j] == slots[..j];
    }
  }

  lemma {:induction false} DonesGrow(slots: seq<Slot>, i: nat, j: nat)
    requires i < j <= |slots| && slots[i].Done?
    ensures |Dones(slots[..i])| < |Dones(slots[..j])|
    decreases j
  {
    DonesNext(slots, j - 1);
    if i < j - 1 {
      DonesGrow(slots, i, j - 1);
    }
  }

  ghost predicate Precedes(h: seq<Commit>, a: Commit, b: Commit) {
    exists i, j :: 0 <= i < j < |h| && h[i] == a && h[j] == b
  }

  lemma DonesInTime(s: Sys, slots: seq<Slot>, m: nat, n: nat)
    requires Timely(s, slots) && n < |s.commits| && s.commits[n].pid in s.born && m < s.born[s.commits[n].pid]
    ensures m < |s.commits| && Precedes(Dones(slots), s.commits[m], s.commits[n])
  {
    assert Done(s.commits[n]) in slots;
    var j :| 0 <= j < |slots| && slots[j] == Done(s.commits[n]);
    assert Done(s.commits[m]) in slots[..j];
    var i :| 0 <= i < j && slots[..j][i] == Done(s.commits[m]);
    DonesIndex(slots, i);
    DonesIndex(slots, j);
    DonesGrow(slots, i, j);
  }

  /** Strict serialisability: after every schedule in which no lock expires mid-call there is an
      order of exactly the committed calls in which each of them, run alone, has the effects it had,
      the run ends in the committed stock and reservation tables, and a call that had committed
      before another one started comes before it. */
  lemma Serialisable(ls: seq<Label>) returns (h: seq<Commit>)
    requires PromptRun(ls)
    ensures multiset(h) == multiset(Exec(ls).commits)
    ensures Serial(NO_TABLES, Steps(h))
    ensures Replay(NO_TABLES, Steps(h)) == Exec(ls).db
    ensures forall m, n :: 0 <= n < |Exec(ls).commits| && Exec(ls).commits[n].pid in Exec(ls).born
                           && 0 <= m < Exec(ls).born[Exec(ls).commits[n].pid] ==>
              m < |Exec(ls).commits| && Precedes(h, Exec(ls).commits[m], Exec(ls).commits[n])
  {
    var s := Exec(ls);
    var slots := RunExplained(ls);
    h := Dones(slots);
    assert slots[..|slots|] == slots;
    DonesReplay(s, slots, |slots|);
    forall m, n | 0 <= n < |s.commits| && s.commits[n].pid in s.born && 0 <= m < s.born[s.commits[n].pid]
      ensures m < |s.commits| && Precedes(h, s.commits[m], s.commits[n])
    {
      DonesInTime(s, slots, m, n);
    }
  }

  // ---------------------------------------------------------------- settle once

  /** A commit holds at most one reservation, under its own process id. */
  predicate Tagged(c: Commit) {
    && (forall k :: 0 <= k < |c.step.events| && c.step.events[k].Hold? ==> c.step.events[k].id == c.pid)
    && (forall k, m :: 0 <= k < m < |c.step.events| ==> !(c.step.events[k].Hold? && c.step.events[m].Hold?))
  }

  predicate DistinctPids(h: seq<Commit>) {
    forall i, j :: 0 <= i < j < |h| ==> h[i].pid != h[j].pid
  }

  /** A process that has committed is on its way out. */
  predicate CommittersLeave(s: Sys) {
    forall i :: 0 <= i < |s.commits| ==> s.commits[i].pid < s.nextPid && (s.commits[i].pid in s.procs ==> s.procs[s.commits[i].pid].Leaving?)
  }

  lemma LeaversAtStart(s: Sys, l: Label)
    requires CommittersLeave(s) && Enabled(s, l)
    requires l.Spawn? || l.TakeWild? || l.Choose? || l.DropWild? || l.Sweep? || l.TakeLock? || l.Scan?
    ensures CommittersLeave(Next(s, l)) && Next(s, l).commits == s.commits
  {
  }

  lemma LeaversInRows(s: Sys, s': Sys, p: Pid)
    requires CommittersLeave(s) && Steady(s, s', p)
    ensures CommittersLeave(s') && s'.commits == s.commits
  {
  }

  lemma LeaversAtEnd(s: Sys, l: Label)
    requires CommittersLeave(s) && Enabled(s, l)
    requires l.Fail? || l.Unlock? || l.Finish? || l.Crash? || l.Tick? || l.Expire?
    ensures CommittersLeave(Next(s, l)) && Next(s, l).commits == s.commits
  {
  }

  lemma ReadyIsTagged(s: Sys, p: Pid)
    requires IsRunning(s, p) && ProcOk(s, p, s.procs[p]) && s.procs[p].phase.Committing?
    ensures Tagged(Commit(p, Step(s.procs[p].call, s.procs[p].events)))
  {
    var P := s.procs[p];
    if P.call.Settles() {
      assert P.events + Ends([], P.call.How()) == P.events;
    }
  }

  lemma CommitAdds(s: Sys, p: Pid)
    requires CommittersLeave(s) && DistinctPids(s.commits) && IsRunning(s, p) && p < s.nextPid
    ensures CommittersLeave(DidCommit(s, p)) && DistinctPids(DidCommit(s, p).commits)
  {
  }

  lemma {:induction false} CommitsAreTagged(ls: seq<Label>)
    requires PromptRun(ls)
    ensures CommittersLeave(Exec(ls)) && DistinctPids(Exec(ls).commits)
    ensures forall i :: 0 <= i < |Exec(ls).commits| ==> Tagged(Exec(ls).commits[i])
    decreases |ls|
  {
    if ls != [] {
      var front, l := ls[..|ls| - 1], ls[|ls| - 1];
      var s := Exec(front);
      CommitsAreTagged(front);
      ConcurrentAccounting(front);
      if Enabled(s, l) {
        if l.CommitTx? {
          ReadyIsTagged(s, l.p);
          CommitAdds(s, l.p);
        } else if l.OnRows() {
          RowsAreSteady(s, l);
          LeaversInRows(s, Next(s, l), l.p);
        } else if l.Fail? || l.Unlock? || l.Finish? || l.Crash? || l.Tick? || l.Expire? {
          LeaversAtEnd(s, l);
        } else {
          LeaversAtStart(s, l);
        }
      }
    }
  }

  /** Reordering keeps the tags and the distinct processes. */
  lemma ReorderedIsTagged(h: seq<Commit>, commits: seq<Commit>)
    requires multiset(h) == multiset(commits) && DistinctPids(commits) && forall i :: 0 <= i < |commits| ==> Tagged(commits[i])
    ensures DistinctPids(h) && forall i :: 0 <= i < |h| ==> Tagged(h[i])
  {
    forall i | 0 <= i < |h| ensures h[i] in commits && Tagged(h[i]) {
      assert h[i] in multiset(h);
      assert h[i] in multiset(commits);
      assert h[i] in commits;
    }
    forall i, j | 0 <= i < j < |h| ensures h[i].pid != h[j].pid {
      if h[i].pid == h[j].pid {
        assert h[i] in commits && h[j] in commits;
        assert h[i] == h[j];
        Orders.OccursTwice(h, i, j);
        Orders.OccursOnce(commits, h[i]);
      }
    }
  }

  /** The holds of a run of tagged commits are all of different reservations. */
  ghost predicate HoldsDiffer(es: seq<Event>) {
    forall a, b :: 0 <= a < b < |es| && es[a].Hold? && es[b].Hold? ==> es[a].id != es[b].id
  }

  /** Every hold is of a process in `h`. */
  ghost predicate HoldsFrom(es: seq<Event>, h: seq<Commit>) {
    forall a :: 0 <= a < |es| && es[a].Hold? ==> exists i :: 0 <= i < |h| && h[i].pid == es[a].id
  }

  lemma HoldsDifferFrom(es: seq<Event>, front: seq<Commit>, c: Commit)
    requires HoldsDiffer(es) && HoldsFrom(es, front) && Tagged(c) && DistinctPids(front + [c])
    ensures HoldsDiffer(es + c.step.events)
  {
    var all := es + c.step.events;
    forall a | 0 <= a < |es| && es[a].Hold? ensures es[a].id != c.pid {
      var i :| 0 <= i < |front| && front[i].pid == es[a].id;
      assert (front + [c])[i] == front[i] && (front + [c])[|front|] == c;
    }
    forall a, b | 0 <= a < b < |all| && all[a].Hold? && all[b].Hold? ensures all[a].id != all[b].id {
      assert b >= |es| ==> all[b] == c.step.events[b - |es|];
    }
  }

  lemma HoldsFromMore(es: seq<Event>, front: seq<Commit>, c: Commit)
    requires HoldsFrom(es, front) && Tagged(c)
    ensures HoldsFrom(es + c.step.events, front + [c])
  {
    var all, h := es + c.step.events, front + [c];
    forall a | 0 <= a < |all| && all[a].Hold? ensures exists i :: 0 <= i < |h| && h[i].pid == all[a].id {
      if a < |es| {
        var i :| 0 <= i < |front| && front[i].pid == es[a].id;
        assert h[i].pid == all[a].id;
      } else {
        assert h[|front|].pid == all[a].id;
      }
    }
  }

  lemma EffectsOneMore(front: seq<Commit>, c: Commit)
    ensures Effects(Steps(front + [c])) == Effects(Steps(front)) + c.step.events
  {
    StepsOneMore(front, c);
    assert (Steps(front) + [c.step])[..|Steps(front)|] == Steps(front);
  }

  lemma {:induction false} TaggedHoldsDiffer(h: seq<Commit>)
    requires DistinctPids(h) && forall i :: 0 <= i < |h| ==> Tagged(h[i])
    ensures HoldsDiffer(Effects(Steps(h))) && HoldsFrom(Effects(Steps(h)), h)
    decreases |h|
  {
    if h != [] {
      var front, c := h[..|h| - 1], h[|h| - 1];
      TaggedHoldsDiffer(front);
      assert h == front + [c];
      EffectsOneMore(front, c);
      HoldsDifferFrom(Effects(Steps(front)), front, c);
      HoldsFromMore(Effects(Steps(front)), front, c);
    }
  }

  /** In a run whose holds are all different, no reservation is settled twice. */
  lemma SettledAtMostOnce(h: seq<Step>, a: nat, b: nat)
    requires Serial(NO_TABLES, h) && HoldsDiffer(Effects(h))
    requires a < b < |Effects(h)| && Effects(h)[a].Settle? && Effects(h)[b].Settle?
    ensures Effects(h)[a].id != Effects(h)[b].id
  {
    var es := Effects(h);
    var i := SettlesOnce(h, a);
    var j := SettlesOnce(h, b);
    if j < a {
      assert !Mentions(es[a], es[b].id);
    } else {
      assert i < j && es[i].id != es[j].id;
    }
  }

  /** Settle-once for interleaved processes: in the serial order of a prompt schedule every
      reservation is held once and settled at most once. */
  lemma SettlesOnceConcurrently(ls: seq<Label>) returns (h: seq<Commit>)
    requires PromptRun(ls)
    ensures multiset(h) == multiset(Exec(ls).commits)
    ensures Serial(NO_TABLES, Steps(h)) && Replay(NO_TABLES, Steps(h)) == Exec(ls).db
    ensures HoldsDiffer(Effects(Steps(h)))
    ensures forall a, b :: 0 <= a < b < |Effects(Steps(h))| && Effects(Steps(h))[a].Settle? && Effects(Steps(h))[b].Settle?
                           ==> Effects(Steps(h))[a].id != Effects(Steps(h))[b].id
  {
    h := Serialisable(ls);
    CommitsAreTagged(ls);
    ReorderedIsTagged(h, Exec(ls).commits);
    TaggedHoldsDiffer(h);
    var es := Effects(Steps(h));
    forall a, b | 0 <= a < b < |es| && es[a].Settle? && es[b].Settle? ensures es[a].id != es[b].id {
      SettledAtMostOnce(Steps(h), a, b);
    }
  }
}
