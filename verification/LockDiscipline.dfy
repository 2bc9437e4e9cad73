/** What the use cases leave behind in Redis. */
module LockDiscipline {
  import opened Calls
  import opened Protocol
  import opened Accounting

  /** Every lease of a process that is still there is one it will delete on its way out. */
  ghost predicate NoLeak(s: Sys) {
    && (forall p :: p in s.procs ==> p < s.nextPid)
    && (forall k :: k in s.locks ==> s.locks[k].holder < s.nextPid)
    && (forall k :: k in s.locks && s.locks[k].holder in s.procs ==> k in DefersOf(s.procs[s.locks[k].holder]))
  }

  /** A step that takes no key and forgets none. */
  lemma SameKeys(s: Sys, s': Sys)
    requires NoLeak(s) && s.nextPid <= s'.nextPid
    requires forall k :: k in s'.locks ==> k in s.locks && s'.locks[k] == s.locks[k]
    requires forall q :: q in s'.procs ==> q < s'.nextPid
    requires forall q :: q in s'.procs && q < s.nextPid ==>
               q in s.procs && forall k :: k in DefersOf(s.procs[q]) ==> k in DefersOf(s'.procs[q]) || k !in s'.locks
    ensures NoLeak(s')
  {
  }

  lemma KeysOfRows(s: Sys, s': Sys, p: Pid)
    requires NoLeak(s) && Steady(s, s', p)
    ensures NoLeak(s')
  {
    SameKeys(s, s');
  }

  lemma KeysOfCommit(s: Sys, p: Pid)
    requires NoLeak(s) && IsRunning(s, p)
    ensures NoLeak(DidCommit(s, p))
  {
    SameKeys(s, DidCommit(s, p));
  }

  lemma KeysOfStart(s: Sys, l: Label)
    requires NoLeak(s) && Enabled(s, l) && (l.Spawn? || l.Choose? || l.DropWild? || l.Sweep? || l.Scan?)
    ensures NoLeak(Next(s, l))
  {
    SameKeys(s, Next(s, l));
  }

  lemma KeysOfEnd(s: Sys, l: Label)
    requires NoLeak(s) && Enabled(s, l) && (l.Fail? || l.Finish? || l.Crash? || l.Tick? || l.Expire?)
    ensures NoLeak(Next(s, l))
  {
    SameKeys(s, Next(s, l));
  }

  lemma KeysOfLock(s: Sys, l: Label)
    requires NoLeak(s) && Enabled(s, l) && (l.TakeWild? || l.TakeLock?)
    ensures NoLeak(Next(s, l))
  {
  }

  lemma KeysOfUnlock(s: Sys, p: Pid, i: nat)
    requires NoLeak(s) && Enabled(s, Unlock(p, i))
    ensures NoLeak(Next(s, Unlock(p, i)))
  {
    var ks := s.procs[p].defers;
    assert forall k :: k in ks && k != ks[i] ==> k in ks[..i] + ks[i + 1..];
  }

  lemma KeysOfRowStep(s: Sys, l: Label)
    requires NoLeak(s) && Enabled(s, l) && l.OnRows()
    ensures NoLeak(Next(s, l))
  {
    RowsAreSteady(s, l);
    KeysOfRows(s, Next(s, l), l.p);
  }

  lemma KeysOfLateStep(s: Sys, l: Label)
    requires NoLeak(s) && Enabled(s, l) && l.AtEnd()
    ensures NoLeak(Next(s, l))
  {
    match l
    case CommitTx(p) => KeysOfCommit(s, p);
    case Unlock(p, i) => KeysOfUnlock(s, p, i);
    case _ => KeysOfEnd(s, l);
  }

  lemma StepKeepsKeys(s: Sys, l: Label)
    requires NoLeak(s) && Enabled(s, l)
    ensures NoLeak(Next(s, l))
  {
    if l.OnRows() {
      KeysOfRowStep(s, l);
    } else if l.AtEnd() {
      KeysOfLateStep(s, l);
    } else if l.TakeWild? || l.TakeLock? {
      KeysOfLock(s, l);
    } else {
      KeysOfStart(s, l);
    }
  }

  lemma {:induction false} KeysNeverLeak(ls: seq<Label>)
    ensures NoLeak(Exec(ls))
    decreases |ls|
  {
    if ls != [] {
      var n := |ls| - 1;
      KeysNeverLeak(ls[..n]);
      if Enabled(Exec(ls[..n]), ls[n]) {
        StepKeepsKeys(Exec(ls[..n]), ls[n]);
      }
    }
  }

  /** A use case that runs to its end, with or without success, leaves no key of its own set,
      whatever happened to its leases meanwhile.  Only a crash leaves keys to their TTL. */
  lemma FinishedLeavesNoKey(ls: seq<Label>, p: Pid, k: Key)
    requires Enabled(Exec(ls), Finish(p))
    ensures k in Exec(ls).locks ==> Exec(ls).locks[k].holder != p
  {
    KeysNeverLeak(ls);
  }

  /** While no lease runs out mid-call, a process deletes only its own lease, the wildcard key aside. */
  lemma UnlocksItsOwnKey(ls: seq<Label>, p: Pid, i: nat)
    requires PromptRun(ls) && Enabled(Exec(ls), Unlock(p, i)) && !Exec(ls).procs[p].defers[i].AnyStockKey?
    ensures var k := Exec(ls).procs[p].defers[i];
            k in Exec(ls).locks && Exec(ls).locks[k].holder == p
  {
    ConcurrentAccounting(ls);
    assert ProcOk(Exec(ls), p, Exec(ls).procs[p]);
  }

  /** And no two processes in flight count on the same order or stock key. */
  lemma KeysExclude(ls: seq<Label>, p: Pid, q: Pid, k: Key)
    requires PromptRun(ls) && p in Exec(ls).procs && q in Exec(ls).procs && !k.AnyStockKey?
    requires k in DefersOf(Exec(ls).procs[p]) && k in DefersOf(Exec(ls).procs[q])
    ensures p == q
  {
    ConcurrentAccounting(ls);
    var s := Exec(ls);
    assert ProcOk(s, p, s.procs[p]) && ProcOk(s, q, s.procs[q]);
  }

  // ---------------------------------------------------------------- the wildcard key

  /** Wildcard keys are taken by the automatic choice alone, never among a call's own keys. */
  ghost predicate NoWildToGo(s: Sys) {
    forall p :: p in s.procs && s.procs[p].Running? && s.procs[p].phase.Acquiring? ==>
      forall k :: k in s.procs[p].phase.todo ==> !k.AnyStockKey?
  }

  lemma OwnKeysAreNotWild(call: Call)
    ensures forall k :: k in KeysOf(call) ==> !k.AnyStockKey?
  {
    if call.Cleanup? {
      assert forall k :: k in OrderKeys(call.orders) ==> k.OrderKey?;
    }
  }

  lemma NoWildAtStart(s: Sys, l: Label)
    requires NoWildToGo(s) && Enabled(s, l) && (l.Spawn? || l.DropWild? || l.Sweep?)
    ensures NoWildToGo(Next(s, l))
  {
    match l
    case Spawn(_, start) =>
      if start.Running? {
        OwnKeysAreNotWild(start.call);
      }
    case DropWild(p) => OwnKeysAreNotWild(s.procs[p].call);
    case Sweep(_, found) => OwnKeysAreNotWild(Cleanup(s.clock, found));
  }

  lemma NoWildInLocks(s: Sys, l: Label)
    requires NoWildToGo(s) && Enabled(s, l) && (l.TakeWild? || l.Choose? || l.TakeLock? || l.Scan?)
    ensures NoWildToGo(Next(s, l))
  {
  }

  lemma NoWildInRows(s: Sys, s': Sys, p: Pid)
    requires NoWildToGo(s) && Steady(s, s', p)
    ensures NoWildToGo(s')
  {
  }

  lemma NoWildAtEnd(s: Sys, l: Label)
    requires NoWildToGo(s) && Enabled(s, l)
    requires l.AtEnd()
    ensures NoWildToGo(Next(s, l))
  {
  }

  lemma StepKeepsNoWild(s: Sys, l: Label)
    requires NoWildToGo(s) && Enabled(s, l)
    ensures NoWildToGo(Next(s, l))
  {
    if l.OnRows() {
      RowsAreSteady(s, l);
      NoWildInRows(s, Next(s, l), l.p);
    } else if l.AtEnd() {
      NoWildAtEnd(s, l);
    } else if l.Spawn? || l.DropWild? || l.Sweep? {
      NoWildAtStart(s, l);
    } else {
      NoWildInLocks(s, l);
    }
  }

  lemma {:induction false} NeverWildToGo(ls: seq<Label>)
    ensures NoWildToGo(Exec(ls))
    decreases |ls|
  {
    if ls != [] {
      var n := |ls| - 1;
      NeverWildToGo(ls[..n]);
      if Enabled(Exec(ls[..n]), ls[n]) {
        StepKeepsNoWild(Exec(ls[..n]), ls[n]);
      }
    }
  }

  /** The automatic reserve `p` has given its wildcard key back before taking that of its cell. */
  ghost predicate HasDropped(ls: seq<Label>, p: Pid) {
    ls != [] &&
    var front, l := ls[..|ls| - 1], ls[|ls| - 1];
    HasDropped(front, p) || (l == DropWild(p) && Enabled(Exec(front), l))
  }

  /** It holds no wildcard lease and cannot take one again. */
  ghost predicate PastWild(s: Sys, p: Pid) {
    && p < s.nextPid
    && (p in s.procs ==> !s.procs[p].Anywhere? && !(s.procs[p].Running? && s.procs[p].phase.Dropping?))
    && forall k :: k in s.locks && k.AnyStockKey? ==> s.locks[k].holder != p
  }

  lemma DropIsPast(s: Sys, p: Pid)
    requires NoLeak(s) && Enabled(s, DropWild(p))
    ensures PastWild(Next(s, DropWild(p)), p)
  {
  }

  lemma PastStaysAtStart(s: Sys, l: Label, p: Pid)
    requires NoWildToGo(s) && Enabled(s, l) && PastWild(s, p)
    requires l.Spawn? || l.TakeWild? || l.Choose? || l.DropWild? || l.Sweep? || l.TakeLock? || l.Scan?
    ensures PastWild(Next(s, l), p)
  {
  }

  lemma PastStaysInRows(s: Sys, s': Sys, p: Pid, q: Pid)
    requires PastWild(s, p) && Steady(s, s', q)
    ensures PastWild(s', p)
  {
  }

  lemma PastStaysAtEnd(s: Sys, l: Label, p: Pid)
    requires Enabled(s, l) && PastWild(s, p)
    requires l.AtEnd()
    ensures PastWild(Next(s, l), p)
  {
  }

  lemma PastStays(s: Sys, l: Label, p: Pid)
    requires NoWildToGo(s) && Enabled(s, l) && PastWild(s, p)
    ensures PastWild(Next(s, l), p)
  {
    if l.OnRows() {
      RowsAreSteady(s, l);
      PastStaysInRows(s, Next(s, l), p, l.p);
    } else if l.AtEnd() {
      PastStaysAtEnd(s, l, p);
    } else {
      PastStaysAtStart(s, l, p);
    }
  }

  lemma {:induction false} DroppedIsPast(ls: seq<Label>, p: Pid)
    requires HasDropped(ls, p)
    ensures PastWild(Exec(ls), p)
    decreases |ls|
  {
    var front, l := ls[..|ls| - 1], ls[|ls| - 1];
    KeysNeverLeak(front);
    NeverWildToGo(front);
    if HasDropped(front, p) {
      DroppedIsPast(front, p);
      if Enabled(Exec(front), l) {
        PastStays(Exec(front), l, p);
      }
    } else {
      DropIsPast(Exec(front), p);
    }
  }

  /** The step takes a lease away that the process itself does not hold. */
  predicate RemovesForeign(s: Sys, s': Sys, p: Pid, k: Key) {
    k in s.locks && s.locks[k].holder != p && k !in s'.locks
  }

  /** Under every schedule, the deferred deletion of a wildcard key that has already been given back
      removes another process's lease if and only if the key is set at that moment. */
  lemma LateDeletionIsForeign(ls: seq<Label>, p: Pid, i: nat)
    requires HasDropped(ls, p) && Enabled(Exec(ls), Unlock(p, i)) && Exec(ls).procs[p].defers[i].AnyStockKey?
    ensures var s := Exec(ls);
            var k := s.procs[p].defers[i];
            RemovesForeign(s, Next(s, Unlock(p, i)), p, k) <==> k in s.locks
  {
    DroppedIsPast(ls, p);
  }

  /** No two processes in flight have the same wildcard key to delete. */
  ghost predicate Solo(s: Sys) {
    forall p, q, sku :: p in s.procs && q in s.procs && AnyStockKey(sku) in DefersOf(s.procs[p]) && AnyStockKey(sku) in DefersOf(s.procs[q])
                        ==> p == q
  }

  ghost predicate SoloRun(ls: seq<Label>) {
    Solo(Exec(ls)) && (ls == [] || SoloRun(ls[..|ls| - 1]))
  }

  /** A wildcard key that is set belongs to the process that has it to delete. */
  ghost predicate WildIsOwn(s: Sys) {
    forall p, sku :: p in s.procs && AnyStockKey(sku) in DefersOf(s.procs[p]) && AnyStockKey(sku) in s.locks
                     ==> s.locks[AnyStockKey(sku)].holder == p
  }

  /** A step that takes no wildcard key and gives no process another one to delete. */
  lemma OwnStays(s: Sys, s': Sys)
    requires WildIsOwn(s)
    requires forall k :: k in s'.locks && k.AnyStockKey? ==> k in s.locks && s'.locks[k] == s.locks[k]
    requires forall p, sku :: p in s'.procs && AnyStockKey(sku) in DefersOf(s'.procs[p]) ==> p in s.procs && AnyStockKey(sku) in DefersOf(s.procs[p])
    ensures WildIsOwn(s')
  {
  }

  lemma OwnAfterTaking(s: Sys, p: Pid)
    requires WildIsOwn(s) && Enabled(s, TakeWild(p)) && Solo(Next(s, TakeWild(p)))
    ensures WildIsOwn(Next(s, TakeWild(p)))
  {
    var s' := Next(s, TakeWild(p));
    var k := AnyStockKey(s.procs[p].sku);
    forall q, sku | q in s'.procs && AnyStockKey(sku) in DefersOf(s'.procs[q]) && AnyStockKey(sku) in s'.locks
      ensures s'.locks[AnyStockKey(sku)].holder == q
    {
      if AnyStockKey(sku) == k {
        assert k in DefersOf(s'.procs[p]);
        assert q == p;
      }
    }
  }

  lemma OwnAtStart(s: Sys, l: Label)
    requires WildIsOwn(s) && NoWildToGo(s) && Enabled(s, l)
    requires l.Spawn? || l.Choose? || l.DropWild? || l.Sweep? || l.TakeLock? || l.Scan?
    ensures WildIsOwn(Next(s, l))
  {
    OwnStays(s, Next(s, l));
  }

  lemma OwnInRows(s: Sys, s': Sys, p: Pid)
    requires WildIsOwn(s) && Steady(s, s', p)
    ensures WildIsOwn(s')
  {
    OwnStays(s, s');
  }

  lemma OwnAtEnd(s: Sys, l: Label)
    requires WildIsOwn(s) && Enabled(s, l)
    requires l.AtEnd()
    ensures WildIsOwn(Next(s, l))
  {
    OwnStays(s, Next(s, l));
  }

  lemma {:induction false} SoloIsOwn(ls: seq<Label>)
    requires SoloRun(ls)
    ensures WildIsOwn(Exec(ls))
    decreases |ls|
  {
    if ls != [] {
      var front, l := ls[..|ls| - 1], ls[|ls| - 1];
      var s := Exec(front);
      SoloIsOwn(front);
      NeverWildToGo(front);
      if Enabled(s, l) {
        if l.TakeWild? {
          OwnAfterTaking(s, l.p);
        } else if l.OnRows() {
          RowsAreSteady(s, l);
      OwnInRows(s, Next(s, l), l.p);
        } else if l.AtEnd() {
          OwnAtEnd(s, l);
        } else {
          OwnAtStart(s, l);
        }
      }
    }
  }

  /** In every schedule, prompt or not, in which no two automatic reserves of one SKU are in flight
      together, no deletion of a wildcard key removes another process's lease. */
  lemma SoloWildcardsAreOwn(ls: seq<Label>, l: Label, k: Key)
    requires SoloRun(ls) && Enabled(Exec(ls), l) && (l.Unlock? || l.DropWild?) && k.AnyStockKey?
    ensures !RemovesForeign(Exec(ls), Next(Exec(ls), l), l.p, k)
  {
    SoloIsOwn(ls);
  }
}
