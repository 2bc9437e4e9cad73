/** The orders of a listing, deduplicated and sorted, as cleanup prepares them for locking. */
module Orders {
  import opened Tables

  predicate Leq(a: string, b: string) {
    a == "" || (b != "" && (a[0] < b[0] || (a[0] == b[0] && Leq(a[1..], b[1..]))))
  }

  lemma LeqTotal(a: string, b: string)
    ensures Leq(a, b) || Leq(b, a)
  {
  }

  predicate Ascending(s: seq<string>) {
    forall i :: 0 < i < |s| ==> Leq(s[i - 1], s[i])
  }

  method Insert(x: string, s: seq<string>) returns (r: seq<string>)
    requires Ascending(s)
    ensures Ascending(r) && multiset(r) == multiset(s) + multiset{x}
  {
    var i := 0;
    while i < |s| && Leq(s[i], x)
      invariant 0 <= i <= |s|
      invariant i > 0 ==> Leq(s[i - 1], x)
    {
      i := i + 1;
    }
    r := s[..i] + [x] + s[i..];
    if i < |s| {
      LeqTotal(s[i], x);
    }
    InsertedStaysAscending(s, x, i);
    assert s == s[..i] + s[i..];
  }

  lemma InsertedStaysAscending(s: seq<string>, x: string, i: nat)
    requires Ascending(s) && i <= |s| && (i > 0 ==> Leq(s[i - 1], x)) && (i < |s| ==> Leq(x, s[i]))
    ensures Ascending(s[..i] + [x] + s[i..])
  {
    var r := s[..i] + [x] + s[i..];
    forall k | 0 < k < |r| ensures Leq(r[k - 1], r[k]) {
      assert k < i ==> r[k - 1] == s[k - 1] && r[k] == s[k];
      assert k > i + 1 ==> r[k - 1] == s[k - 2] && r[k] == s[k - 1];
    }
  }

  /** `sort.Strings`. */
  method Sort(s: seq<string>) returns (r: seq<string>)
    ensures Ascending(r) && multiset(r) == multiset(s)
  {
    r := [];
    for i := 0 to |s|
      invariant Ascending(r) && multiset(r) == multiset(s[..i])
    {
      r := Insert(s[i], r);
      assert s[..i + 1] == s[..i] + [s[i]];
    }
    assert s[..|s|] == s;
  }

  /** The orders of a listing, each once. */
  method OrdersOf(rows: seq<(Id, Reservation)>) returns (orders: seq<string>)
    ensures forall o :: o in orders <==> exists i :: 0 <= i < |rows| && rows[i].1.order == o
    ensures forall i, j :: 0 <= i < j < |orders| ==> orders[i] != orders[j]
    ensures Ascending(orders)
  {
    orders := [];
    var seen: set<string> := {};
    for n := 0 to |rows|
      invariant forall o :: o in seen <==> o in orders
      invariant forall o :: o in orders <==> exists i :: 0 <= i < n && rows[i].1.order == o
      invariant forall i, j :: 0 <= i < j < |orders| ==> orders[i] != orders[j]
    {
      var o := rows[n].1.order;
      if o !in seen {
        seen := seen + {o};
        orders := orders + [o];
      }
    }
    var unsorted := orders;
    orders := Sort(unsorted);
    SameElements(unsorted, orders);
  }

  lemma SameElements(a: seq<string>, b: seq<string>)
    requires multiset(a) == multiset(b) && forall i, j :: 0 <= i < j < |a| ==> a[i] != a[j]
    ensures forall x :: x in a <==> x in b
    ensures forall i, j :: 0 <= i < j < |b| ==> b[i] != b[j]
  {
    forall x ensures x in a <==> x in b {
      assert x in multiset(a) <==> x in a;
      assert x in multiset(b) <==> x in b;
    }
    forall i, j | 0 <= i < j < |b| ensures b[i] != b[j] {
      if b[i] == b[j] {
        OccursTwice(b, i, j);
        OccursOnce(a, b[i]);
      }
    }
  }

  lemma OccursTwice<X>(s: seq<X>, i: nat, j: nat)
    requires i < j < |s| && s[i] == s[j]
    ensures 2 <= multiset(s)[s[i]]
  {
    assert s == s[..i] + [s[i]] + s[i + 1..j] + [s[j]] + s[j + 1..];
  }

  lemma OccursOnce<X>(s: seq<X>, x: X)
    requires forall i, j :: 0 <= i < j < |s| ==> s[i] != s[j]
    ensures multiset(s)[x] <= 1
  {
    if s != [] {
      OccursOnce(s[1..], x);
      assert s == [s[0]] + s[1..];
      if s[0] == x {
        assert x !in s[1..];
      }
    }
  }
}
