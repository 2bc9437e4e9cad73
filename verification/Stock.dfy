/** One row of `product_stocks`: the arithmetic the Go entity does on it in `int64`, the
    CHECK constraints of its table, and when the two together give exact integers. */
module Stock {

  const MAX_INT64: int := 0x7FFF_FFFF_FFFF_FFFF
  const TWO_TO_THE_63: int := 0x8000_0000_0000_0000
  const TWO_TO_THE_64: int := 0x1_0000_0000_0000_0000

  type Int64 = x: int | -TWO_TO_THE_63 <= x <= MAX_INT64

  /** The quantities an `int64` argument can carry once the caller has checked `qty > 0`. */
  predicate IsQuantity(q: int) {
    0 < q <= MAX_INT64
  }

  /** Go's two's-complement `int64` result of an operation whose exact result is `x`: the number
      an `int64` can hold that differs from `x` by a multiple of 2^64. */
  function Wrap(x: int): (w: int)
    ensures -TWO_TO_THE_63 <= w <= MAX_INT64
    decreases if x < 0 then -x else x + 1
  {
    if x < -TWO_TO_THE_63 then Wrap(x + TWO_TO_THE_64)
    else if MAX_INT64 < x then Wrap(x - TWO_TO_THE_64)
    else x
  }

  /** The two properties that determine the result. */
  lemma {:induction false} WrapIsCongruent(x: int) returns (k: int)
    ensures Wrap(x) == x + k * TWO_TO_THE_64 && -TWO_TO_THE_63 <= Wrap(x) <= MAX_INT64
    decreases if x < 0 then -x else x + 1
  {
    if x < -TWO_TO_THE_63 {
      k := WrapIsCongruent(x + TWO_TO_THE_64);
      k := k + 1;
    } else if MAX_INT64 < x {
      k := WrapIsCongruent(x - TWO_TO_THE_64);
      k := k - 1;
    } else {
      k := 0;
    }
  }

  /** Sums may be wrapped at every step or once at the end. */
  lemma {:induction false} WrapSum(a: int, q: int)
    ensures Wrap(Wrap(a) + q) == Wrap(a + q)
    decreases if a < 0 then -a else a + 1
  {
    if a < -TWO_TO_THE_63 {
      WrapSum(a + TWO_TO_THE_64, q);
      WrapPeriod(a + q);
    } else if MAX_INT64 < a {
      WrapSum(a - TWO_TO_THE_64, q);
      WrapPeriod(a - TWO_TO_THE_64 + q);
    }
  }

  lemma WrapPeriod(x: int)
    ensures Wrap(x + TWO_TO_THE_64) == Wrap(x)
  {
  }

  datatype Row = Row(total: int, reserved: int, safety: int)

  const EMPTY_ROW: Row := Row(0, 0, 0)

  /** The three CHECK constraints of `product_stocks`. */
  predicate Check(r: Row) {
    0 <= r.total && 0 <= r.reserved && r.reserved <= r.total
  }

  /** What a stored row satisfies: the constraints and the width of the columns. */
  predicate InBounds(r: Row) {
    Check(r) && r.total <= MAX_INT64
  }

  /** Available quantity as an exact integer. */
  function Available(r: Row): int {
    r.total - r.reserved
  }

  // What the Go code computes, wrap-around and clamps included.

  function GoAvailable(r: Row): int {
    Wrap(r.total - r.reserved)
  }

  function GoReserve(r: Row, q: int): Row {
    r.(reserved := Wrap(r.reserved + q))
  }

  function Clamp(x: int): int {
    if x < 0 then 0 else x
  }

  function GoDeduct(r: Row, q: int): Row {
    r.(total := Clamp(Wrap(r.total - q)), reserved := Clamp(Wrap(r.reserved - q)))
  }

  function GoRelease(r: Row, q: int): Row {
    r.(reserved := Clamp(Wrap(r.reserved - q)))
  }

  /** `TotalQuantity += qty`, as receipts and transfer destinations do it. */
  function GoAddTotal(r: Row, q: int): Row {
    r.(total := Wrap(r.total + q))
  }

  /** `TotalQuantity -= qty` with the clamp that follows it in a transfer. */
  function GoTakeTotal(r: Row, q: int): Row {
    r.(total := Clamp(Wrap(r.total - q)))
  }

  /** A receipt or a transfer-in that passes the CHECKs has added exactly; the CHECKs refuse
      precisely the sums an `int64` cannot hold. */
  lemma AddTotalIsExactOrRefused(r: Row, q: int)
    requires InBounds(r) && IsQuantity(q)
    ensures Check(GoAddTotal(r, q)) <==> r.total + q <= MAX_INT64
    ensures Check(GoAddTotal(r, q)) ==> GoAddTotal(r, q) == r.(total := r.total + q) && InBounds(GoAddTotal(r, q))
  {
    if MAX_INT64 < r.total + q {
      assert Wrap(r.total + q - TWO_TO_THE_64) == r.total + q - TWO_TO_THE_64 < 0;
    }
  }

  /** Nor can a reservation that is not available pass the CHECKs by wrapping. */
  lemma ReserveIsExactOrRefused(r: Row, q: int)
    ensures InBounds(r) && IsQuantity(q) ==> (Check(GoReserve(r, q)) <==> q <= Available(r))
    ensures InBounds(r) && IsQuantity(q) && q <= Available(r) ==> GoReserve(r, q) == r.(reserved := r.reserved + q)
  {
    if InBounds(r) && IsQuantity(q) && MAX_INT64 < r.reserved + q {
      assert Wrap(r.reserved + q - TWO_TO_THE_64) == r.reserved + q - TWO_TO_THE_64 < 0;
    }
  }

  /** On a stored row, `AvailableQuantity` never wraps. */
  lemma AvailableIsExact(r: Row)
    requires InBounds(r)
    ensures GoAvailable(r) == Available(r)
    ensures 0 <= Available(r) <= r.total
  {
  }

  /** Whatever the quantities, a stored row that passes the guards of reserve and transfer, or
      that is released from or deducted from, proposes a row the CHECKs accept. */
  lemma ProposalsPassChecks(r: Row, q: int)
    requires InBounds(r) && IsQuantity(q)
    ensures q <= GoAvailable(r) ==> InBounds(GoReserve(r, q)) && InBounds(GoTakeTotal(r, q))
    ensures q <= GoAvailable(r) ==> GoReserve(r, q).reserved == r.reserved + q && GoTakeTotal(r, q).total == r.total - q
    ensures InBounds(GoRelease(r, q)) && InBounds(GoDeduct(r, q))
    ensures Available(GoDeduct(r, q)) <= Available(r) <= Available(GoRelease(r, q))
  {
  }

  /** The clamps of `Release` and `Deduct` leave the exact difference alone exactly when the
      reserved counter covers the quantity. */
  lemma ClampIsIdleExactlyWhenCovered(r: Row, q: int)
    requires InBounds(r) && IsQuantity(q)
    ensures q <= r.reserved <==> GoRelease(r, q) == r.(reserved := r.reserved - q)
    ensures q <= r.reserved <==> GoDeduct(r, q) == r.(total := r.total - q, reserved := r.reserved - q)
    ensures q <= r.reserved ==> Available(GoDeduct(r, q)) == Available(r)
  {
  }

  /** The entity the use cases load, mutate and write back. */
  class ProductStock {
    var total: int
    var reserved: int
    var safety: int

    constructor (r: Row)
      ensures AsRow() == r
    {
      total, reserved, safety := r.total, r.reserved, r.safety;
    }

    function AsRow(): Row
      reads this
    {
      Row(total, reserved, safety)
    }

    /** Exact, and never negative, on a stored row. */
    function AvailableQuantity(): (a: int)
      reads this
      ensures a == GoAvailable(AsRow())
      ensures InBounds(AsRow()) ==> a == Available(AsRow()) && 0 <= a <= total
    {
      Wrap(total - reserved)
    }

    /** On a stored row the CHECKs accept the result exactly when the quantity is available, and it
        is then exact; the check that precedes the call is the one that counts. */
    method Reserve(qty: int)
      modifies this
      ensures AsRow() == GoReserve(old(AsRow()), qty)
      ensures InBounds(old(AsRow())) && IsQuantity(qty) ==> (Check(AsRow()) <==> qty <= old(Available(AsRow())))
      ensures InBounds(old(AsRow())) && IsQuantity(qty) && Check(AsRow()) ==>
                InBounds(AsRow()) && AsRow() == old(AsRow()).(reserved := old(reserved) + qty)
    {
      ReserveIsExactOrRefused(AsRow(), qty);
      reserved := Wrap(reserved + qty);
    }

    /** A stored row stays one.  Both counters drop by the quantity, or to zero if they do not cover
        it, and what is available is unchanged exactly when the reserved counter covers the quantity
        or nothing was available. */
    method Deduct(qty: int)
      modifies this
      ensures AsRow() == GoDeduct(old(AsRow()), qty)
      ensures InBounds(old(AsRow())) && IsQuantity(qty) ==>
                && InBounds(AsRow())
                && total == Clamp(old(total) - qty) && reserved == Clamp(old(reserved) - qty)
                && (Available(AsRow()) == old(Available(AsRow())) <==> qty <= old(reserved) || old(Available(AsRow())) == 0)
    {
      total := Wrap(total - qty);
      reserved := Wrap(reserved - qty);
      if total < 0 {
        total := 0;
      }
      if reserved < 0 {
        reserved := 0;
      }
    }

    /** A stored row stays one, and what is available grows by the quantity or by all that was reserved. */
    method Release(qty: int)
      modifies this
      ensures AsRow() == GoRelease(old(AsRow()), qty)
      ensures InBounds(old(AsRow())) && IsQuantity(qty) ==>
                && InBounds(AsRow()) && reserved == Clamp(old(reserved) - qty)
                && Available(AsRow()) == old(Available(AsRow())) + if qty <= old(reserved) then qty else old(reserved)
    {
      reserved := Wrap(reserved - qty);
      if reserved < 0 {
        reserved := 0;
      }
    }

    /** `TotalQuantity += qty`, inline in receipts and transfers: the CHECKs accept the result exactly
        when an `int64` holds the sum, and it is then exact. */
    method Add(qty: int)
      modifies this
      ensures AsRow() == GoAddTotal(old(AsRow()), qty)
      ensures InBounds(old(AsRow())) && IsQuantity(qty) ==> (Check(AsRow()) <==> old(total) + qty <= MAX_INT64)
      ensures InBounds(old(AsRow())) && IsQuantity(qty) && Check(AsRow()) ==>
                InBounds(AsRow()) && AsRow() == old(AsRow()).(total := old(total) + qty)
    {
      if InBounds(AsRow()) && IsQuantity(qty) {
        AddTotalIsExactOrRefused(AsRow(), qty);
      }
      total := Wrap(total + qty);
    }

    /** `TotalQuantity -= qty` and a clamp, inline in transfers: the CHECKs accept the result exactly
        when the quantity is available or nothing is reserved, so they cannot replace the guard. */
    method Take(qty: int)
      modifies this
      ensures AsRow() == GoTakeTotal(old(AsRow()), qty)
      ensures InBounds(old(AsRow())) && IsQuantity(qty) ==>
                && total == Clamp(old(total) - qty)
                && (Check(AsRow()) <==> qty <= old(Available(AsRow())) || old(reserved) == 0)
    {
      total := Wrap(total - qty);
      if total < 0 {
        total := 0;
      }
    }
  }
}
