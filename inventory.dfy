/**
 * The cash arithmetic of the terminal (src/ATM.cpp): a cash map from denomination to bill count,
 * its total value, the greedy largest-first allocation of getCashBreakdown and the greedy
 * removal of updateCashInventory. The ATM class keeps its inventory in a `Cash` map and its
 * methods are proved against the functions below.
 */
module Inventory {

  import opened Constants

  /** Denomination -> bill count: the terminal's inventory, a breakdown, or the bills a customer inserts. */
  type Cash = map<int, nat>

  /** The count for d; a missing key holds no bills. */
  function Count(m: Cash, d: int): nat
  {
    if d in m then m[d] else 0
  }

  /** Every key is a valid denomination: what the console's bill prompt produces. */
  predicate IsCashInput(m: Cash)
  {
    forall d :: d in m ==> d in DENOMINATION_SET
  }

  /**
   * All four denominations are keys. The initializer seeds all four and getCashBreakdown reads
   * them with at(), so this is the invariant of the terminal's inventory.
   */
  predicate IsInventory(m: Cash)
  {
    m.Keys == DENOMINATION_SET
  }

  /** Sum of denomination x count over the denominations ds. */
  function ValueOver(m: Cash, ds: seq<int>): int
  {
    if ds == [] then 0 else ds[0] * Count(m, ds[0]) + ValueOver(m, ds[1..])
  }

  /** The total value of a cash map (over the valid denominations, which are all its keys for cash inputs and inventories). */
  function Value(m: Cash): int
  {
    ValueOver(m, DENOMINATIONS)
  }

  lemma ValueClosedForm(m: Cash)
    ensures Value(m) == 1000 * Count(m, 1000) + 5000 * Count(m, 5000) + 10000 * Count(m, 10000) + 50000 * Count(m, 50000)
    ensures Value(m) >= 0
  {
    var s4 := [50000];
    assert s4[1..] == [];
    assert ValueOver(m, s4) == 50000 * Count(m, 50000);
    var s3 := [10000, 50000];
    assert s3[1..] == s4;
    assert ValueOver(m, s3) == 10000 * Count(m, 10000) + ValueOver(m, s4);
    var s2 := [5000, 10000, 50000];
    assert s2[1..] == s3;
    assert ValueOver(m, s2) == 5000 * Count(m, 5000) + ValueOver(m, s3);
    assert DENOMINATIONS[1..] == s2;
  }

  /** Changing the count of one denomination changes the value by exactly that many bills of it. */
  lemma ValueUpdate(m: Cash, d: int, k: nat)
    requires d in DENOMINATION_SET
    ensures Value(m[d := k]) == Value(m) - d * Count(m, d) + d * k
  {
    ValueClosedForm(m);
    ValueClosedForm(m[d := k]);
  }

  /** The summing loop over a cash map (hasSufficientCash, and the tender and deposit totals of the console). */
  method Total(cash: Cash) returns (total: int)
    requires IsCashInput(cash)
    ensures total == Value(cash)
  {
    total := 0;
    for i := 0 to |DENOMINATIONS|
      invariant total + ValueOver(cash, DENOMINATIONS[i..]) == Value(cash)
    {
      var d := DENOMINATIONS[i];
      assert DENOMINATIONS[i..][1..] == DENOMINATIONS[i + 1..];
      if d in cash {
        total := total + d * cash[d];
      }
    }
  }

  /** The number of bills of the denominations ds. */
  function BillsOver(m: Cash, ds: seq<int>): nat
  {
    if ds == [] then 0 else Count(m, ds[0]) + BillsOver(m, ds[1..])
  }

  /** The number of bills in a cash map (over the valid denominations). */
  function BillCount(m: Cash): nat
  {
    BillsOver(m, DENOMINATIONS)
  }

  /** The bill-counting loop of processCashDeposit. */
  method TotalBills(cash: Cash) returns (total: int)
    requires IsCashInput(cash)
    ensures total == BillCount(cash)
    ensures total >= 0
  {
    total := 0;
    for i := 0 to |DENOMINATIONS|
      invariant total + BillsOver(cash, DENOMINATIONS[i..]) == BillCount(cash)
    {
      var d := DENOMINATIONS[i];
      assert DENOMINATIONS[i..][1..] == DENOMINATIONS[i + 1..];
      if d in cash {
        total := total + cash[d];
      }
    }
  }

  /** Two cash maps with the same keys and the same counts are equal. */
  lemma CashExtensionality(a: Cash, b: Cash)
    requires a.Keys == b.Keys
    requires forall d :: Count(a, d) == Count(b, d)
    ensures a == b
  {
    forall d | d in a
      ensures a[d] == b[d]
    {
      assert Count(a, d) == Count(b, d);
    }
  }

  // ---------------------------------------------------------------- adding bills

  /** Pointwise sum: the inventory after addCash(cash). */
  function AddCounts(inv: Cash, cash: Cash): (r: Cash)
    ensures r.Keys == inv.Keys + cash.Keys
    ensures forall d :: Count(r, d) == Count(inv, d) + Count(cash, d)
  {
    map d | d in inv.Keys + cash.Keys :: Count(inv, d) + Count(cash, d)
  }

  /** Adding bills adds their value, keeps all four keys and never lowers a count. */
  lemma AddCountsValue(inv: Cash, cash: Cash)
    ensures Value(AddCounts(inv, cash)) == Value(inv) + Value(cash)
    ensures IsInventory(inv) && IsCashInput(cash) ==> IsInventory(AddCounts(inv, cash))
    ensures forall d :: Count(AddCounts(inv, cash), d) >= Count(inv, d)
  {
    ValueClosedForm(inv);
    ValueClosedForm(cash);
    ValueClosedForm(AddCounts(inv, cash));
  }

  /** The addCash loop over the denominations ds, in order: each bill count of the input is added to the inventory's. */
  function AddOver(inv: Cash, cash: Cash, ds: seq<int>): Cash
    decreases |ds|
  {
    if ds == [] then inv
    else
      var d := ds[0];
      AddOver(if d in cash then inv[d := Count(inv, d) + cash[d]] else inv, cash, ds[1..])
  }

  lemma {:induction false} AddOverCounts(inv: Cash, cash: Cash, ds: seq<int>)
    requires forall i, j :: 0 <= i < j < |ds| ==> ds[i] != ds[j]
    decreases |ds|
    ensures forall d :: d in AddOver(inv, cash, ds) <==> d in inv || (d in ds && d in cash)
    ensures forall d :: Count(AddOver(inv, cash, ds), d) == Count(inv, d) + (if d in ds then Count(cash, d) else 0)
  {
    if ds != [] {
      var d := ds[0];
      var inv' := if d in cash then inv[d := Count(inv, d) + cash[d]] else inv;
      AddOverCounts(inv', cash, ds[1..]);
      assert forall k :: 0 <= k < |ds[1..]| ==> ds[1..][k] == ds[k + 1] != d;
    }
  }

  /** Walking a list of distinct denominations that covers every key of the input adds exactly the input's bills. */
  lemma AddOverCoveringIsAddCounts(inv: Cash, cash: Cash, ds: seq<int>)
    requires forall i, j :: 0 <= i < j < |ds| ==> ds[i] != ds[j]
    requires forall d :: d in cash ==> d in ds
    ensures AddOver(inv, cash, ds) == AddCounts(inv, cash)
  {
    AddOverCounts(inv, cash, ds);
    var a, b := AddOver(inv, cash, ds), AddCounts(inv, cash);
    assert forall d :: d in a.Keys <==> d in b.Keys;
    assert a.Keys == b.Keys;
    CashExtensionality(a, b);
  }

  /** Walking the valid denominations adds exactly the input's bills. */
  lemma AddOverIsAddCounts(inv: Cash, cash: Cash)
    requires IsCashInput(cash)
    ensures AddOver(inv, cash, DENOMINATIONS) == AddCounts(inv, cash)
  {
    assert forall d :: d in cash ==> d in DENOMINATIONS;
    AddOverCoveringIsAddCounts(inv, cash, DENOMINATIONS);
  }

  // ---------------------------------------------------------------- greedy allocation

  function Min(a: int, b: int): (r: int)
    ensures r <= a && r <= b && (r == a || r == b)
  {
    if a <= b then a else b
  }

  /** The state of getCashBreakdown's loop: the amount still to cover and the bills chosen so far. */
  datatype Allocation = Allocation(remaining: int, bills: Cash)

  /** One iteration of getCashBreakdown's loop, for denomination d. */
  function AllocateStep(inv: Cash, d: int, a: Allocation): Allocation
    requires d > 0
  {
    if a.remaining >= d then
      var use := Min(a.remaining / d, Count(inv, d));
      if use > 0 then Allocation(a.remaining - d * use, a.bills[d := use]) else a
    else a
  }

  predicate AllPositive(ds: seq<int>)
  {
    forall i :: 0 <= i < |ds| ==> ds[i] > 0
  }

  /** The loop of getCashBreakdown over the denominations ds, in order. */
  function AllocateOver(inv: Cash, ds: seq<int>, a: Allocation): Allocation
    requires AllPositive(ds)
  {
    if ds == [] then a else AllocateOver(inv, ds[1..], AllocateStep(inv, ds[0], a))
  }

  function GreedyAllocation(inv: Cash, amount: int): Allocation
  {
    AllocateOver(inv, GREEDY_ORDER, Allocation(amount, map[]))
  }

  /** getCashBreakdown: the greedy largest-first bills, or the empty map when they cannot cover the amount. */
  function Breakdown(inv: Cash, amount: int): Cash
  {
    var a := GreedyAllocation(inv, amount);
    if a.remaining > 0 then map[] else a.bills
  }

  /** Distinct valid denominations, none of them already allocated. */
  predicate Fresh(ds: seq<int>, bills: Cash)
  {
    && (forall i :: 0 <= i < |ds| ==> ds[i] in DENOMINATION_SET && ds[i] !in bills)
    && (forall i, j :: 0 <= i < j < |ds| ==> ds[i] != ds[j])
  }

  lemma MulMono(d: int, x: int, y: int)
    requires d >= 0 && x <= y
    ensures d * x <= d * y
  {
  }

  /** What one allocation step keeps: value, non-negative remainder, bills bounded by the stock. */
  lemma AllocateStepKeeps(inv: Cash, d: int, a: Allocation)
    requires d in DENOMINATION_SET && d !in a.bills
    ensures var b := AllocateStep(inv, d, a);
      && b.remaining + Value(b.bills) == a.remaining + Value(a.bills)
      && (a.remaining >= 0 ==> b.remaining >= 0)
      && b.bills.Keys <= a.bills.Keys + {d}
      && (forall x :: x in a.bills ==> x in b.bills && b.bills[x] == a.bills[x])
      && (d in b.bills ==> 0 < b.bills[d] <= Count(inv, d))
      && (a.remaining < 0 ==> b == a)
  {
    if a.remaining >= d {
      var q := a.remaining / d;
      var use := Min(q, Count(inv, d));
      if use > 0 {
        ValueUpdate(a.bills, d, use);
        MulMono(d, use, q);
        assert d * q <= a.remaining;
      }
    }
  }

  lemma {:induction false} AllocateOverKeeps(inv: Cash, ds: seq<int>, a: Allocation)
    requires Fresh(ds, a.bills)
    ensures AllPositive(ds)
    ensures var b := AllocateOver(inv, ds, a);
      && b.remaining + Value(b.bills) == a.remaining + Value(a.bills)
      && (a.remaining >= 0 ==> b.remaining >= 0)
      && (forall x :: x in b.bills ==> x in a.bills || x in ds)
      && (forall x :: x in a.bills ==> x in b.bills && b.bills[x] == a.bills[x])
      && (forall x :: x in b.bills && x !in a.bills ==> 0 < b.bills[x] <= Count(inv, x))
      && (a.remaining < 0 ==> b == a)
  {
    if ds != [] {
      var a' := AllocateStep(inv, ds[0], a);
      AllocateStepKeeps(inv, ds[0], a);
      assert Fresh(ds[1..], a'.bills) by {
        forall i | 0 <= i < |ds[1..]|
          ensures ds[1..][i] !in a'.bills
        {
          assert ds[1..][i] == ds[i + 1] != ds[0];
        }
      }
      AllocateOverKeeps(inv, ds[1..], a');
    }
  }

  lemma GreedyOrderFresh()
    ensures Fresh(GREEDY_ORDER, map[])
  {
  }

  /** A cash input holds bills of some valid denomination exactly when it is not empty. */
  lemma NonEmptyCash(m: Cash)
    requires IsCashInput(m)
    ensures m != map[] <==> (1000 in m || 5000 in m || 10000 in m || 50000 in m)
  {
    if !(1000 in m || 5000 in m || 10000 in m || 50000 in m) {
      assert forall y :: y !in m.Keys;
      assert m.Keys == {};
    }
  }

  /**
   * The breakdown is either empty or covers the amount exactly; it uses only valid denominations
   * and never more bills of one than the inventory holds; a non-positive amount has no breakdown.
   */
  lemma BreakdownSound(inv: Cash, amount: int)
    ensures var r := Breakdown(inv, amount);
      && (r != map[] ==> Value(r) == amount && amount > 0)
      && (forall d :: d in r ==> d in DENOMINATION_SET && 0 < r[d] <= Count(inv, d))
      && (amount <= 0 ==> r == map[])
  {
    GreedyOrderFresh();
    AllocateOverKeeps(inv, GREEDY_ORDER, Allocation(amount, map[]));
    ValueClosedForm(map[]);
    var r := Breakdown(inv, amount);
    assert IsCashInput(r);
    NonEmptyCash(r);
    ValueClosedForm(r);
  }

  /** A breakdown exists only when the inventory's total value covers the amount. */
  lemma BreakdownNeedsSufficientCash(inv: Cash, amount: int)
    requires Breakdown(inv, amount) != map[]
    ensures Value(inv) >= amount
  {
    var r := Breakdown(inv, amount);
    BreakdownSound(inv, amount);
    ValueClosedForm(r);
    ValueClosedForm(inv);
    assert forall d :: d in DENOMINATION_SET ==> Count(r, d) <= Count(inv, d);
  }

  /** Enough total value does not imply a breakdown: only 50000 bills cannot pay out 30000. */
  lemma SufficientButInfeasible()
    ensures var inv := map[1000 := 0, 5000 := 0, 10000 := 0, 50000 := 1];
      Value(inv) >= 30000 && Breakdown(inv, 30000) == map[]
  {
    var inv: Cash := map[1000 := 0, 5000 := 0, 10000 := 0, 50000 := 1];
    ValueClosedForm(inv);
    var a0 := Allocation(30000, map[]);
    assert AllocateStep(inv, 50000, a0) == a0;
    assert AllocateStep(inv, 10000, a0) == a0;
    assert AllocateStep(inv, 5000, a0) == a0;
    assert AllocateStep(inv, 1000, a0) == a0;
    assert GREEDY_ORDER[1..] == [10000, 5000, 1000];
    assert GREEDY_ORDER[1..][1..] == [5000, 1000];
    assert GREEDY_ORDER[1..][1..][1..] == [1000];
    assert GREEDY_ORDER[1..][1..][1..][1..] == [];
  }

  /** With ten bills of each denomination, 30000 is paid out as three 10000 bills. */
  lemma ThirtyThousandFromFullInventory()
    ensures Breakdown(map[1000 := 10, 5000 := 10, 10000 := 10, 50000 := 10], 30000) == map[10000 := 3]
  {
    var inv: Cash := map[1000 := 10, 5000 := 10, 10000 := 10, 50000 := 10];
    var a0 := Allocation(30000, map[]);
    var a1 := Allocation(0, map[10000 := 3]);
    assert AllocateStep(inv, 50000, a0) == a0;
    assert AllocateStep(inv, 10000, a0) == a1;
    assert AllocateStep(inv, 5000, a1) == a1;
    assert AllocateStep(inv, 1000, a1) == a1;
    assert GREEDY_ORDER[1..] == [10000, 5000, 1000];
    assert GREEDY_ORDER[1..][1..] == [5000, 1000];
    assert GREEDY_ORDER[1..][1..][1..] == [1000];
    assert GREEDY_ORDER[1..][1..][1..][1..] == [];
  }

  // ---------------------------------------------------------------- removing bills

  /** The bills can be taken out of the inventory. */
  predicate Covers(inv: Cash, bills: Cash)
  {
    forall d :: d in bills ==> Count(bills, d) <= Count(inv, d)
  }

  /** The inventory with the bills taken out, all keys kept. */
  function Subtract(inv: Cash, bills: Cash): (r: Cash)
    requires Covers(inv, bills)
    ensures r.Keys == inv.Keys
    ensures forall d :: Count(r, d) == Count(inv, d) - Count(bills, d)
  {
    map d | d in inv :: inv[d] - Count(bills, d)
  }

  /** One iteration of the removal loop in updateCashInventory: the inventory and the amount still to remove. */
  function DispenseStep(inv: Cash, d: int, remaining: int): (Cash, int)
    requires d > 0
  {
    if remaining >= d && Count(inv, d) > 0 then
      var n := Min(remaining / d, Count(inv, d));
      (inv[d := Count(inv, d) - n], remaining - n * d)
    else (inv, remaining)
  }

  function DispenseOver(inv: Cash, ds: seq<int>, remaining: int): Cash
    requires AllPositive(ds)
  {
    if ds == [] then inv
    else
      var (inv', remaining') := DispenseStep(inv, ds[0], remaining);
      DispenseOver(inv', ds[1..], remaining')
  }

  /** updateCashInventory(-amount): greedy removal of amount, largest denomination first. */
  function Dispense(inv: Cash, amount: int): Cash
  {
    DispenseOver(inv, GREEDY_ORDER, amount)
  }

  /** One removal step takes out exactly the bills the matching allocation step adds. */
  lemma DispenseStepTracks(inv: Cash, cur: Cash, d: int, a: Allocation)
    requires d in DENOMINATION_SET && d !in a.bills
    requires Covers(inv, a.bills) && cur == Subtract(inv, a.bills)
    ensures var a' := AllocateStep(inv, d, a);
      Covers(inv, a'.bills) &&
      DispenseStep(cur, d, a.remaining) == (Subtract(inv, a'.bills), a'.remaining)
  {
    AllocateStepKeeps(inv, d, a);
    var a' := AllocateStep(inv, d, a);
    assert Count(cur, d) == Count(inv, d);
    if a.remaining >= d && Count(inv, d) > 0 {
      assert d in cur;
      assert a'.bills == a.bills[d := Min(a.remaining / d, Count(inv, d))];
      CashExtensionality(DispenseStep(cur, d, a.remaining).0, Subtract(inv, a'.bills));
    }
  }

  /** The removal loop walks in step with the allocation loop and takes out exactly the bills it allocates. */
  lemma {:induction false} DispenseTracksAllocation(inv: Cash, cur: Cash, ds: seq<int>, a: Allocation)
    requires Fresh(ds, a.bills) && Covers(inv, a.bills) && cur == Subtract(inv, a.bills)
    ensures AllPositive(ds)
    ensures Covers(inv, AllocateOver(inv, ds, a).bills)
    ensures DispenseOver(cur, ds, a.remaining) == Subtract(inv, AllocateOver(inv, ds, a).bills)
  {
    if ds != [] {
      var d := ds[0];
      var a' := AllocateStep(inv, d, a);
      DispenseStepTracks(inv, cur, d, a);
      AllocateStepKeeps(inv, d, a);
      assert Fresh(ds[1..], a'.bills) by {
        forall i | 0 <= i < |ds[1..]|
          ensures ds[1..][i] !in a'.bills
        {
          assert ds[1..][i] == ds[i + 1] != ds[0];
        }
      }
      DispenseTracksAllocation(inv, Subtract(inv, a'.bills), ds[1..], a');
    }
  }

  /**
   * updateCashInventory(-amount) takes out exactly the bills getCashBreakdown(amount) returned,
   * whenever that breakdown is not empty.
   */
  lemma DispenseRemovesBreakdown(inv: Cash, amount: int)
    requires Breakdown(inv, amount) != map[]
    ensures Covers(inv, Breakdown(inv, amount))
    ensures Dispense(inv, amount) == Subtract(inv, Breakdown(inv, amount))
  {
    GreedyOrderFresh();
    assert inv == Subtract(inv, map[]);
    DispenseTracksAllocation(inv, inv, GREEDY_ORDER, Allocation(amount, map[]));
  }

  /** Removal keeps every denomination key (and, by its type, never makes a count negative). */
  lemma {:induction false} DispenseOverKeepsKeys(inv: Cash, ds: seq<int>, remaining: int)
    requires AllPositive(ds)
    ensures DispenseOver(inv, ds, remaining).Keys == inv.Keys
  {
    if ds != [] {
      var (inv', remaining') := DispenseStep(inv, ds[0], remaining);
      DispenseOverKeepsKeys(inv', ds[1..], remaining');
    }
  }

  /** Removal never adds bills: every count after it is at most the count before. */
  lemma {:induction false} DispenseOverNeverAdds(inv: Cash, ds: seq<int>, remaining: int)
    requires AllPositive(ds)
    ensures forall d :: Count(DispenseOver(inv, ds, remaining), d) <= Count(inv, d)
  {
    if ds != [] {
      var (inv', remaining') := DispenseStep(inv, ds[0], remaining);
      DispenseOverNeverAdds(inv', ds[1..], remaining');
    }
  }
}
