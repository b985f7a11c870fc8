/** fees.py: the percentage and absolute fee definitions and the in-place
    annotation of basket lines with the fragments of an absolute fee. */
module Fees {
  import opened Wrappers
  import opened Results
  import opened Models
  import opened Baskets

  function Sum(s: seq<int>): (t: int) {
    if s == [] then 0 else Sum(s[..|s| - 1]) + s[|s| - 1]
  }

  lemma {:induction false} SumNonNegative(s: seq<int>)
    requires forall i :: 0 <= i < |s| ==> s[i] >= 0
    ensures Sum(s) >= 0
  {
    if s != [] {
      SumNonNegative(s[..|s| - 1]);
    }
  }

  /** A sum of positive counts is at least their number. */
  lemma {:induction false} SumAtLeastLength(s: seq<int>)
    requires forall i :: 0 <= i < |s| ==> s[i] >= 1
    ensures Sum(s) >= |s|
  {
    if s != [] {
      SumAtLeastLength(s[..|s| - 1]);
    }
  }

  lemma SumAppend(s: seq<int>, x: int)
    ensures Sum(s + [x]) == Sum(s) + x
  {
    assert (s + [x])[..|s|] == s;
  }

  // ---------------------------------------------------------------- specification

  /** The amount an absolute fee charges: the given amount, else the
      definition's (nullable) value, capped by `maxTotalFee` when one is
      given. Comparing a None amount with the cap raises. */
  function EffectiveAmount(value: Option<int>, feeAmount: Option<int>, maxTotalFee: Option<int>)
    : (a: Result<Option<int>>)
    ensures maxTotalFee.None? ==> a == Ok(if feeAmount.Some? then feeAmount else value)
    ensures a.Err? <==> maxTotalFee.Some? && feeAmount.None? && value.None?
    ensures a.Err? ==> a.error.TypeError?
    ensures var given := if feeAmount.Some? then feeAmount.value else value.GetOr(0);
      maxTotalFee.Some? && a.Ok? ==>
        && a.value.Some? && a.value.value <= maxTotalFee.value && a.value.value <= given
        && (a.value.value == given || a.value.value == maxTotalFee.value)
  {
    var amount := if feeAmount.Some? then feeAmount else value;
    if maxTotalFee.None? then Ok(amount)
    else if amount.None? then Err(TypeError("'<' not supported between instances of 'Decimal' and 'NoneType'"))
    else if maxTotalFee.value < amount.value then Ok(maxTotalFee)
    else Ok(amount)
  }

  /** `int(condition.value)`, the value being held in hundredths: the whole
      number of units, cut toward zero. */
  function NumPermitted(value: int): (n: int)
    ensures value >= 0 ==> 0 <= n && n * 100 <= value < n * 100 + 100
    ensures value < 0 ==> n <= 0 && n * 100 - 100 < value <= n * 100
  {
    TruncDivBounds(value, 100);
    TruncDiv(value, 100)
  }

  /** `isinstance(condition, conditions.CoverageCondition)` against Oscar's
      condition classes. The package's own `conditions` module, whose
      classes `Condition.proxy` builds, is not part of this model: its
      coverage class is taken to be Oscar's (or a subclass of it), and no
      other condition class is taken to be one. */
  predicate IsOscarCoverage(condition: Condition) {
    condition.cls.CoverageCondition?
  }

  /** What the fee computation relies on about a selection: distinct
      well-formed lines of the basket, none without undiscounted units. */
  predicate Admissible(lines: seq<LineInfo>, sel: seq<nat>) {
    && Selected(lines, sel)
    && (forall a, b :: 0 <= a < b < |sel| ==> sel[a] != sel[b])
  }

  /** Lines of the basket, well-formed and with undiscounted units, which
      is what the covering reads of them. */
  predicate Selected(lines: seq<LineInfo>, sel: seq<nat>) {
    && Indices(lines, sel)
    && (forall k :: 0 <= k < |sel| ==>
          (WellFormedLine(lines[sel[k]]) && lines[sel[k]].quantityWithoutDiscount != 0))
  }

  lemma ApplicableAdmissible(lines: seq<LineInfo>, range: Range)
    requires WellFormedLines(lines)
    ensures Admissible(lines, ApplicableLines(lines, range))
  {
    SortedOrder(lines, ApplicableLines(lines, range));
  }

  /** The number of units each selected line contributes: one per line for a
      coverage condition, else the line's whole quantity. */
  function AffectedQuantities(lines: seq<LineInfo>, sel: seq<nat>, coverage: bool): (qs: seq<int>)
    requires Selected(lines, sel)
    ensures |qs| == |sel|
    ensures forall k :: 0 <= k < |sel| ==> qs[k] >= 1
    ensures forall k :: 0 <= k < |sel| ==> qs[k] == if coverage then 1 else lines[sel[k]].quantity
  {
    var qs := seq(|sel|, k requires 0 <= k < |sel| => if coverage then 1 else lines[sel[k]].quantity);
    assert forall k :: 0 <= k < |sel| ==> qs[k] >= 1 by {
      forall k | 0 <= k < |sel| ensures qs[k] >= 1 {
        assert WellFormedLine(lines[sel[k]]);
      }
    }
    qs
  }

  function CoverFrom(qs: seq<int>, permitted: int, i: nat): (m: nat)
    requires 1 <= i <= |qs|
    requires forall j :: 1 <= j < i ==> Sum(qs[..j]) < permitted
    ensures i <= m <= |qs|
    ensures m == |qs| || Sum(qs[..m]) >= permitted
    ensures forall j :: 1 <= j < m ==> Sum(qs[..j]) < permitted
    decreases |qs| - i
  {
    if i == |qs| || Sum(qs[..i]) >= permitted then i else CoverFrom(qs, permitted, i + 1)
  }

  /** How many of the selected lines an absolute fee covers: up to and
      including the first line at which the running count of affected units
      reaches `permitted`, or all of them if it never does. */
  function CoveredCount(qs: seq<int>, permitted: int): (m: nat)
    requires |qs| > 0
    ensures 1 <= m <= |qs|
    ensures m == |qs| || Sum(qs[..m]) >= permitted
    ensures forall j :: 1 <= j < m ==> Sum(qs[..j]) < permitted
  {
    CoverFrom(qs, permitted, 1)
  }

  /** Covering stops at the first line whose running count reaches the
      permitted number, and nowhere else. */
  lemma CoveredCountUnique(qs: seq<int>, permitted: int, i: nat)
    requires 1 <= i <= |qs|
    requires i == |qs| || Sum(qs[..i]) >= permitted
    requires forall j :: 1 <= j < i ==> Sum(qs[..j]) < permitted
    ensures CoveredCount(qs, permitted) == i
  {
  }

  /** Covering goes on past a prefix that is empty or still below the
      permitted number. */
  lemma CoverNotYet(qs: seq<int>, permitted: int, i: nat)
    requires i < |qs|
    requires i <= CoveredCount(qs, permitted)
    requires i == 0 || Sum(qs[..i]) < permitted
    ensures i < CoveredCount(qs, permitted)
  {
  }

  /** Covering stops at the first prefix that reaches the permitted number,
      or at the end. */
  lemma CoverStopped(qs: seq<int>, permitted: int, i: nat)
    requires 1 <= i <= |qs|
    requires i <= CoveredCount(qs, permitted)
    requires i == |qs| || Sum(qs[..i]) >= permitted
    ensures CoveredCount(qs, permitted) == i
  {
  }

  /** The proportional share of each line, each rounded down to the cent. */
  function Rounded(amount: int, qs: seq<int>, total: int): (r: seq<int>)
    requires total > 0
    ensures |r| == |qs| && forall k :: 0 <= k < |qs| ==> r[k] == Round(amount * qs[k], total)
  {
    seq(|qs|, k requires 0 <= k < |qs| => Round(amount * qs[k], total))
  }

  /** The fragments of `amount` for covered lines with affected quantities
      `qs`: every line but the last gets its rounded share, the last line
      gets what remains. */
  function Fragments(amount: int, qs: seq<int>): (fs: seq<int>)
    requires |qs| > 0 && Sum(qs) > 0
    ensures |fs| == |qs|
  {
    var shares := Rounded(amount, qs[..|qs| - 1], Sum(qs));
    shares + [amount - Sum(shares)]
  }

  /** The fragments add up to the amount exactly: no cent is lost or made. */
  lemma FragmentsSumToAmount(amount: int, qs: seq<int>)
    requires |qs| > 0 && Sum(qs) > 0
    ensures Sum(Fragments(amount, qs)) == amount
  {
    var shares := Rounded(amount, qs[..|qs| - 1], Sum(qs));
    SumAppend(shares, amount - Sum(shares));
  }

  lemma FragmentsShape(amount: int, qs: seq<int>, k: nat)
    requires |qs| > 0 && Sum(qs) > 0 && k < |qs|
    ensures k < |qs| - 1 ==> Fragments(amount, qs)[k] == Round(amount * qs[k], Sum(qs))
    ensures k == |qs| - 1 ==> Fragments(amount, qs)[k] == amount - Sum(Fragments(amount, qs)[..k])
  {
    var shares := Rounded(amount, qs[..|qs| - 1], Sum(qs));
    assert Fragments(amount, qs)[..|qs| - 1] == shares;
  }

  lemma {:induction false} RoundedSumBound(amount: int, qs: seq<int>, total: int)
    requires amount >= 0 && total > 0
    requires forall k :: 0 <= k < |qs| ==> qs[k] >= 0
    ensures Sum(Rounded(amount, qs, total)) * total <= amount * Sum(qs)
  {
    if qs != [] {
      var n := |qs| - 1;
      var r := Rounded(amount, qs, total);
      assert r[..n] == Rounded(amount, qs[..n], total);
      RoundedSumBound(amount, qs[..n], total);
      RoundBounds(amount * qs[n], total);
      assert qs == qs[..n] + [qs[n]];
      SumAppend(qs[..n], qs[n]);
      assert r == r[..n] + [r[n]];
      SumAppend(r[..n], r[n]);
      StepBound(Sum(r[..n]), r[n], total, amount, Sum(qs[..n]), qs[n]);
    }
  }

  lemma StepBound(s: int, x: int, t: int, a: int, p: int, q: int)
    requires s * t <= a * p && x * t <= a * q
    ensures (s + x) * t <= a * (p + q)
  {
  }

  lemma MulCancel(s: int, a: int, t: int)
    requires t > 0 && s * t <= a * t
    ensures s <= a
  {
  }

  lemma MulMonotone(a: int, p: int, t: int)
    requires a >= 0 && p <= t
    ensures a * p <= a * t
  {
  }

  /** With a nonnegative amount every fragment is nonnegative, the remainder
      of the last line included, and none exceeds the amount. */
  lemma FragmentsNonNegative(amount: int, qs: seq<int>)
    requires amount >= 0 && |qs| > 0 && Sum(qs) > 0
    requires forall k :: 0 <= k < |qs| ==> qs[k] >= 0
    ensures forall k :: 0 <= k < |qs| ==> 0 <= Fragments(amount, qs)[k] <= amount
  {
    var n := |qs| - 1;
    var total := Sum(qs);
    var shares := Rounded(amount, qs[..n], total);
    var fs := Fragments(amount, qs);
    FragmentsUnfold(amount, qs);
    forall k | 0 <= k < n ensures shares[k] >= 0 {
      MulNonNegative(amount, qs[k]);
    }
    RoundedSumBound(amount, qs[..n], total);
    assert qs == qs[..n] + [qs[n]];
    SumAppend(qs[..n], qs[n]);
    MulMonotone(amount, Sum(qs[..n]), total);
    MulCancel(Sum(shares), amount, total);
    SumNonNegative(shares);
    forall k | 0 <= k < |qs| ensures 0 <= fs[k] <= amount {
      if k < n {
        SumElementBound(shares, k);
        assert fs[k] == shares[k];
      } else {
        assert fs[k] == amount - Sum(shares);
      }
    }
  }

  lemma FragmentsUnfold(amount: int, qs: seq<int>)
    requires |qs| > 0 && Sum(qs) > 0
    ensures Fragments(amount, qs) == Rounded(amount, qs[..|qs| - 1], Sum(qs))
      + [amount - Sum(Rounded(amount, qs[..|qs| - 1], Sum(qs)))]
  {
  }

  lemma MulNonNegative(a: int, b: int)
    requires a >= 0 && b >= 0
    ensures a * b >= 0
  {
  }

  lemma {:induction false} SumElementBound(s: seq<int>, k: nat)
    requires k < |s| && forall i :: 0 <= i < |s| ==> s[i] >= 0
    ensures s[k] <= Sum(s)
  {
    var n := |s| - 1;
    if k < n {
      assert s[..n][k] == s[k];
      SumElementBound(s[..n], k);
    } else {
      SumNonNegative(s[..n]);
    }
  }

  /** Per-line totals when `values[j]` goes to line `covered[j]`, for every
      `j` below `k`. */
  function DistributeUpTo(n: nat, covered: seq<nat>, values: seq<int>, k: nat): (r: seq<int>)
    requires k <= |covered| == |values| && forall j :: 0 <= j < |covered| ==> covered[j] < n
    ensures |r| == n
  {
    if k == 0 then Zeros(n)
    else
      var prev := DistributeUpTo(n, covered, values, k - 1);
      prev[covered[k - 1] := prev[covered[k - 1]] + values[k - 1]]
  }

  function Distribute(n: nat, covered: seq<nat>, values: seq<int>): (r: seq<int>)
    requires |covered| == |values| && forall j :: 0 <= j < |covered| ==> covered[j] < n
    ensures |r| == n
  {
    DistributeUpTo(n, covered, values, |covered|)
  }

  lemma {:induction false} DistributeUpToAt(n: nat, covered: seq<nat>, values: seq<int>, k: nat)
    requires k <= |covered| == |values| && forall j :: 0 <= j < |covered| ==> covered[j] < n
    requires forall a, b :: 0 <= a < b < |covered| ==> covered[a] != covered[b]
    ensures forall j :: 0 <= j < k ==> DistributeUpTo(n, covered, values, k)[covered[j]] == values[j]
    ensures forall i :: 0 <= i < n && (forall j :: 0 <= j < k ==> covered[j] != i) ==>
      DistributeUpTo(n, covered, values, k)[i] == 0
  {
    if k > 0 {
      DistributeUpToAt(n, covered, values, k - 1);
    }
  }

  /** Over distinct lines, each covered line receives exactly its value and an
      uncovered line nothing. */
  lemma DistributeAt(n: nat, covered: seq<nat>, values: seq<int>)
    requires |covered| == |values| && forall k :: 0 <= k < |covered| ==> covered[k] < n
    requires forall a, b :: 0 <= a < b < |covered| ==> covered[a] != covered[b]
    ensures forall k :: 0 <= k < |covered| ==> Distribute(n, covered, values)[covered[k]] == values[k]
    ensures forall i :: 0 <= i < n && i !in covered ==> Distribute(n, covered, values)[i] == 0
  {
    DistributeUpToAt(n, covered, values, |covered|);
  }

  /** `AbsoluteFee.apply` runs to its end and charges the basket: the
      amount is known and nonzero, the selection succeeds and is nonempty,
      and the condition has a value. */
  predicate Charges(lines: seq<LineInfo>, f: Fee, condition: Condition,
                    feeAmount: Option<int>, maxTotalFee: Option<int>)
  {
    var amount := EffectiveAmount(f.value, feeAmount, maxTotalFee);
    var sel := FeeApplicableLines(f, lines, condition.range);
    && amount.Ok? && amount.value.Some? && amount.value.value != 0
    && sel.Ok? && sel.value != [] && condition.value.Some?
  }

  /** What `AbsoluteFee.apply` returns. */
  function AbsoluteResult(lines: seq<LineInfo>, f: Fee, condition: Condition,
                          feeAmount: Option<int>, maxTotalFee: Option<int>): (r: Result<ApplicationResult>)
  {
    match EffectiveAmount(f.value, feeAmount, maxTotalFee)
    case Err(e) => Err(e)
    case Ok(amount) =>
      if amount == Some(0) then Ok(ZeroFee)
      else
        match FeeApplicableLines(f, lines, condition.range)
        case Err(e) => Err(e)
        case Ok(sel) =>
          if sel == [] then Ok(ZeroFee)
          else if condition.value.None? then Err(TypeError("int() argument must not be 'NoneType'"))
          else if amount.None? then Err(TypeError("unsupported operand type(s) for 'NoneType'"))
          else Ok(BasketFee(amount.value))
  }

  /** The selection `AbsoluteFee.apply` covers, when it charges. */
  lemma SelectionAdmissible(lines: seq<LineInfo>, f: Fee, range: Option<Range>)
    requires WellFormedLines(lines)
    ensures FeeApplicableLines(f, lines, range).Ok? ==> Admissible(lines, FeeApplicableLines(f, lines, range).value)
  {
    if range.Some? {
      ApplicableAdmissible(lines, range.value);
    } else if f.range.Some? {
      ApplicableAdmissible(lines, f.range.value);
    }
  }

  /** What `AbsoluteFee.apply` adds to the basket's annotations. */
  function AbsoluteEffect(lines: seq<LineInfo>, f: Fee, condition: Condition,
                          feeAmount: Option<int>, maxTotalFee: Option<int>): (e: Effect)
    requires WellFormedLines(lines)
    ensures Sized(e, |lines|)
  {
    if !Charges(lines, f, condition, feeAmount, maxTotalFee) then NoEffect(|lines|)
    else
      var amount := EffectiveAmount(f.value, feeAmount, maxTotalFee).value.value;
      var sel := FeeApplicableLines(f, lines, condition.range).value;
      SelectionAdmissible(lines, f, condition.range);
      var (covered, quantities) := CoverOf(lines, sel, condition);
      CoveringLines(lines, sel, condition);
      CoverEffect(|lines|, covered, quantities, amount, f)
  }

  /** It charges exactly when it returns a nonzero fee, and the fee is the
      amount; whenever it returns earlier or raises, nothing is annotated. */
  lemma AbsoluteCharges(lines: seq<LineInfo>, f: Fee, condition: Condition,
                        feeAmount: Option<int>, maxTotalFee: Option<int>)
    requires WellFormedLines(lines)
    ensures Charges(lines, f, condition, feeAmount, maxTotalFee) <==>
      var r := AbsoluteResult(lines, f, condition, feeAmount, maxTotalFee);
      r.Ok? && r.value.Amount() != 0
    ensures Charges(lines, f, condition, feeAmount, maxTotalFee) ==>
      AbsoluteResult(lines, f, condition, feeAmount, maxTotalFee)
      == Ok(BasketFee(EffectiveAmount(f.value, feeAmount, maxTotalFee).value.value))
    ensures !Charges(lines, f, condition, feeAmount, maxTotalFee) ==>
      AbsoluteEffect(lines, f, condition, feeAmount, maxTotalFee) == NoEffect(|lines|)
  {
  }

  /** The None columns that make `AbsoluteFee.apply` raise: a cap on an
      amount that is None, no range at all on a nonempty basket, and a
      condition or fee without a value once lines are selected. */
  lemma AbsoluteMissingValues(lines: seq<LineInfo>, f: Fee, condition: Condition,
                              feeAmount: Option<int>, maxTotalFee: Option<int>)
    ensures feeAmount.None? && f.value.None? && maxTotalFee.Some? ==>
      AbsoluteResult(lines, f, condition, feeAmount, maxTotalFee).Err?
    ensures var amount := EffectiveAmount(f.value, feeAmount, maxTotalFee);
      amount.Ok? && amount.value != Some(0) && condition.range.None? && f.range.None? && lines != [] ==>
        AbsoluteResult(lines, f, condition, feeAmount, maxTotalFee).Err?
        && AbsoluteResult(lines, f, condition, feeAmount, maxTotalFee).error.AttributeError?
    ensures var amount := EffectiveAmount(f.value, feeAmount, maxTotalFee);
      var sel := FeeApplicableLines(f, lines, condition.range);
      amount.Ok? && amount.value != Some(0) && sel.Ok? && sel.value != []
      && (condition.value.None? || amount.value.None?) ==>
        AbsoluteResult(lines, f, condition, feeAmount, maxTotalFee).Err?
        && AbsoluteResult(lines, f, condition, feeAmount, maxTotalFee).error.TypeError?
  {
  }

  /** When it charges, the effect is that of charging the amount on the
      covered lines, which are distinct lines of the basket with at least
      one unit each. */
  lemma AbsoluteEffectCovered(lines: seq<LineInfo>, f: Fee, condition: Condition,
                              feeAmount: Option<int>, maxTotalFee: Option<int>, amount: int, sel: seq<nat>)
    requires WellFormedLines(lines)
    requires Charges(lines, f, condition, feeAmount, maxTotalFee)
    requires EffectiveAmount(f.value, feeAmount, maxTotalFee) == Ok(Some(amount))
    requires FeeApplicableLines(f, lines, condition.range) == Ok(sel)
    ensures Admissible(lines, sel) && sel != [] && condition.value.Some?
    ensures var c := CoverOf(lines, sel, condition);
      && (forall a, b :: 0 <= a < b < |c.0| ==> c.0[a] != c.0[b])
      && AbsoluteEffect(lines, f, condition, feeAmount, maxTotalFee) == CoverEffect(|lines|, c.0, c.1, amount, f)
  {
    SelectionAdmissible(lines, f, condition.range);
    CoveringLines(lines, sel, condition);
  }

  /** The covering of a nonempty admissible selection by a condition with a
      value: the lines it covers, each with the units it contributes. */
  function CoverOf(lines: seq<LineInfo>, sel: seq<nat>, condition: Condition): (c: (seq<nat>, seq<int>))
    requires Selected(lines, sel) && sel != [] && condition.value.Some?
    ensures 0 < |c.0| == |c.1| <= |sel| && c.0 == sel[..|c.0|]
    ensures forall k :: 0 <= k < |c.0| ==> c.0[k] < |lines| && c.1[k] >= 1
  {
    CoverWith(lines, sel, IsOscarCoverage(condition), NumPermitted(condition.value.value))
  }

  /** The covering for a condition of class `coverage` that permits
      `numPermitted` units. */
  function CoverWith(lines: seq<LineInfo>, sel: seq<nat>, coverage: bool, numPermitted: int)
    : (c: (seq<nat>, seq<int>))
    requires Selected(lines, sel) && sel != []
    ensures 0 < |c.0| == |c.1| <= |sel| && c.0 == sel[..|c.0|]
    ensures forall k :: 0 <= k < |c.0| ==> c.0[k] < |lines| && c.1[k] >= 1
  {
    var qs := AffectedQuantities(lines, sel, coverage);
    var m := CoveredCount(qs, numPermitted);
    (sel[..m], qs[..m])
  }

  /** The covered lines are a nonempty prefix of the selected lines, cheapest
      first, ending at the line where the permitted number is reached. */
  lemma CoveringPrefix(lines: seq<LineInfo>, sel: seq<nat>, condition: Condition)
    requires Admissible(lines, sel) && sel != [] && condition.value.Some?
    ensures var c := CoverOf(lines, sel, condition);
      && 0 < |c.0| <= |sel| && c.0 == sel[..|c.0|]
      && c.1 == AffectedQuantities(lines, sel, IsOscarCoverage(condition))[..|c.0|]
  {
  }

  /** The covered lines are distinct lines of the basket, and each
      contributes at least one unit. */
  lemma CoveringLines(lines: seq<LineInfo>, sel: seq<nat>, condition: Condition)
    requires Admissible(lines, sel) && sel != [] && condition.value.Some?
    ensures var c := CoverOf(lines, sel, condition);
      && |c.0| > 0
      && (forall k :: 0 <= k < |c.0| ==> c.0[k] < |lines|)
      && (forall a, b :: 0 <= a < b < |c.0| ==> c.0[a] != c.0[b])
      && (forall k :: 0 <= k < |c.1| ==> c.1[k] >= 1)
  {
    CoveringPrefix(lines, sel, condition);
  }

  /** The effect of charging `amount` for fee `f` on the covered lines, line
      `covered[k]` taking `qs[k]` units. */
  function CoverEffect(n: nat, covered: seq<nat>, qs: seq<int>, amount: int, f: Fee): (e: Effect)
    requires |covered| == |qs| > 0
    requires forall k :: 0 <= k < |covered| ==> covered[k] < n
    requires forall k :: 0 <= k < |qs| ==> qs[k] >= 1
    ensures Sized(e, n)
  {
    SumAtLeastLength(qs);
    Effect(Distribute(n, covered, Fragments(amount, qs)), Distribute(n, covered, qs), amount, [f])
  }

  // ---------------------------------------------------------------- the code

  method ApplyFeeToLine(line: Line, lineFee: int, quantity: int)
    modifies line
    ensures line.feeAmount == old(line.feeAmount) + lineFee
    ensures line.feeQuantity == old(line.feeQuantity) + quantity
  {
    line.feeAmount := line.feeAmount + lineFee;
    line.feeQuantity := line.feeQuantity + quantity;
  }

  method ApplyFeeToBasket<R>(basket: Basket<R>, fee: Fee, feesAmount: int, quantity: int)
    modifies basket
    ensures basket.fees == old(basket.fees) + [fee]
    ensures basket.totalFeesAmount == old(basket.totalFeesAmount) + feesAmount
    ensures basket.totalTest == old(basket.totalTest)
    ensures basket.feeApplications == old(basket.feeApplications)
  {
    basket.fees := basket.fees + [fee];
    basket.totalFeesAmount := basket.totalFeesAmount + feesAmount;
  }

  /** `PercentageFee.apply`, which is not implemented. */
  function PercentageApply(lines: seq<LineInfo>, f: Fee, condition: Condition): (r: Result<ApplicationResult>)
    ensures r.Err? && r.error.NotImplemented?
  {
    Err(NotImplemented("PercentageFee.apply"))
  }

  /** One more covered line extends both prefixes and the running count. */
  lemma CoverStep(sel: seq<nat>, qs: seq<int>, i: nat)
    requires i < |sel| == |qs|
    ensures sel[..i + 1] == sel[..i] + [sel[i]]
    ensures qs[..i + 1] == qs[..i] + [qs[i]]
    ensures Sum(qs[..i + 1]) == Sum(qs[..i]) + qs[i]
  {
    assert qs[..i + 1] == qs[..i] + [qs[i]];
    SumAppend(qs[..i], qs[i]);
  }

  /** The covering loop of `AbsoluteFee.apply`: walks the selected lines
      cheapest first, adding up affected units, and stops after the line at
      which `numPermitted` is reached. `coverage` is the class test of the
      condition, which is the same on every iteration. */
  method CoverLines(lines: seq<LineInfo>, sel: seq<nat>, coverage: bool, numPermitted: int)
    returns (covered: seq<nat>, quantities: seq<int>, numAffected: int)
    requires Selected(lines, sel) && sel != []
    ensures (covered, quantities) == CoverWith(lines, sel, coverage, numPermitted)
    ensures numAffected == Sum(quantities) > 0
  {
    ghost var qs := AffectedQuantities(lines, sel, coverage);
    ghost var m := CoveredCount(qs, numPermitted);
    numAffected := 0;
    covered := [];
    quantities := [];
    var i := 0;
    while i < |sel|
      invariant 0 <= i <= m
      invariant covered == sel[..i] && quantities == qs[..i]
      invariant numAffected == Sum(quantities)
      invariant i == 0 || numAffected < numPermitted
    {
      var quantityAffected := if coverage then 1 else lines[sel[i]].quantity;
      assert quantityAffected == qs[i];
      CoverStep(sel, qs, i);
      CoverNotYet(qs, numPermitted, i);
      numAffected := numAffected + quantityAffected;
      covered := covered + [sel[i]];
      quantities := quantities + [quantityAffected];
      i := i + 1;
      if numAffected >= numPermitted {
        break;
      }
    }
    CoverStopped(qs, numPermitted, i);
    SumAtLeastLength(quantities);
  }

  /** `apply_fee_to_line` on the `j`-th line of a basket, read on the
      basket's annotations: only that line's change. */
  method ChargeLine<R>(basket: Basket<R>, j: nat, lineFee: int, quantity: int)
    requires basket.Valid() && j < |basket.lines|
    modifies basket.lines[j]
    ensures basket.Current() == AddToLine(old(basket.Current()), j, lineFee, quantity)
  {
    ghost var before := basket.Current();
    ApplyFeeToLine(basket.lines[j], lineFee, quantity);
    ghost var now := basket.Current();
    assert now.lineFees == before.lineFees[j := before.lineFees[j] + lineFee];
    assert now.lineQuantities == before.lineQuantities[j := before.lineQuantities[j] + quantity];
  }

  /** Distributing one more value adds it to the annotations of its line. */
  lemma DistributeStep(a: Annotations, n: nat, covered: seq<nat>, fragments: seq<int>, quantities: seq<int>,
                       k: nat)
    requires k < |covered| == |fragments| == |quantities|
    requires forall j :: 0 <= j < |covered| ==> covered[j] < n
    requires |a.lineFees| == n && |a.lineQuantities| == n
    ensures Annotate(a, Effect(DistributeUpTo(n, covered, fragments, k + 1),
                               DistributeUpTo(n, covered, quantities, k + 1), 0, []))
         == AddToLine(Annotate(a, Effect(DistributeUpTo(n, covered, fragments, k),
                                         DistributeUpTo(n, covered, quantities, k), 0, [])),
                      covered[k], fragments[k], quantities[k])
  {
    var f, q := DistributeUpTo(n, covered, fragments, k), DistributeUpTo(n, covered, quantities, k);
    var c := covered[k];
    assert Plus(a.lineFees, f[c := f[c] + fragments[k]])
        == Plus(a.lineFees, f)[c := Plus(a.lineFees, f)[c] + fragments[k]];
    assert Plus(a.lineQuantities, q[c := q[c] + quantities[k]])
        == Plus(a.lineQuantities, q)[c := Plus(a.lineQuantities, q)[c] + quantities[k]];
  }

  /** The fee the allocation loop computes for the `k`-th covered line is its
      fragment, and it extends the fee applied so far by that fragment. */
  lemma AllocationStep(amount: int, covered: seq<nat>, quantities: seq<int>, k: nat, feeApplied: int)
    requires k < |covered| == |quantities|
    requires forall a, b :: 0 <= a < b < |covered| ==> covered[a] != covered[b]
    requires forall j :: 0 <= j < |quantities| ==> quantities[j] >= 1
    requires Sum(quantities) > 0
    requires feeApplied == Sum(Fragments(amount, quantities)[..k])
    ensures (if covered[k] == covered[|covered| - 1] then amount - feeApplied
             else Round(amount * quantities[k], Sum(quantities))) == Fragments(amount, quantities)[k]
    ensures feeApplied + Fragments(amount, quantities)[k] == Sum(Fragments(amount, quantities)[..k + 1])
  {
    var fragments := Fragments(amount, quantities);
    FragmentsShape(amount, quantities, k);
    assert covered[k] == covered[|covered| - 1] <==> k == |covered| - 1;
    SumAppend(fragments[..k], fragments[k]);
    assert fragments[..k + 1] == fragments[..k] + [fragments[k]];
  }

  /** One iteration of the allocation loop: the `k`-th covered line gets
      its fragment, and the basket's annotations move on by that line. */
  method AllocateLine<R>(basket: Basket<R>, covered: seq<nat>, quantities: seq<int>, amount: int,
                         numAffected: int, lastLine: nat, k: nat, feeApplied: int, ghost start: Annotations)
    returns (lineFee: int)
    requires basket.Valid()
    requires k < |covered| == |quantities| && lastLine == covered[|covered| - 1]
    requires forall j :: 0 <= j < |covered| ==> covered[j] < |basket.lines|
    requires forall a, b :: 0 <= a < b < |covered| ==> covered[a] != covered[b]
    requires forall j :: 0 <= j < |quantities| ==> quantities[j] >= 1
    requires numAffected == Sum(quantities) > 0
    requires feeApplied == Sum(Fragments(amount, quantities)[..k])
    requires |start.lineFees| == |basket.lines| && |start.lineQuantities| == |basket.lines|
    requires basket.Current()
          == Annotate(start, Effect(DistributeUpTo(|basket.lines|, covered, Fragments(amount, quantities), k),
                                    DistributeUpTo(|basket.lines|, covered, quantities, k), 0, []))
    modifies basket.lines[covered[k]]
    ensures lineFee == Fragments(amount, quantities)[k]
    ensures feeApplied + lineFee == Sum(Fragments(amount, quantities)[..k + 1])
    ensures basket.Current()
         == Annotate(start, Effect(DistributeUpTo(|basket.lines|, covered, Fragments(amount, quantities), k + 1),
                                   DistributeUpTo(|basket.lines|, covered, quantities, k + 1), 0, []))
  {
    var quantity := quantities[k];
    if covered[k] == lastLine {
      // The last line takes the difference, so rounding loses nothing.
      lineFee := amount - feeApplied;
    } else {
      lineFee := Round(amount * quantity, numAffected);
    }
    AllocationStep(amount, covered, quantities, k, feeApplied);
    ChargeLine(basket, covered[k], lineFee, quantity);
    DistributeStep(start, |basket.lines|, covered, Fragments(amount, quantities), quantities, k);
  }

  /** The allocation loop of `AbsoluteFee.apply`: every covered line but the
      last gets its share of `amount` rounded down, the last line the rest. */
  method AllocateFee<R>(basket: Basket<R>, covered: seq<nat>, quantities: seq<int>,
                        amount: int, numAffected: int)
    requires basket.Valid()
    requires |covered| == |quantities| > 0
    requires forall k :: 0 <= k < |covered| ==> covered[k] < |basket.lines|
    requires forall a, b :: 0 <= a < b < |covered| ==> covered[a] != covered[b]
    requires forall k :: 0 <= k < |quantities| ==> quantities[k] >= 1
    requires numAffected == Sum(quantities) > 0
    modifies basket.LineSet()
    ensures basket.Annotated(Effect(Distribute(|basket.lines|, covered, Fragments(amount, quantities)),
                                    Distribute(|basket.lines|, covered, quantities), 0, []))
  {
    var n := |basket.lines|;
    SumAtLeastLength(quantities);
    ghost var fragments := Fragments(amount, quantities);
    ghost var start := basket.Current();
    AnnotateNothing(start, n);
    var feeApplied := 0;
    var lastLine := covered[|covered| - 1];
    var k := 0;
    while k < |covered|
      invariant 0 <= k <= |covered|
      invariant feeApplied == Sum(fragments[..k])
      invariant basket.Current() == Annotate(start, Effect(DistributeUpTo(n, covered, fragments, k),
                                                           DistributeUpTo(n, covered, quantities, k), 0, []))
    {
      var lineFee := AllocateLine(basket, covered, quantities, amount, numAffected, lastLine, k, feeApplied, start);
      feeApplied := feeApplied + lineFee;
      k := k + 1;
    }
    assert fragments[..k] == fragments;
    ghost var e := Effect(Distribute(n, covered, fragments), Distribute(n, covered, quantities), 0, []);
    basket.AnnotatedCurrent(e);
  }

  /** The tail of `AbsoluteFee.apply`: the covered lines receive their
      fragments and the basket the whole amount and the fee. */
  method ChargeCovered<R>(basket: Basket<R>, f: Fee, covered: seq<nat>, quantities: seq<int>,
                          amount: int, numAffected: int)
    requires basket.Valid()
    requires |covered| == |quantities| > 0
    requires forall k :: 0 <= k < |covered| ==> covered[k] < |basket.lines|
    requires forall a, b :: 0 <= a < b < |covered| ==> covered[a] != covered[b]
    requires forall k :: 0 <= k < |quantities| ==> quantities[k] >= 1
    requires numAffected == Sum(quantities) > 0
    modifies basket, basket.LineSet()
    ensures basket.Annotated(CoverEffect(|basket.lines|, covered, quantities, amount, f))
    ensures basket.totalTest == old(basket.totalTest)
    ensures basket.feeApplications == old(basket.feeApplications)
  {
    AllocateFee(basket, covered, quantities, amount, numAffected);
    ApplyFeeToBasket(basket, f, amount, 1);
  }

  /** `AbsoluteFee.apply`. Every exception it can raise comes before it
      writes to the basket. */
  method AbsoluteApply<R>(basket: Basket<R>, f: Fee, condition: Condition,
                          feeAmount: Option<int>, maxTotalFee: Option<int>)
    returns (result: Result<ApplicationResult>)
    requires basket.Valid()
    modifies basket, basket.LineSet()
    ensures result == AbsoluteResult(basket.Infos(), f, condition, feeAmount, maxTotalFee)
    ensures basket.Annotated(AbsoluteEffect(basket.Infos(), f, condition, feeAmount, maxTotalFee))
    ensures basket.totalTest == old(basket.totalTest)
    ensures basket.feeApplications == old(basket.feeApplications)
  {
    var infos := basket.Infos();
    AbsoluteCharges(infos, f, condition, feeAmount, maxTotalFee);
    var amount := if feeAmount.None? then f.value else feeAmount;
    if maxTotalFee.Some? {
      if amount.None? {
        NothingAnnotated(basket);
        return Err(TypeError("'<' not supported between instances of 'Decimal' and 'NoneType'"));
      }
      if maxTotalFee.value < amount.value {
        amount := maxTotalFee;
      }
    }
    if amount == Some(0) {
      NothingAnnotated(basket);
      return Ok(ZeroFee);
    }
    var lineTuples := FeeApplicableLines(f, infos, condition.range);
    if lineTuples.Err? {
      NothingAnnotated(basket);
      return Err(lineTuples.error);
    }
    if |lineTuples.value| == 0 {
      NothingAnnotated(basket);
      return Ok(ZeroFee);
    }
    if condition.value.None? {
      NothingAnnotated(basket);
      return Err(TypeError("int() argument must not be 'NoneType'"));
    }
    if amount.None? {
      // The covering loop writes nothing, and the first fragment computes
      // `None * quantity` or `None - fee_applied` before any line is charged.
      NothingAnnotated(basket);
      return Err(TypeError("unsupported operand type(s) for 'NoneType'"));
    }
    AbsoluteEffectCovered(infos, f, condition, feeAmount, maxTotalFee, amount.value, lineTuples.value);
    ApplyToSelection(basket, f, condition, amount.value, lineTuples.value);
    result := Ok(BasketFee(amount.value));
  }

  /** `AbsoluteFee.apply` once there is an amount to charge and a nonempty
      selection: determine the lines to consume, then charge them. */
  method ApplyToSelection<R>(basket: Basket<R>, f: Fee, condition: Condition, amount: int, lineTuples: seq<nat>)
    requires basket.Valid() && condition.value.Some?
    requires Admissible(basket.Infos(), lineTuples) && lineTuples != []
    modifies basket, basket.LineSet()
    ensures var c := CoverOf(basket.Infos(), lineTuples, condition);
      basket.Annotated(CoverEffect(|basket.lines|, c.0, c.1, amount, f))
    ensures basket.totalTest == old(basket.totalTest)
    ensures basket.feeApplications == old(basket.feeApplications)
  {
    var infos := basket.Infos();
    var numPermitted := NumPermitted(condition.value.value);
    var covered, quantities, numAffected := CoverLines(infos, lineTuples, IsOscarCoverage(condition), numPermitted);
    CoveringLines(infos, lineTuples, condition);
    ChargeCovered(basket, f, covered, quantities, amount, numAffected);
  }
}
