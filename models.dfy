/** The value parts of models.py: conditions and fee definitions with their
    proxy resolution, the base fee application, the rounding rule and the
    selection of basket lines a fee may land on. */
module Models {
  import opened Wrappers
  import opened Results

  type ProductId = nat
  type UserId = nat

  /** A product range; membership is Oscar's `Range.contains`, taken as given. */
  datatype Range = Range(contains: ProductId -> bool)

  /** What the engine reads of a basket line. Money is in cents. */
  datatype LineInfo = LineInfo(product: ProductId, quantity: nat, quantityWithoutDiscount: nat,
                               unitEffectivePrice: int)

  /** Oscar computes the undiscounted quantity as the quantity minus what
      offers consumed, so it never exceeds the quantity. */
  predicate WellFormedLine(l: LineInfo) {
    l.quantityWithoutDiscount <= l.quantity
  }

  predicate WellFormedLines(lines: seq<LineInfo>) {
    forall i :: 0 <= i < |lines| ==> WellFormedLine(lines[i])
  }

  /** Integer division rounding toward zero, as Decimal's ROUND_DOWN and
      Python's `int()` do. */
  function TruncDiv(a: int, b: int): (q: int)
    requires b > 0
    ensures a >= 0 ==> q >= 0
    ensures a < 0 ==> q <= 0
  {
    if a >= 0 then a / b else -((-a) / b)
  }

  /** TruncDiv is the quotient rounded toward zero. */
  lemma TruncDivBounds(a: int, b: int)
    requires b > 0
    ensures a >= 0 ==> TruncDiv(a, b) * b <= a < (TruncDiv(a, b) + 1) * b
    ensures a < 0 ==> (TruncDiv(a, b) - 1) * b < a <= TruncDiv(a, b) * b
  {
  }

  /** `Fee.round`: the exact amount numerator/denominator cents, quantized to
      a whole cent with ROUND_DOWN. */
  function Round(numerator: int, denominator: int): (r: int)
    requires denominator > 0
    ensures numerator >= 0 ==> r >= 0
    ensures numerator < 0 ==> r <= 0
  {
    TruncDiv(numerator, denominator)
  }

  /** The rounded amount is the exact one cut toward zero to a whole cent:
      it lies within one cent of the exact amount, never further from zero. */
  lemma RoundBounds(numerator: int, denominator: int)
    requires denominator > 0
    ensures numerator >= 0 ==>
      Round(numerator, denominator) * denominator <= numerator < (Round(numerator, denominator) + 1) * denominator
    ensures numerator < 0 ==>
      (Round(numerator, denominator) - 1) * denominator < numerator <= Round(numerator, denominator) * denominator
  {
    TruncDivBounds(numerator, denominator);
  }

  // ---------------------------------------------------------------- conditions

  const COUNT: string := "Count"
  const VALUE: string := "Value"
  const COVERAGE: string := "Coverage"

  /** The Python class of a condition object. */
  datatype ConditionClass =
    | BaseCondition
    | CountCondition
    | ValueCondition
    | CoverageCondition
    | CustomCondition(path: string)

  /** A condition. `range` and `value` are nullable columns; `value` is in
      hundredths (a two-place decimal). `isSatisfied` stands for the
      variant's `is_satisfied`, whose code lives in a module outside this
      repository. */
  datatype Condition = Condition(cls: ConditionClass, typeTag: string, range: Option<Range>,
                                 value: Option<int>, proxyClass: Option<string>,
                                 isSatisfied: seq<LineInfo> -> bool)

  predicate IsConditionVariant(c: ConditionClass) {
    c.CountCondition? || c.ValueCondition? || c.CoverageCondition?
  }

  /** `Condition.proxy`. */
  function ConditionProxy(c: Condition): (r: Result<Condition>)
    ensures r.Ok? ==> !r.value.cls.BaseCondition? && r.value == c.(cls := r.value.cls)
    ensures IsConditionVariant(c.cls) ==> r == Ok(c)
    ensures !IsConditionVariant(c.cls) && c.proxyClass.Some? && c.proxyClass.value != "" ==>
      r == Ok(c.(cls := CustomCondition(c.proxyClass.value)))
    ensures r.Err? <==>
      !IsConditionVariant(c.cls) && (c.proxyClass.None? || c.proxyClass.value == "")
      && c.typeTag !in {COUNT, VALUE, COVERAGE}
  {
    if IsConditionVariant(c.cls) then Ok(c)
    else if c.proxyClass.Some? && c.proxyClass.value != "" then
      var klass := CustomCondition(c.proxyClass.value);
      if c.cls == klass then Ok(c) else Ok(c.(cls := klass))
    else if c.typeTag == COUNT then Ok(c.(cls := CountCondition))
    else if c.typeTag == VALUE then Ok(c.(cls := ValueCondition))
    else if c.typeTag == COVERAGE then Ok(c.(cls := CoverageCondition))
    else Err(UnrecognisedType(c.typeTag))
  }

  lemma ConditionProxyIdempotent(c: Condition)
    requires ConditionProxy(c).Ok?
    ensures ConditionProxy(ConditionProxy(c).value) == ConditionProxy(c)
  {
  }

  lemma ConditionProxyByTag(c: Condition)
    requires c.cls == BaseCondition && (c.proxyClass.None? || c.proxyClass.value == "")
    ensures c.typeTag == COUNT ==> ConditionProxy(c) == Ok(c.(cls := CountCondition))
    ensures c.typeTag == VALUE ==> ConditionProxy(c) == Ok(c.(cls := ValueCondition))
    ensures c.typeTag == COVERAGE ==> ConditionProxy(c) == Ok(c.(cls := CoverageCondition))
  {
  }

  // ---------------------------------------------------------------- fees

  const PERCENTAGE: string := "Percentage"
  const FIXED: string := "Absolute"

  /** What a custom fee class's own `apply` returns; such classes are defined
      outside this repository. */
  type CustomApply = (seq<LineInfo>, Condition) -> ApplicationResult

  /** A custom class named by `proxy_class`, together with what loading it
      yields: its own `apply`, or None when it inherits `Fee.apply`. */
  datatype ProxyClass = ProxyClass(path: string, apply: Option<CustomApply>)

  /** The Python class of a fee object. */
  datatype FeeClass =
    | BaseFee
    | PercentageFee
    | AbsoluteFee
    | CustomFee(path: string)

  /** A fee definition; `value` (in cents) and `range` are nullable columns. */
  datatype Fee = Fee(cls: FeeClass, id: nat, typeTag: string, value: Option<int>, range: Option<Range>,
                     proxyClass: Option<ProxyClass>)

  predicate IsFeeVariant(c: FeeClass) {
    c.PercentageFee? || c.AbsoluteFee?
  }

  predicate HasProxyClass(f: Fee) {
    f.proxyClass.Some? && f.proxyClass.value.path != ""
  }

  /** `Fee.proxy`. */
  function FeeProxy(f: Fee): (r: Result<Fee>)
    ensures r.Ok? ==> !r.value.cls.BaseFee? && r.value == f.(cls := r.value.cls)
    ensures r.Ok? && r.value.cls.CustomFee? ==>
      r.value.proxyClass.Some? && r.value.proxyClass.value.path == r.value.cls.path
    ensures IsFeeVariant(f.cls) ==> r == Ok(f)
    ensures !IsFeeVariant(f.cls) && HasProxyClass(f) ==> r == Ok(f.(cls := CustomFee(f.proxyClass.value.path)))
    ensures r.Err? <==> !IsFeeVariant(f.cls) && !HasProxyClass(f) && f.typeTag !in {PERCENTAGE, FIXED}
  {
    if IsFeeVariant(f.cls) then Ok(f)
    else if HasProxyClass(f) then
      var klass := CustomFee(f.proxyClass.value.path);
      if f.cls == klass then Ok(f) else Ok(f.(cls := klass))
    else if f.typeTag == PERCENTAGE then Ok(f.(cls := PercentageFee))
    else if f.typeTag == FIXED then Ok(f.(cls := AbsoluteFee))
    else Err(UnrecognisedType(f.typeTag))
  }

  lemma FeeProxyIdempotent(f: Fee)
    requires FeeProxy(f).Ok?
    ensures FeeProxy(FeeProxy(f).value) == FeeProxy(f)
  {
  }

  lemma FeeProxyByTag(f: Fee)
    requires f.cls == BaseFee && !HasProxyClass(f)
    ensures f.typeTag == PERCENTAGE ==> FeeProxy(f) == Ok(f.(cls := PercentageFee))
    ensures f.typeTag == FIXED ==> FeeProxy(f) == Ok(f.(cls := AbsoluteFee))
    ensures f.typeTag !in {PERCENTAGE, FIXED} ==> FeeProxy(f) == Err(UnrecognisedType(f.typeTag))
  {
  }

  /** `Fee.apply`, the base class's application. `max(None, 0)` raises. */
  function BaseApply(f: Fee, condition: Condition): (r: Result<ApplicationResult>)
    ensures condition.cls.ValueCondition? ==> r == Ok(ZeroFee)
    ensures r.Err? <==> !condition.cls.ValueCondition? && f.value.None?
    ensures r.Err? ==> r.error.TypeError?
    ensures r.Ok? ==> r.value.BasketFee? && r.value.IsFinal() && r.value.Amount() >= 0
    ensures r.Ok? && !condition.cls.ValueCondition? ==>
      r.value.Amount() == (if f.value.value > 0 then f.value.value else 0)
    ensures r.Ok? ==> (r.value.IsSuccessful() <==> !condition.cls.ValueCondition? && f.value.value > 0)
  {
    if condition.cls.ValueCondition? then Ok(ZeroFee)
    else if f.value.None? then Err(TypeError("'>' not supported between instances of 'Decimal' and 'NoneType'"))
    else Ok(BasketFee(if f.value.value >= 0 then f.value.value else 0))
  }

  // ---------------------------------------------------------------- line selection

  predicate Applicable(l: LineInfo, range: Range) {
    range.contains(l.product) && l.unitEffectivePrice != 0 && l.quantityWithoutDiscount != 0
  }

  predicate Indices(lines: seq<LineInfo>, s: seq<nat>) {
    forall k :: 0 <= k < |s| ==> s[k] < |lines|
  }

  /** The indices of the applicable lines, in basket order. */
  function Candidates(lines: seq<LineInfo>, range: Range): (s: seq<nat>)
    ensures Indices(lines, s)
    ensures forall k :: 0 <= k < |s| ==> Applicable(lines[s[k]], range)
    ensures forall i :: 0 <= i < |lines| && Applicable(lines[i], range) ==> i in s
    ensures forall a, b :: 0 <= a < b < |s| ==> s[a] < s[b]
  {
    CandidatesFrom(lines, range, 0)
  }

  /** The indices from `i` on of the applicable lines, in basket order. */
  function CandidatesFrom(lines: seq<LineInfo>, range: Range, i: nat): (s: seq<nat>)
    requires i <= |lines|
    ensures forall k :: 0 <= k < |s| ==> i <= s[k] < |lines| && Applicable(lines[s[k]], range)
    ensures forall j :: i <= j < |lines| && Applicable(lines[j], range) ==> j in s
    ensures forall a, b :: 0 <= a < b < |s| ==> s[a] < s[b]
    decreases |lines| - i
  {
    if i == |lines| then []
    else if Applicable(lines[i], range) then [i] + CandidatesFrom(lines, range, i + 1)
    else CandidatesFrom(lines, range, i + 1)
  }

  /** The order of Python's stable sort on price: cheaper first, and a tie
      keeps basket order. */
  predicate Before(lines: seq<LineInfo>, i: nat, j: nat)
    requires i < |lines| && j < |lines|
  {
    lines[i].unitEffectivePrice < lines[j].unitEffectivePrice
    || (lines[i].unitEffectivePrice == lines[j].unitEffectivePrice && i < j)
  }

  predicate SortedByPrice(lines: seq<LineInfo>, s: seq<nat>)
    requires Indices(lines, s)
  {
    forall a, b :: 0 <= a < b < |s| ==> Before(lines, s[a], s[b])
  }

  function Insert(lines: seq<LineInfo>, x: nat, s: seq<nat>): (r: seq<nat>)
    requires x < |lines| && Indices(lines, s)
    ensures Indices(lines, r)
    ensures multiset(r) == multiset(s) + multiset{x}
  {
    if s == [] || Before(lines, x, s[0]) then [x] + s
    else
      assert s == [s[0]] + s[1..];
      [s[0]] + Insert(lines, x, s[1..])
  }

  /** Inserting a new index into a sorted sequence keeps it sorted. */
  lemma {:induction false} InsertSorted(lines: seq<LineInfo>, x: nat, s: seq<nat>)
    requires x < |lines| && Indices(lines, s) && SortedByPrice(lines, s) && x !in s
    ensures SortedByPrice(lines, Insert(lines, x, s))
  {
    if s != [] && !Before(lines, x, s[0]) {
      var rest := Insert(lines, x, s[1..]);
      InsertSorted(lines, x, s[1..]);
      forall k | 0 <= k < |rest| ensures Before(lines, s[0], rest[k]) {
        assert rest[k] in multiset(rest);
        if rest[k] != x {
          assert rest[k] in s[1..];
        }
      }
    }
  }

  function SortByPrice(lines: seq<LineInfo>, s: seq<nat>): (r: seq<nat>)
    requires Indices(lines, s)
    requires forall a, b :: 0 <= a < b < |s| ==> s[a] != s[b]
    ensures Indices(lines, r)
    ensures multiset(r) == multiset(s)
    ensures SortedByPrice(lines, r)
  {
    if s == [] then []
    else
      SplitHead(lines, s);
      var rest := SortByPrice(lines, s[1..]);
      HeadNotInRest(s, rest);
      InsertSorted(lines, s[0], rest);
      Insert(lines, s[0], rest)
  }

  /** The tail of a selection of distinct lines is one too. */
  lemma SplitHead(lines: seq<LineInfo>, s: seq<nat>)
    requires s != [] && Indices(lines, s)
    requires forall a, b :: 0 <= a < b < |s| ==> s[a] != s[b]
    ensures Indices(lines, s[1..]) && s[0] < |lines|
    ensures forall a, b :: 0 <= a < b < |s[1..]| ==> s[1..][a] != s[1..][b]
    ensures multiset(s) == multiset(s[1..]) + multiset{s[0]}
  {
    assert s == [s[0]] + s[1..];
  }

  lemma HeadNotInRest(s: seq<nat>, rest: seq<nat>)
    requires s != [] && multiset(rest) == multiset(s[1..])
    requires forall a, b :: 0 <= a < b < |s| ==> s[a] != s[b]
    ensures s[0] !in rest
  {
    assert forall j :: 0 <= j < |s[1..]| ==> s[1..][j] == s[j + 1] != s[0];
    assert s[0] !in multiset(s[1..]);
  }

  /** `Fee.get_applicable_lines`: the indices of the lines in `range` with a
      nonzero price and a nonzero undiscounted quantity, cheapest first, ties
      in basket order. */
  function ApplicableLines(lines: seq<LineInfo>, range: Range): (r: seq<nat>)
    ensures Indices(lines, r)
    ensures forall k :: 0 <= k < |r| ==> Applicable(lines[r[k]], range)
    ensures forall i :: 0 <= i < |lines| && Applicable(lines[i], range) ==> i in r
    ensures SortedByPrice(lines, r)
  {
    var c := Candidates(lines, range);
    var r := SortByPrice(lines, c);
    SameMembers(c, r);
    assert forall k :: 0 <= k < |r| ==> Applicable(lines[r[k]], range) by {
      forall k | 0 <= k < |r| ensures Applicable(lines[r[k]], range) {
        assert r[k] in c;
      }
    }
    r
  }

  /** `Fee.get_applicable_lines(offer, basket, range)`: the range given,
      else the fee's own. With neither, the first line's `range.contains`
      raises, and an empty basket selects nothing. */
  function FeeApplicableLines(f: Fee, lines: seq<LineInfo>, range: Option<Range>): (r: Result<seq<nat>>)
    ensures var rg := if range.Some? then range else f.range;
      rg.Some? ==> r == Ok(ApplicableLines(lines, rg.value))
    ensures range.None? && f.range.None? ==> (r.Err? <==> lines != []) && (r.Ok? ==> r.value == [])
    ensures r.Err? ==> r.error.AttributeError?
  {
    var rg := if range.Some? then range else f.range;
    if rg.Some? then Ok(ApplicableLines(lines, rg.value))
    else if lines == [] then Ok([])
    else Err(AttributeError("'NoneType' object has no attribute 'contains'"))
  }

  lemma SameMembers(c: seq<nat>, r: seq<nat>)
    requires multiset(r) == multiset(c)
    ensures forall x :: x in r <==> x in c
  {
    forall x ensures x in r <==> x in c {
      assert x in r <==> x in multiset(r);
      assert x in c <==> x in multiset(c);
    }
  }

  /** What the (price, index) order says about a sequence sorted by it. */
  lemma SortedOrder(lines: seq<LineInfo>, r: seq<nat>)
    requires Indices(lines, r) && SortedByPrice(lines, r)
    ensures forall a, b :: 0 <= a < b < |r| ==>
      r[a] != r[b] && lines[r[a]].unitEffectivePrice <= lines[r[b]].unitEffectivePrice
  {
    forall a, b | 0 <= a < b < |r|
      ensures r[a] != r[b] && lines[r[a]].unitEffectivePrice <= lines[r[b]].unitEffectivePrice
    {
      assert Before(lines, r[a], r[b]);
    }
  }
}
