/** The parts of Oscar's basket and basket line that the fee engine reads,
    and the transient fee annotations it writes on them. */
module Baskets {
  import opened Wrappers
  import opened Results
  import opened Models

  /** A basket line. `feeAmount` and `feeQuantity` are the `_fee_amount` and
      `_fee_quantity` annotations, which read as zero until first written. */
  class Line {
    const info: LineInfo
    var feeAmount: int
    var feeQuantity: int

    constructor (info: LineInfo)
      ensures this.info == info && feeAmount == 0 && feeQuantity == 0
    {
      this.info := info;
      feeAmount := 0;
      feeQuantity := 0;
    }
  }

  function Zeros(n: nat): (z: seq<int>)
    ensures |z| == n && forall i :: 0 <= i < n ==> z[i] == 0
  {
    seq(n, _ => 0)
  }

  /** What one or more fee applications add to a basket's annotations: an
      amount and a quantity per line, an amount for the basket, and the fee
      definitions appended to the basket's list of fees. */
  datatype Effect = Effect(lineFees: seq<int>, lineQuantities: seq<int>, basketAmount: int,
                           appended: seq<Fee>)

  predicate Sized(e: Effect, n: nat) {
    |e.lineFees| == n && |e.lineQuantities| == n
  }

  function NoEffect(n: nat): (e: Effect)
    ensures Sized(e, n)
  {
    Effect(Zeros(n), Zeros(n), 0, [])
  }

  function Plus(a: seq<int>, b: seq<int>): (c: seq<int>)
    requires |a| == |b|
    ensures |c| == |a| && forall i :: 0 <= i < |a| ==> c[i] == a[i] + b[i]
  {
    seq(|a|, i requires 0 <= i < |a| => a[i] + b[i])
  }

  /** `a` followed by `b`. */
  function Combine(a: Effect, b: Effect): (c: Effect)
    requires |a.lineFees| == |b.lineFees| && |a.lineQuantities| == |b.lineQuantities|
    ensures forall n :: Sized(a, n) ==> Sized(c, n)
  {
    Effect(Plus(a.lineFees, b.lineFees), Plus(a.lineQuantities, b.lineQuantities),
           a.basketAmount + b.basketAmount, a.appended + b.appended)
  }

  /** `e` repeated `k` times. */
  function Times(e: Effect, n: nat, k: nat): (r: Effect)
    requires Sized(e, n)
    ensures Sized(r, n)
  {
    if k == 0 then NoEffect(n) else Combine(Times(e, n, k - 1), e)
  }

  /** The annotations of a basket at one moment, as values. */
  datatype Annotations = Annotations(lineFees: seq<int>, lineQuantities: seq<int>,
                                     totalFeesAmount: int, fees: seq<Fee>)

  /** `a` with `e` added to it. */
  function Annotate(a: Annotations, e: Effect): (r: Annotations)
    requires |a.lineFees| == |e.lineFees| && |a.lineQuantities| == |e.lineQuantities|
    ensures |r.lineFees| == |a.lineFees| && |r.lineQuantities| == |a.lineQuantities|
  {
    Annotations(Plus(a.lineFees, e.lineFees), Plus(a.lineQuantities, e.lineQuantities),
                a.totalFeesAmount + e.basketAmount, a.fees + e.appended)
  }

  /** Adding two effects one after the other adds their combination. */
  lemma AnnotateCombine(a: Annotations, e1: Effect, e2: Effect, n: nat)
    requires |a.lineFees| == n && |a.lineQuantities| == n && Sized(e1, n) && Sized(e2, n)
    ensures Annotate(Annotate(a, e1), e2) == Annotate(a, Combine(e1, e2))
  {
    assert Plus(Plus(a.lineFees, e1.lineFees), e2.lineFees) == Plus(a.lineFees, Plus(e1.lineFees, e2.lineFees));
    assert Plus(Plus(a.lineQuantities, e1.lineQuantities), e2.lineQuantities)
        == Plus(a.lineQuantities, Plus(e1.lineQuantities, e2.lineQuantities));
  }

  /** Adding no effect changes nothing. */
  lemma AnnotateNothing(a: Annotations, n: nat)
    requires |a.lineFees| == n && |a.lineQuantities| == n
    ensures Annotate(a, NoEffect(n)) == a
  {
    assert Plus(a.lineFees, Zeros(n)) == a.lineFees;
    assert Plus(a.lineQuantities, Zeros(n)) == a.lineQuantities;
  }

  /** `a` with `df` and `dq` added to the annotations of line `j`. */
  function AddToLine(a: Annotations, j: nat, df: int, dq: int): (r: Annotations)
    requires j < |a.lineFees| && j < |a.lineQuantities|
    ensures |r.lineFees| == |a.lineFees| && |r.lineQuantities| == |a.lineQuantities|
  {
    a.(lineFees := a.lineFees[j := a.lineFees[j] + df],
       lineQuantities := a.lineQuantities[j := a.lineQuantities[j] + dq])
  }

  /** A basket: its lines, its owner, and the annotations the engine keeps on
      it (`_total_fees_amount`, `_fees`, `total_test`, `fee_applications`).
      `R` is the type of the rules recorded in its ledger. */
  class Basket<R> {
    const lines: seq<Line>
    const owner: Option<UserId>
    var totalFeesAmount: int
    var fees: seq<Fee>
    var totalTest: int
    var feeApplications: FeeApplications?<R>

    constructor (lines: seq<Line>, owner: Option<UserId>)
      ensures this.lines == lines && this.owner == owner
      ensures totalFeesAmount == 0 && fees == [] && totalTest == 0 && feeApplications == null
    {
      this.lines := lines;
      this.owner := owner;
      totalFeesAmount := 0;
      fees := [];
      totalTest := 0;
      feeApplications := null;
    }

    /** A basket owns its lines, each once, and Oscar keeps every line's
        undiscounted quantity within its quantity. */
    predicate Valid() {
      && (forall i, j :: 0 <= i < j < |lines| ==> lines[i] != lines[j])
      && (forall i :: 0 <= i < |lines| ==> WellFormedLine(lines[i].info))
    }

    function Infos(): (s: seq<LineInfo>)
      ensures |s| == |lines| && forall i :: 0 <= i < |lines| ==> s[i] == lines[i].info
      ensures Valid() ==> WellFormedLines(s)
    {
      seq(|lines|, i requires 0 <= i < |lines| => lines[i].info)
    }

    function LineSet(): (ls: set<Line>) {
      set l | l in lines
    }

    /** The current annotations as a value. */
    function Current(): (a: Annotations)
      reads this`totalFeesAmount, this`fees, LineSet()
      ensures |a.lineFees| == |lines| && |a.lineQuantities| == |lines|
    {
      Annotations(seq(|lines|, i requires 0 <= i < |lines| reads LineSet() => lines[i].feeAmount),
                  seq(|lines|, i requires 0 <= i < |lines| reads LineSet() => lines[i].feeQuantity),
                  totalFeesAmount, fees)
    }

    /** The annotations changed from the old state by exactly `e`. */
    twostate predicate Annotated(e: Effect)
      reads this, LineSet()
    {
      && Sized(e, |lines|)
      && (forall i :: 0 <= i < |lines| ==>
            lines[i].feeAmount == old(lines[i].feeAmount) + e.lineFees[i]
            && lines[i].feeQuantity == old(lines[i].feeQuantity) + e.lineQuantities[i])
      && totalFeesAmount == old(totalFeesAmount) + e.basketAmount
      && fees == old(fees) + e.appended
    }

    /** `Annotated` read on values: the current annotations are the old ones
        with the effect added, and conversely. */
    twostate lemma AnnotatedCurrent(e: Effect)
      requires Sized(e, |lines|)
      ensures Annotated(e) <==> Current() == Annotate(old(Current()), e)
    {
      var now, before := Current(), old(Current());
      if Current() == Annotate(old(Current()), e) {
        forall i | 0 <= i < |lines|
          ensures lines[i].feeAmount == old(lines[i].feeAmount) + e.lineFees[i]
          ensures lines[i].feeQuantity == old(lines[i].feeQuantity) + e.lineQuantities[i]
        {
          assert now.lineFees[i] == lines[i].feeAmount;
          assert before.lineFees[i] == old(lines[i].feeAmount);
          assert now.lineQuantities[i] == lines[i].feeQuantity;
          assert before.lineQuantities[i] == old(lines[i].feeQuantity);
        }
      }
      if Annotated(e) {
        assert now.lineFees == Plus(before.lineFees, e.lineFees);
        assert now.lineQuantities == Plus(before.lineQuantities, e.lineQuantities);
      }
    }
  }

  /** A basket whose annotations were not touched is annotated by no effect. */
  twostate lemma NothingAnnotated<R>(b: Basket<R>)
    requires unchanged(b) && unchanged(b.LineSet())
    ensures b.Annotated(NoEffect(|b.lines|))
  {
  }
}
