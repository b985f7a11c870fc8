/** The applicator: chooses the rules for a basket and applies each one
    repeatedly, recording successful results in a fresh ledger. */
module Applicator {
  import opened Wrappers
  import opened Results
  import opened Models
  import opened Baskets
  import opened Rules

  /** One successful application, as the ledger records it. */
  datatype Record = Record(rule: ConditionalFee, result: ApplicationResult)

  function Repeat(x: Record, k: nat): (s: seq<Record>)
    ensures |s| == k && forall i :: 0 <= i < k ==> s[i] == x
  {
    seq(k, _ => x)
  }

  /** What applying rules does: the annotations added to the basket, the
      number of `apply_fee` calls, the results recorded in order, and the
      error that ended the pass early, if any. */
  datatype Run = Run(effect: Effect, calls: nat, recorded: seq<Record>, error: Option<Error>)

  /** The inner loop of `apply_fees` for one rule, given the rule's limit
      and what each `apply_fee` call returns and adds to the basket. */
  function RunOf(rule: ConditionalFee, limit: Result<int>, o: Attempt, n: nat): (run: Run)
    requires Sized(o.effect, n)
    ensures Sized(run.effect, n)
  {
    match limit
    case Err(e) => Run(NoEffect(n), 0, [], Some(e))
    case Ok(limit) =>
      if limit <= 0 then Run(NoEffect(n), 0, [], None)
      else
        match o.result
        case Err(e) => Run(Times(o.effect, n, 1), 1, [], Some(e))
        case Ok(r) =>
          var calls := if !r.IsSuccessful() || r.IsFinal() then 1 else limit;
          Run(Times(o.effect, n, calls), calls,
              if r.IsSuccessful() then Repeat(Record(rule, r), calls) else [], None)
  }

  /** The inner loop of `apply_fees` for one rule, on values. Nothing the
      loop does changes the rule, so its limit and the outcome of each
      `apply_fee` call are the same on every iteration. */
  function RuleRun(rule: ConditionalFee, infos: seq<LineInfo>, owner: Option<UserId>): (run: Run)
    reads rule
    requires WellFormedLines(infos)
    ensures Sized(run.effect, |infos|)
  {
    RunOf(rule, rule.GetMaxApplications(owner), rule.Outcome(infos), |infos|)
  }

  /** Each rule's run, in order. */
  function RuleRuns(fees: seq<ConditionalFee>, infos: seq<LineInfo>, owner: Option<UserId>): (runs: seq<Run>)
    reads fees
    requires WellFormedLines(infos)
    ensures |runs| == |fees|
    ensures forall k :: 0 <= k < |fees| ==> runs[k] == RuleRun(fees[k], infos, owner)
  {
    seq(|fees|, k requires 0 <= k < |fees| reads fees => RuleRun(fees[k], infos, owner))
  }

  predicate AllSized(runs: seq<Run>, n: nat) {
    forall k :: 0 <= k < |runs| ==> Sized(runs[k].effect, n)
  }

  /** The runs one after the other, stopping after the first that failed. */
  function PassOf(runs: seq<Run>, n: nat): (p: Run)
    requires AllSized(runs, n)
    ensures Sized(p.effect, n)
  {
    if runs == [] then Run(NoEffect(n), 0, [], None)
    else
      var prev := PassOf(runs[..|runs| - 1], n);
      var run := runs[|runs| - 1];
      if prev.error.Some? then prev
      else Run(Combine(prev.effect, run.effect), prev.calls + run.calls,
               prev.recorded + run.recorded, run.error)
  }

  /** `apply_fees` over `fees`, on values. */
  function Pass(fees: seq<ConditionalFee>, infos: seq<LineInfo>, owner: Option<UserId>): (p: Run)
    reads fees
    requires WellFormedLines(infos)
    ensures Sized(p.effect, |infos|)
  {
    PassOf(RuleRuns(fees, infos, owner), |infos|)
  }

  /** The successful results of `k` applications that all succeeded. */
  function Successes(rule: ConditionalFee, o: Attempt, k: nat): (s: seq<Record>)
    ensures |s| == (if o.result.Ok? then k else 0)
  {
    if o.result.Err? then [] else Repeat(Record(rule, o.result.value), k)
  }

  /** The run of a rule applied `calls` times before its limit stopped it. */
  lemma RunOfExhausted(rule: ConditionalFee, calls: nat, o: Attempt, n: nat)
    requires Sized(o.effect, n)
    requires calls > 0 ==> (o.result.Ok? && o.result.value.IsSuccessful() && !o.result.value.IsFinal())
    ensures RunOf(rule, Ok(calls), o, n) == Run(Times(o.effect, n, calls), calls, Successes(rule, o, calls), None)
  {
    if calls == 0 {
      assert Successes(rule, o, calls) == [];
    }
  }

  /** The run of a rule whose first application stopped it. */
  lemma RunOfStoppedFirst(rule: ConditionalFee, limit: int, o: Attempt, n: nat)
    requires Sized(o.effect, n) && limit > 0
    requires o.result.Err? || !o.result.value.IsSuccessful() || o.result.value.IsFinal()
    ensures RunOf(rule, Ok(limit), o, n)
         == Run(Times(o.effect, n, 1), 1,
                if o.result.Ok? && o.result.value.IsSuccessful() then [Record(rule, o.result.value)] else [],
                if o.result.Err? then Some(o.result.error) else None)
  {
    if o.result.Ok? && o.result.value.IsSuccessful() {
      assert Repeat(Record(rule, o.result.value), 1) == [Record(rule, o.result.value)];
    }
  }

  /** The ledger's dictionary and key order after adding `recs` in order. */
  function Recorded(apps: map<nat, Entry<ConditionalFee>>, order: seq<nat>, recs: seq<Record>)
    : (l: (map<nat, Entry<ConditionalFee>>, seq<nat>))
  {
    if recs == [] then (apps, order)
    else
      var (a, o) := Recorded(apps, order, recs[..|recs| - 1]);
      var x := recs[|recs| - 1];
      (WithAdded(a, x.rule.id, x.rule.name, x.rule, x.result),
       o + (if x.rule.id in a then [] else [x.rule.id]))
  }

  /** Adding two batches of records one after the other is adding both. */
  lemma {:induction false} RecordedAppend(apps: map<nat, Entry<ConditionalFee>>, order: seq<nat>,
                                          r1: seq<Record>, r2: seq<Record>)
    ensures Recorded(apps, order, r1 + r2)
         == Recorded(Recorded(apps, order, r1).0, Recorded(apps, order, r1).1, r2)
  {
    if r2 != [] {
      var n := |r2| - 1;
      assert (r1 + r2)[..|r1 + r2| - 1] == r1 + r2[..n];
      assert (r1 + r2)[|r1 + r2| - 1] == r2[n];
      RecordedAppend(apps, order, r1, r2[..n]);
    } else {
      assert r1 + r2 == r1;
    }
  }

  /** One more `apply_fee` call on a basket that already holds `k` of them. */
  method ApplyAgain(basket: Basket<ConditionalFee>, fee: ConditionalFee, ghost o: Attempt,
                    ghost start: Annotations, ghost k: nat)
    returns (result: Result<ApplicationResult>)
    requires basket.Valid() && o == fee.Outcome(basket.Infos())
    requires |start.lineFees| == |basket.lines| && |start.lineQuantities| == |basket.lines|
    requires basket.Current() == Annotate(start, Times(o.effect, |basket.lines|, k))
    modifies basket, basket.LineSet()
    ensures result == o.result
    ensures basket.Current() == Annotate(start, Times(o.effect, |basket.lines|, k + 1))
    ensures basket.totalTest == old(basket.totalTest)
    ensures basket.feeApplications == old(basket.feeApplications)
  {
    ghost var n := |basket.lines|;
    result := fee.ApplyFee(basket);
    AnnotateCombine(start, Times(o.effect, n, k), o.effect, n);
  }

  /** Records a successful result in the ledger and counts it on the basket. */
  method RecordApplication(basket: Basket<ConditionalFee>, applications: FeeApplications<ConditionalFee>,
                           fee: ConditionalFee, result: ApplicationResult,
                           ghost apps: map<nat, Entry<ConditionalFee>>, ghost order: seq<nat>,
                           ghost recorded: seq<Record>)
    requires applications.Valid()
    requires (applications.applications, applications.order) == Recorded(apps, order, recorded)
    modifies basket, applications
    ensures applications.Valid()
    ensures (applications.applications, applications.order)
         == Recorded(apps, order, recorded + [Record(fee, result)])
    ensures basket.totalTest == old(basket.totalTest) + 1
    ensures basket.Current() == old(basket.Current())
    ensures basket.feeApplications == old(basket.feeApplications)
  {
    applications.Add(fee.id, fee.name, fee, result);
    basket.totalTest := basket.totalTest + 1;
    assert (recorded + [Record(fee, result)])[..|recorded|] == recorded;
  }

  /** The recording step of the inner loop of `apply_fees`: a successful
      result of the `k + 1`-th `apply_fee` call is recorded and counted. */
  method RecordIfSuccessful(basket: Basket<ConditionalFee>, applications: FeeApplications<ConditionalFee>,
                            fee: ConditionalFee, result: Result<ApplicationResult>, ghost o: Attempt, ghost k: nat,
                            ghost apps: map<nat, Entry<ConditionalFee>>, ghost order: seq<nat>)
    requires applications.Valid() && result == o.result
    requires (applications.applications, applications.order) == Recorded(apps, order, Successes(fee, o, k))
    modifies basket, applications
    ensures applications.Valid()
    ensures result.Ok? && result.value.IsSuccessful() ==>
      && (applications.applications, applications.order) == Recorded(apps, order, Successes(fee, o, k + 1))
      && basket.totalTest == old(basket.totalTest) + 1
    ensures !(result.Ok? && result.value.IsSuccessful()) ==>
      && (applications.applications, applications.order) == Recorded(apps, order, Successes(fee, o, k))
      && basket.totalTest == old(basket.totalTest)
    ensures basket.Current() == old(basket.Current())
    ensures basket.feeApplications == old(basket.feeApplications)
  {
    if result.Ok? && result.value.IsSuccessful() {
      RecordApplication(basket, applications, fee, result.value, apps, order, Successes(fee, o, k));
      assert Successes(fee, o, k + 1) == Successes(fee, o, k) + [Record(fee, result.value)];
    }
  }

  /** The inner `while` loop of `apply_fees` for one rule: apply while the
      rule's limit allows, stop at an unsuccessful or a final result, and
      record every successful one. The loop condition's limit is computed
      here, where it may fail; the loop itself is `ApplyWithinLimit`. */
  method ApplyRepeatedly(basket: Basket<ConditionalFee>, fee: ConditionalFee,
                         applications: FeeApplications<ConditionalFee>)
    returns (err: Option<Error>)
    requires basket.Valid() && applications.Valid()
    modifies basket, basket.LineSet(), applications
    ensures basket.Current() == Annotate(old(basket.Current()),
                                         old(RuleRun(fee, basket.Infos(), basket.owner)).effect)
    ensures basket.totalTest == old(basket.totalTest) + |old(RuleRun(fee, basket.Infos(), basket.owner)).recorded|
    ensures applications.Valid()
    ensures (applications.applications, applications.order)
         == Recorded(old(applications.applications), old(applications.order),
                     old(RuleRun(fee, basket.Infos(), basket.owner)).recorded)
    ensures err == old(RuleRun(fee, basket.Infos(), basket.owner)).error
    ensures basket.feeApplications == old(basket.feeApplications)
  {
    var limit := fee.GetMaxApplications(basket.owner);
    if limit.Err? {
      AnnotateNothing(basket.Current(), |basket.lines|);
      return Some(limit.error);
    }
    ghost var o := fee.Outcome(basket.Infos());
    err := ApplyWithinLimit(basket, fee, applications, limit.value, o);
  }

  /** The loop of `ApplyRepeatedly` once the rule's limit is known. The loop
      changes neither the rule nor anything its limit reads, so the limit
      the source re-evaluates on every iteration is the `limit` passed in. */
  method ApplyWithinLimit(basket: Basket<ConditionalFee>, fee: ConditionalFee,
                          applications: FeeApplications<ConditionalFee>, limit: int, ghost o: Attempt)
    returns (err: Option<Error>)
    requires basket.Valid() && applications.Valid() && limit >= 0
    requires o == fee.Outcome(basket.Infos())
    modifies basket, basket.LineSet(), applications
    ensures basket.Current() == Annotate(old(basket.Current()), RunOf(fee, Ok(limit), o, |basket.lines|).effect)
    ensures basket.totalTest == old(basket.totalTest) + |RunOf(fee, Ok(limit), o, |basket.lines|).recorded|
    ensures applications.Valid()
    ensures (applications.applications, applications.order)
         == Recorded(old(applications.applications), old(applications.order),
                     RunOf(fee, Ok(limit), o, |basket.lines|).recorded)
    ensures err == RunOf(fee, Ok(limit), o, |basket.lines|).error
    ensures basket.feeApplications == old(basket.feeApplications)
  {
    var infos := basket.Infos();
    var n := |infos|;
    ghost var start := basket.Current();
    AnnotateNothing(start, n);
    var numApplications := 0;
    while numApplications < limit
      invariant 0 <= numApplications <= limit
      invariant o == fee.Outcome(basket.Infos())
      invariant numApplications > 0 ==>
        o.result.Ok? && o.result.value.IsSuccessful() && !o.result.value.IsFinal()
      invariant basket.Current() == Annotate(start, Times(o.effect, n, numApplications))
      invariant basket.totalTest == old(basket.totalTest) + numApplications
      invariant applications.Valid()
      invariant (applications.applications, applications.order)
             == Recorded(old(applications.applications), old(applications.order),
                         Successes(fee, o, numApplications))
      invariant basket.feeApplications == old(basket.feeApplications)
      decreases limit - numApplications
    {
      var result := ApplyAgain(basket, fee, o, start, numApplications);
      RecordIfSuccessful(basket, applications, fee, result, o, numApplications,
                         old(applications.applications), old(applications.order));
      numApplications := numApplications + 1;
      if result.Err? {
        RunOfStoppedFirst(fee, limit, o, n);
        return Some(result.error);
      }
      if !result.value.IsSuccessful() {
        RunOfStoppedFirst(fee, limit, o, n);
        return None;
      }
      if result.value.IsFinal() {
        RunOfStoppedFirst(fee, limit, o, n);
        return None;
      }
    }
    RunOfExhausted(fee, numApplications, o, n);
    return None;
  }

  /** Up to the `k`-th run, the pass is the pass over the first `k - 1`
      runs followed by the `k`-th run, unless it had stopped. */
  lemma PassStep(runs: seq<Run>, k: nat, n: nat)
    requires AllSized(runs, n) && k < |runs|
    requires PassOf(runs[..k], n).error.None?
    ensures var prev := PassOf(runs[..k], n);
      PassOf(runs[..k + 1], n)
      == Run(Combine(prev.effect, runs[k].effect), prev.calls + runs[k].calls,
             prev.recorded + runs[k].recorded, runs[k].error)
  {
    assert runs[..k + 1][..k] == runs[..k];
  }

  /** Once a run has failed, the later runs do not count. */
  lemma {:induction false} PassStopped(runs: seq<Run>, k: nat, j: nat, n: nat)
    requires AllSized(runs, n) && k <= j <= |runs|
    requires PassOf(runs[..k], n).error.Some?
    ensures PassOf(runs[..j], n) == PassOf(runs[..k], n)
  {
    if j > k {
      PassStopped(runs, k, j - 1, n);
      assert runs[..j][..j - 1] == runs[..j - 1];
    }
  }

  /** One iteration of the outer loop of `apply_fees`: the rule's run is
      added to the pass `prev` of the rules before it. */
  method ApplyRule(basket: Basket<ConditionalFee>, fee: ConditionalFee,
                   applications: FeeApplications<ConditionalFee>,
                   ghost start: Annotations, ghost prev: Run)
    returns (err: Option<Error>)
    requires basket.Valid() && applications.Valid()
    requires |start.lineFees| == |basket.lines| && |start.lineQuantities| == |basket.lines|
    requires Sized(prev.effect, |basket.lines|)
    requires basket.Current() == Annotate(start, prev.effect)
    requires (applications.applications, applications.order) == Recorded(map[], [], prev.recorded)
    modifies basket, basket.LineSet(), applications
    ensures basket.Current() == Annotate(start, Combine(prev.effect, old(RuleRun(fee, basket.Infos(), basket.owner)).effect))
    ensures basket.totalTest == old(basket.totalTest) + |old(RuleRun(fee, basket.Infos(), basket.owner)).recorded|
    ensures applications.Valid()
    ensures (applications.applications, applications.order)
         == Recorded(map[], [], prev.recorded + old(RuleRun(fee, basket.Infos(), basket.owner)).recorded)
    ensures err == old(RuleRun(fee, basket.Infos(), basket.owner)).error
    ensures basket.feeApplications == old(basket.feeApplications)
  {
    ghost var n := |basket.lines|;
    ghost var run := RuleRun(fee, basket.Infos(), basket.owner);
    err := ApplyRepeatedly(basket, fee, applications);
    AnnotateCombine(start, prev.effect, run.effect, n);
    RecordedAppend(map[], [], prev.recorded, run.recorded);
  }

  /** `apply_fees`: applies every rule in turn and stores a fresh ledger of
      the successful results on the basket. A failing rule ends the pass
      with its error, leaving the basket's earlier annotations in place and
      its previous ledger attached. */
  method ApplyFees(basket: Basket<ConditionalFee>, fees: seq<ConditionalFee>) returns (err: Option<Error>)
    requires basket.Valid()
    modifies basket, basket.LineSet()
    ensures basket.Annotated(old(Pass(fees, basket.Infos(), basket.owner)).effect)
    ensures basket.totalTest == old(basket.totalTest) + |old(Pass(fees, basket.Infos(), basket.owner)).recorded|
    ensures err == old(Pass(fees, basket.Infos(), basket.owner)).error
    ensures err.Some? ==> basket.feeApplications == old(basket.feeApplications)
    ensures err.None? ==>
      && basket.feeApplications != null && fresh(basket.feeApplications)
      && basket.feeApplications.Valid()
      && (basket.feeApplications.applications, basket.feeApplications.order)
         == Recorded(map[], [], old(Pass(fees, basket.Infos(), basket.owner)).recorded)
  {
    ghost var pass := Pass(fees, basket.Infos(), basket.owner);
    var applications;
    err, applications := ApplyPass(basket, fees);
    basket.AnnotatedCurrent(pass.effect);
    if err.None? {
      basket.feeApplications := applications;
    }
  }

  /** The loop of `apply_fees` over the rules, collecting the successful
      results in a new ledger `applications`. */
  method ApplyPass(basket: Basket<ConditionalFee>, fees: seq<ConditionalFee>)
    returns (err: Option<Error>, applications: FeeApplications<ConditionalFee>)
    requires basket.Valid()
    modifies basket, basket.LineSet()
    ensures basket.Current() == Annotate(old(basket.Current()), old(Pass(fees, basket.Infos(), basket.owner)).effect)
    ensures basket.totalTest == old(basket.totalTest) + |old(Pass(fees, basket.Infos(), basket.owner)).recorded|
    ensures err == old(Pass(fees, basket.Infos(), basket.owner)).error
    ensures fresh(applications) && applications.Valid()
    ensures (applications.applications, applications.order)
         == Recorded(map[], [], old(Pass(fees, basket.Infos(), basket.owner)).recorded)
    ensures basket.feeApplications == old(basket.feeApplications)
  {
    var infos := basket.Infos();
    var n := |infos|;
    ghost var start := basket.Current();
    ghost var runs := RuleRuns(fees, infos, basket.owner);
    applications := new FeeApplications<ConditionalFee>();
    AnnotateNothing(start, n);
    err := None;
    var i := 0;
    while i < |fees| && err.None?
      invariant 0 <= i <= |fees|
      invariant fresh(applications) && applications.Valid()
      invariant err == PassOf(runs[..i], n).error
      invariant basket.Current() == Annotate(start, PassOf(runs[..i], n).effect)
      invariant basket.totalTest == old(basket.totalTest) + |PassOf(runs[..i], n).recorded|
      invariant (applications.applications, applications.order)
             == Recorded(map[], [], PassOf(runs[..i], n).recorded)
      invariant basket.feeApplications == old(basket.feeApplications)
    {
      ghost var prev := PassOf(runs[..i], n);
      err := ApplyRule(basket, fees[i], applications, start, prev);
      PassStep(runs, i, n);
      i := i + 1;
    }
    if err.Some? {
      PassStopped(runs, i, |fees|, n);
    }
    assert runs[..|fees|] == runs;
  }

  /** Everything `apply_fees` promises about the number of `apply_fee` calls
      for one rule: none when its limit is unknown or not positive, and never
      more than the limit. */
  lemma RuleRunCalls(rule: ConditionalFee, infos: seq<LineInfo>, owner: Option<UserId>)
    requires WellFormedLines(infos)
    ensures var run := RuleRun(rule, infos, owner);
      match rule.GetMaxApplications(owner)
      case Err(_) => run.calls == 0
      case Ok(limit) => (limit <= 0 ==> run.calls == 0) && (limit > 0 ==> 1 <= run.calls <= limit)
    ensures RuleRun(rule, infos, owner).calls <= MAX_APPLICATIONS
  {
  }

  /** Only successful results are recorded, each at most once per call, and
      each under the rule that produced it. */
  lemma RuleRunRecords(rule: ConditionalFee, infos: seq<LineInfo>, owner: Option<UserId>)
    requires WellFormedLines(infos)
    ensures var run := RuleRun(rule, infos, owner);
      && |run.recorded| <= run.calls
      && forall k :: 0 <= k < |run.recorded| ==>
           run.recorded[k].rule == rule && run.recorded[k].result.IsSuccessful()
  {
  }

  /** An unsuccessful first result ends the rule after one call, unrecorded. */
  lemma RuleRunUnsuccessful(rule: ConditionalFee, infos: seq<LineInfo>, owner: Option<UserId>)
    requires WellFormedLines(infos)
    requires rule.GetMaxApplications(owner).Ok? && rule.GetMaxApplications(owner).value > 0
    requires rule.Outcome(infos).result.Ok? && !rule.Outcome(infos).result.value.IsSuccessful()
    ensures RuleRun(rule, infos, owner).calls == 1
    ensures RuleRun(rule, infos, owner).recorded == []
    ensures RuleRun(rule, infos, owner).error == None
  {
  }

  /** A successful final result is recorded once and ends the rule. */
  lemma RuleRunFinal(rule: ConditionalFee, infos: seq<LineInfo>, owner: Option<UserId>)
    requires WellFormedLines(infos)
    requires rule.GetMaxApplications(owner).Ok? && rule.GetMaxApplications(owner).value > 0
    requires var o := rule.Outcome(infos).result; o.Ok? && o.value.IsSuccessful() && o.value.IsFinal()
    ensures RuleRun(rule, infos, owner).calls == 1
    ensures RuleRun(rule, infos, owner).recorded == [Record(rule, rule.Outcome(infos).result.value)]
  {
    RunOfStoppedFirst(rule, rule.GetMaxApplications(owner).value, rule.Outcome(infos), |infos|);
  }

  /** Every `BasketFee` result is final, so a rule whose application yields
      one is recorded at most once per pass. */
  lemma RuleRunBasketFeeOnce(rule: ConditionalFee, infos: seq<LineInfo>, owner: Option<UserId>)
    requires WellFormedLines(infos)
    requires rule.Outcome(infos).result.Ok? && rule.Outcome(infos).result.value.BasketFee?
    ensures |RuleRun(rule, infos, owner).recorded| <= 1
  {
  }

  /** A rule's run fails exactly when its limit cannot be computed, or when it
      may be applied and applying it fails. */
  lemma RuleRunError(rule: ConditionalFee, infos: seq<LineInfo>, owner: Option<UserId>)
    requires WellFormedLines(infos)
    ensures RuleRun(rule, infos, owner).error.Some? <==>
      rule.GetMaxApplications(owner).Err?
      || (rule.GetMaxApplications(owner).value > 0 && rule.Outcome(infos).result.Err?)
  {
  }

  /** A pass fails exactly when one of its runs fails. */
  lemma {:induction false} PassOfError(runs: seq<Run>, n: nat)
    requires AllSized(runs, n)
    ensures PassOf(runs, n).error.None? <==> forall k :: 0 <= k < |runs| ==> runs[k].error.None?
  {
    if runs != [] {
      var m := |runs| - 1;
      PassOfError(runs[..m], n);
      assert forall k :: 0 <= k < m ==> runs[..m][k] == runs[k];
    }
  }

  /** The results a pass records are the successful results of its rules. */
  lemma {:induction false} PassOfRecords(runs: seq<Run>, n: nat, fees: seq<ConditionalFee>)
    requires AllSized(runs, n)
    requires forall k, j :: 0 <= k < |runs| && 0 <= j < |runs[k].recorded| ==>
      runs[k].recorded[j].rule in fees && runs[k].recorded[j].result.IsSuccessful()
    ensures forall j :: 0 <= j < |PassOf(runs, n).recorded| ==>
      PassOf(runs, n).recorded[j].rule in fees && PassOf(runs, n).recorded[j].result.IsSuccessful()
  {
    if runs != [] {
      var m := |runs| - 1;
      assert forall k :: 0 <= k < m ==> runs[..m][k] == runs[k];
      PassOfRecords(runs[..m], n, fees);
    }
  }

  /** A pass of `apply_fees` records only successful results of the rules
      it was given, and fails exactly when one of the rules' runs fails. */
  lemma PassRecords(fees: seq<ConditionalFee>, infos: seq<LineInfo>, owner: Option<UserId>)
    requires WellFormedLines(infos)
    ensures var p := Pass(fees, infos, owner);
      forall j :: 0 <= j < |p.recorded| ==> p.recorded[j].rule in fees && p.recorded[j].result.IsSuccessful()
    ensures Pass(fees, infos, owner).error.None? <==>
      forall k :: 0 <= k < |fees| ==> RuleRun(fees[k], infos, owner).error.None?
  {
    var runs := RuleRuns(fees, infos, owner);
    forall k | 0 <= k < |fees|
      ensures forall j :: 0 <= j < |runs[k].recorded| ==>
        runs[k].recorded[j].rule in fees && runs[k].recorded[j].result.IsSuccessful()
    {
      RuleRunRecords(fees[k], infos, owner);
    }
    PassOfRecords(runs, |infos|, fees);
    PassOfError(runs, |infos|);
  }

  /** `get_user_fees`: no rule is linked to a user unless a subclass says so. */
  function UserFees(user: Option<UserId>): (fs: seq<ConditionalFee>) {
    []
  }

  /** `get_session_fees`: no rule is linked to a session unless a subclass
      says so. */
  function SessionFees(): (fs: seq<ConditionalFee>) {
    []
  }

  /** `get_fees`: the session's rules, then the user's, then the site's. */
  function GetFees(site: seq<ConditionalFee>, user: seq<ConditionalFee>, session: seq<ConditionalFee>)
    : (fs: seq<ConditionalFee>)
    ensures |fs| == |session| + |user| + |site|
    ensures fs[..|session|] == session
    ensures fs[|session|..|session| + |user|] == user
    ensures fs[|session| + |user|..] == site
  {
    session + user + site
  }

  /** With the default hooks, the rules applied are the site's rules. */
  lemma DefaultFeesAreSiteFees(site: seq<ConditionalFee>, user: Option<UserId>)
    ensures GetFees(site, UserFees(user), SessionFees()) == site
  {
    assert [] + [] + site == site;
  }

  /** The query of `get_site_fees`: a site rule that is open, and either has
      started and has not ended (an unset end never ends), or has no dates. */
  predicate SiteFeeSelected(r: ConditionalFee, now: int)
    reads r
  {
    && r.offerType == Site
    && r.status == Open
    && ((r.startDatetime.Some? && r.startDatetime.value <= now
         && (r.endDatetime.None? || r.endDatetime.value >= now))
        || (r.startDatetime.None? && r.endDatetime.None?))
  }

  /** The query selects the open site rules whose window contains `now`,
      except the rules that have an end date and no start date, which it
      never selects although `is_available` accepts them. */
  lemma SiteFeeWindow(r: ConditionalFee, now: int)
    ensures SiteFeeSelected(r, now) <==>
      && r.offerType == Site && r.status == Open && r.InWindow(now)
      && !(r.startDatetime.None? && r.endDatetime.Some?)
  {
  }

  /** The default ordering of the rules, `-date_created`: newest first. */
  predicate NewestFirst(s: seq<ConditionalFee>) {
    forall a, b :: 0 <= a < b < |s| ==> s[a].dateCreated >= s[b].dateCreated
  }

  /** `get_site_fees` over the stored rules, which come in the default
      ordering; the selection keeps that order. */
  function SiteFees(stored: seq<ConditionalFee>, now: int): (fs: seq<ConditionalFee>)
    reads stored
    ensures |fs| <= |stored|
    ensures forall k :: 0 <= k < |fs| ==> fs[k] in stored && SiteFeeSelected(fs[k], now)
    ensures forall k :: 0 <= k < |stored| && SiteFeeSelected(stored[k], now) ==> stored[k] in fs
    ensures NewestFirst(stored) ==> NewestFirst(fs)
  {
    if stored == [] then []
    else
      var rest := SiteFees(stored[..|stored| - 1], now);
      var r := stored[|stored| - 1];
      if SiteFeeSelected(r, now) then rest + [r] else rest
  }

  /** `apply`: gathers the rules for the basket at time `now` from the stored
      rules and applies them. */
  method Apply(basket: Basket<ConditionalFee>, stored: seq<ConditionalFee>, user: Option<UserId>, now: int)
    returns (err: Option<Error>)
    requires basket.Valid()
    modifies basket, basket.LineSet()
    ensures var p := old(Pass(GetFees(SiteFees(stored, now), UserFees(user), SessionFees()),
                              basket.Infos(), basket.owner));
      && basket.Annotated(p.effect)
      && basket.totalTest == old(basket.totalTest) + |p.recorded|
      && err == p.error
      && (err.Some? ==> basket.feeApplications == old(basket.feeApplications))
      && (err.None? ==>
            && basket.feeApplications != null && fresh(basket.feeApplications)
            && basket.feeApplications.Valid()
            && (basket.feeApplications.applications, basket.feeApplications.order)
               == Recorded(map[], [], p.recorded))
  {
    var fees := GetFees(SiteFees(stored, now), UserFees(user), SessionFees());
    err := ApplyFees(basket, fees);
  }
}
