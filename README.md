# django-oscar-fees fee engine, modelled in Dafny

This project models the fee engine of django-oscar-fees, a fee plug-in for the
Oscar e-commerce framework. A *conditional fee* is a stored rule that joins
three things:

- a *condition* (Count, Value or Coverage) over a product range;
- a *fee* (Percentage or Absolute);
- an availability window, application limits and usage counters.

The *applicator* picks the rules for a basket. It applies each rule
repeatedly, within the rule's limit, and records each successful result in a
fresh per-pass ledger (`FeeApplications`), which it attaches to the basket.

An absolute fee works in three steps:

1. It selects the applicable basket lines, cheapest first.
2. It covers whole lines until the condition's count is reached.
3. It splits its amount over the covered lines. Every line but the last gets
   its share rounded down to the cent, and the last line gets what remains.

It writes those fragments onto the lines and the amount onto the basket.

Modules, in dependency order:

- `Wrappers` (wrappers.dfy): `Option`, `Result` and the error kinds the code
  raises (`NotImplementedError`, `RuntimeError`, `ValidationError`, and the
  `TypeError` and `AttributeError` that Python raises on a `None`).
- `Results` (results.dfy): application results, `ZERO_FEE`, and the
  `FeeApplications` ledger, as a class whose dictionary is a `map` field.
- `Models` (models.dfy): the value parts of `django_oscar_fees/models.py`.
  These are conditions and fee definitions with their `proxy` resolution, the
  base `Fee.apply`, `Fee.round`, and `Fee.get_applicable_lines`, which is a
  filter followed by a stable sort on price.
- `Baskets` (baskets.dfy): the parts of Oscar's basket and line that the
  engine reads, and the transient annotations it writes on them. These are
  classes with mutable fields. It also holds `Effect`, a value that describes
  what a sequence of applications adds to those annotations.
- `Fees` (fees.py, the same code as `django_oscar_fees/fees.py`): the
  in-place annotation helpers and `AbsoluteFee.apply`. The covering loop and
  the allocation loop are methods with loop invariants. Each is proved
  against a value-level specification (`CoverOf`, `Fragments`, `Distribute`,
  `AbsoluteEffect`).
- `Rules` (`django_oscar_fees/models.py`, `ConditionalFee`): a class whose
  `status` and counters are mutable fields. It holds `get_max_applications`,
  `is_available`, `save`, `clean`, `suspend`, `unsuspend`, `record_usage`
  and `apply_fee`.
- `Applicator` (`django_oscar_fees/applicator.py`): `apply`, `apply_fees`
  with its nested loops, `get_fees` and the site-rule query. The loops are
  proved against `RuleRun` / `Pass`, a value-level account of one rule's
  repetition and of the whole pass.

Representation choices:

- Money is an integer number of cents. `Decimal.quantize(D('.01'), ROUND_DOWN)`
  is truncation toward zero (`Models.TruncDiv`).
- A condition's `value` has two decimal places and is held in hundredths, so
  `int(condition.value)` is `TruncDiv(value, 100)`.
- Time instants are integers. The current time is a parameter (`testDate`,
  `now`).
- Product-range membership (`Range.contains`) and condition satisfaction
  (`is_satisfied`, whose module is not part of this repository) are given
  functions.
- A custom fee class named by `proxy_class` is given as what loading it
  yields: its own `apply` as a function from lines and condition to a result,
  or nothing when it inherits `Fee.apply`. Any custom result class becomes
  `ApplicationResult.Other`, described by the three attributes the
  applicator reads.
- Dynamic loading of a class that cannot be imported is not modelled.
- Python exceptions are `Result.Err` values that stop the enclosing operation
  at the same point the exception would.
- The nullable columns are `Option`s: a fee's `value` and `range`
  (`django_oscar_fees/models.py:401-406,420-421`), and a condition's `value`
  and `range`. `Fee.get_applicable_lines` falls back to the fee's own range
  when the condition has none (`django_oscar_fees/models.py:506-507`). With
  neither, the first line's `range.contains` raises `AttributeError`.
  Arithmetic on a missing value (`max(None, 0)`, `min(None, cap)`,
  `int(None)`, `None * q`) raises `TypeError`.
- `AbsoluteFee.apply` tests whether the condition is Oscar's
  `CoverageCondition` (`django_oscar_fees/fees.py:5,123`). `Condition.proxy`
  builds its variants from the package's own `conditions` module
  (`django_oscar_fees/models.py:362-367`), which is not part of this
  repository. `Fees.IsOscarCoverage` assumes that the package's
  `CoverageCondition` is Oscar's class, or a subclass of it, and that no other
  condition class is.

Notes on the code:

- `ZERO_FEE` is a `BasketFee` and therefore final (results.py:118,135).
- The line at which the running count reaches `int(condition.value)` is
  covered with its whole quantity (`django_oscar_fees/fees.py:122-131`).
- A rule is recorded at most once per pass when its fee yields a `BasketFee`,
  because every `BasketFee` is final (`django_oscar_fees/applicator.py:37-38`).

## Model

The top-level fees.py is a byte-for-byte copy of `django_oscar_fees/fees.py`.
The rows for `Fees` cite the latter, and the same line numbers hold in the
copy.

| member | source | states |
|---|---|---|
| Results.BaseResultOutcome | results.py:108-111 | a plain result is neither successful nor final, and its fee is 0 |
| Results.BasketFeeOutcome | results.py:114-125 | `BasketFee(a)` is successful iff a > 0, is always final, and carries a |
| Results.ZeroFeeOutcome | results.py:134-135 | `ZERO_FEE` carries 0, is unsuccessful and is final |
| Results.WithAdded | results.py:23-33 | adding a result for an id adds that id to the keys. A known id's entry gets freq + 1 and amount + fee, and keeps its first rule, result and name. An unseen id starts from freq 0 and amount 0. Every other id's entry is unchanged |
| Results.FeeApplications.constructor | results.py:14-15 | a new ledger is empty |
| Results.FeeApplications.Add | results.py:23-33 | `add` updates the dictionary as `WithAdded` says and appends an unseen id to the insertion order, keeping the ledger invariant (distinct order, the same keys) |
| Results.FeeApplications.Len | results.py:20-21 | `len` is the number of distinct ids ever added |
| Results.FeeApplications.Fees | results.py:35-44 | the loop returns the entries, in insertion order, whose amount is positive (`Positive`) |
| Results.Positive | results.py:40-44 | every listed entry has a positive amount, and there are no more entries than ids |
| Results.PositiveMembers | results.py:40-44 | an entry is listed iff it belongs to an id in the ledger and its amount is positive |
| Models.TruncDiv | django_oscar_fees/models.py:526-532 | rounding toward zero keeps the sign of the exact amount |
| Models.RoundBounds | django_oscar_fees/models.py:526-532 | `round` lies within one cent of the exact amount, never further from zero than it |
| Models.Round | django_oscar_fees/models.py:526-532 | the default `round` keeps the sign of the exact amount (its bounds are `RoundBounds`) |
| Models.ConditionProxy | django_oscar_fees/models.py:358-386 | a variant is returned unchanged. Otherwise a nonempty proxy class wins over the type tag and gives that custom class. In every case the result keeps every field and only changes the class. It fails (RuntimeError) exactly when there is no variant, no proxy class and no known type tag |
| Models.ConditionProxyIdempotent | django_oscar_fees/models.py:369-383 | proxying a proxied condition gives it back |
| Models.ConditionProxyByTag | django_oscar_fees/models.py:384-385 | with no proxy class, the tags Count, Value and Coverage give their variants |
| Models.FeeProxy | django_oscar_fees/models.py:434-459 | a variant is returned unchanged. Otherwise a proxy class wins over the type tag and gives the custom class it names. In every case only the class changes. It fails exactly when there is no variant, no proxy class and no known tag |
| Models.FeeProxyIdempotent | django_oscar_fees/models.py:441-454 | proxying a proxied fee gives it back |
| Models.FeeProxyByTag | django_oscar_fees/models.py:450-459 | with no proxy class, Percentage and Absolute give their variants, and any other tag is rejected |
| Models.BaseApply | django_oscar_fees/models.py:482-489 | the base `apply` returns `ZERO_FEE` for a Value condition. Otherwise it raises TypeError exactly when the fee has no value, and returns a final basket fee of `max(value, 0)`, successful iff the value is positive |
| Models.CandidatesFrom | django_oscar_fees/models.py:509-521 | the kept lines are exactly the lines in range with a nonzero price and a nonzero undiscounted quantity, in basket order |
| Models.SortByPrice | django_oscar_fees/models.py:523-524 | the sort is a permutation and is ordered by price, with ties in basket order (a stable sort) |
| Models.InsertSorted | django_oscar_fees/models.py:523-524 | inserting a new line into a sorted selection keeps it sorted |
| Models.ApplicableLines | django_oscar_fees/models.py:498-524 | `get_applicable_lines` returns exactly the applicable lines, each once, cheapest first, with ties in basket order |
| Models.FeeApplicableLines | django_oscar_fees/models.py:498-512 | the condition's range is used, else the fee's own. With either, the selection is `ApplicableLines`. With neither, a nonempty basket raises AttributeError and an empty one selects nothing |
| Models.SortedOrder | django_oscar_fees/models.py:523-524 | a selection so sorted holds distinct lines with nondecreasing prices |
| Baskets.Line.constructor | django_oscar_fees/fees.py:20-24 | a line's fee annotations read as zero until first written |
| Baskets.Basket.constructor | django_oscar_fees/fees.py:35-39 | a basket's fee total reads as zero and its list of fees as empty until first written |
| Baskets.AnnotateCombine | django_oscar_fees/fees.py:26-28 | annotations accumulate: adding two effects in turn is adding their combination |
| Fees.ApplyFeeToLine | django_oscar_fees/fees.py:16-28 | `apply_fee_to_line` adds the fragment and the quantity to the line's annotations |
| Fees.ChargeLine | django_oscar_fees/fees.py:144 | annotating one covered line changes that line's annotations by its fragment and quantity, and no other line's |
| Fees.ApplyFeeToBasket | django_oscar_fees/fees.py:31-44 | `apply_fee_to_basket` appends the fee once and adds the amount to the basket total, changing nothing else |
| Fees.PercentageApply | django_oscar_fees/fees.py:71-73 | `PercentageFee.apply` always raises NotImplementedError |
| Fees.NumPermitted | django_oscar_fees/fees.py:118 | `int(condition.value)` from hundredths is cut toward zero: within one unit of the exact value, never further from zero |
| Fees.IsOscarCoverage | django_oscar_fees/fees.py:123 | definition: the `isinstance` test for Oscar's coverage condition, under the assumption stated above |
| Fees.EffectiveAmount | django_oscar_fees/fees.py:102-106 | the amount defaults to the fee's value. A cap, when given, bounds it and is taken when it is lower. A cap on a missing amount raises TypeError, and nothing else does |
| Fees.AffectedQuantities | django_oscar_fees/fees.py:123-126 | each selected line contributes one unit for a Coverage condition and its whole quantity otherwise, so at least one unit |
| Fees.CoveredCount | django_oscar_fees/fees.py:118-131 | covering stops at the first line whose running count reaches the permitted number, or at the last line |
| Fees.CoveredCountUnique | django_oscar_fees/fees.py:127-131 | that stopping line is the only one satisfying the stopping rule |
| Fees.CoverNotYet | django_oscar_fees/fees.py:127-131 | covering goes on past an empty prefix or one still below the permitted number |
| Fees.CoverStopped | django_oscar_fees/fees.py:127-131 | covering stops at the first prefix that reaches the permitted number, or at the end of the selection |
| Fees.CoverWith | django_oscar_fees/fees.py:118-131 | the covering for a coverage flag and a permitted number is a nonempty prefix of the selection, each covered line a basket line contributing at least one unit |
| Fees.CoverOf | django_oscar_fees/fees.py:118-131 | the covering of a condition, with `int(condition.value)` permitted units, has the same shape as `CoverWith` |
| Fees.CoverLines | django_oscar_fees/fees.py:116-131 | the covering loop yields the covered lines and their quantities as `CoverWith` says, and their total, which is positive |
| Fees.CoveringPrefix | django_oscar_fees/fees.py:122-131 | the covered lines are a nonempty prefix of the selection, and their quantities are the matching prefix of the per-line units |
| Fees.CoveringLines | django_oscar_fees/fees.py:122-129 | the covered lines are distinct basket lines, each contributing at least one unit |
| Fees.Fragments | django_oscar_fees/fees.py:135-145 | definition of the per-line fees, one per covered line. `FragmentsShape`, `FragmentsSumToAmount` and `FragmentsNonNegative` state its properties |
| Fees.FragmentsShape | django_oscar_fees/fees.py:136-143 | every fragment but the last is the rounded share, and the last is the amount minus the fragments before it |
| Fees.FragmentsSumToAmount | django_oscar_fees/fees.py:135-145 | the fragments add up to the fee amount exactly |
| Fees.FragmentsNonNegative | django_oscar_fees/fees.py:135-145 | with a nonnegative amount every fragment, the last remainder included, lies between 0 and the amount |
| Fees.DistributeAt | django_oscar_fees/fees.py:137-145 | over distinct lines, each covered line receives exactly its fragment and an uncovered line nothing |
| Fees.AllocationStep | django_oscar_fees/fees.py:138-145 | the fee the loop computes for a covered line is its fragment, whether it is the last line or not, and the running sum extends by that fragment |
| Fees.AllocateLine | django_oscar_fees/fees.py:137-145 | one iteration of the allocation loop returns the line's fragment and moves the annotations on by that one line |
| Fees.AllocateFee | django_oscar_fees/fees.py:133-145 | the allocation loop adds each covered line's fragment and quantity to that line and changes no other line |
| Fees.ChargeCovered | django_oscar_fees/fees.py:133-147 | the covered lines get their fragments and the basket gets the amount and the fee once (`CoverEffect`) |
| Fees.CoverEffect | django_oscar_fees/fees.py:133-147 | definition of what charging the covered lines adds. Its effect covers exactly the basket's lines |
| Fees.AbsoluteResult | django_oscar_fees/fees.py:100-148 | definition of what `AbsoluteFee.apply` returns, in the source's order: a cap on a missing amount, a zero amount, a failed selection, an empty selection, a missing condition value, a missing amount, otherwise `BasketFee(amount)` |
| Fees.Charges | django_oscar_fees/fees.py:100-148 | definition: the amount is known and nonzero, the selection succeeded and is nonempty, and the condition has a value |
| Fees.AbsoluteEffect | django_oscar_fees/fees.py:100-148 | definition of what `AbsoluteFee.apply` annotates. Nothing unless it charges, otherwise the covering's `CoverEffect` |
| Fees.AbsoluteCharges | django_oscar_fees/fees.py:108-148 | the fee charges exactly when it returns a nonzero result, and that result is `BasketFee(amount)`. When it does not charge, nothing is annotated |
| Fees.AbsoluteMissingValues | django_oscar_fees/fees.py:100-143 | a cap on a missing amount, a missing range on a nonempty basket, and a missing condition or fee value on a nonempty selection each raise (TypeError, AttributeError, TypeError) |
| Fees.SelectionAdmissible | django_oscar_fees/fees.py:111-114 | a successful selection holds distinct well-formed lines with a nonzero undiscounted quantity |
| Fees.AbsoluteEffectCovered | django_oscar_fees/fees.py:111-147 | when the fee charges, the selection is admissible and nonempty and the condition has a value. The change is then the covering's fragments and quantities on distinct lines |
| Fees.AbsoluteApply | django_oscar_fees/fees.py:100-148 | `AbsoluteFee.apply` returns what `AbsoluteResult` says, in the source's order of checks and errors, and annotates exactly as `AbsoluteEffect` says. It leaves `total_test` and the ledger alone |
| Fees.ApplyToSelection | django_oscar_fees/fees.py:116-147 | with an amount to charge, a nonempty admissible selection and a condition value, the annotations change by the covering's `CoverEffect` |
| Fees.ApplicableAdmissible | django_oscar_fees/models.py:498-524 | the selection holds distinct well-formed lines with a nonzero undiscounted quantity |
| Rules.Min | django_oscar_fees/models.py:228 | `min` returns a member of the list that is no larger than any member |
| Rules.ConditionalFee.FeeCapReached | django_oscar_fees/models.py:214-215 | definition: a nonzero fee cap is set and the fee total has reached it. `GetMaxApplications` states its consequence |
| Rules.ConditionalFee.GlobalRemaining | django_oscar_fees/models.py:225-227 | the remaining global allowance is between 0 and the global limit, and 0 exactly when the limit is used up |
| Rules.ConditionalFee.Caps | django_oscar_fees/models.py:219-227 | the list starts with 10000, holds only nonnegative values, and holds each set nonzero basket or global limit and nothing else |
| Rules.ConditionalFee.GetMaxApplications | django_oscar_fees/models.py:209-228 | a reached nonzero fee cap gives 0. With a per-user limit and a user it raises NotImplementedError. Otherwise the result lies in [0, 10000], is no more than each set nonzero limit, and is 10000 or one of those limits |
| Rules.AnonymousLimitKnown | django_oscar_fees/models.py:219-222 | without a user the limit is always computed, so `save` never raises |
| Rules.MoreUsageFewerApplications | django_oscar_fees/models.py:209-228 | more applications or a larger fee total never raise the limit |
| Rules.ConditionalFee.Save | django_oscar_fees/models.py:135-141 | `save` leaves a suspended rule suspended. Otherwise the status is Consumed iff no application is left, else Open. The counters are unchanged |
| Rules.ConditionalFee.Clean | django_oscar_fees/models.py:151-155 | `clean` raises ValidationError exactly when both dates are set and the start is after the end |
| Rules.ConditionalFee.Suspend | django_oscar_fees/models.py:165-168 | `suspend` gives Suspended and keeps the counters |
| Rules.ConditionalFee.Unsuspend | django_oscar_fees/models.py:170-173 | `unsuspend` reopens the rule and then recomputes the status, so it may give Consumed |
| Rules.ConditionalFee.InWindow | django_oscar_fees/models.py:183-189 | definition: each set bound holds, inclusively. `IsAvailable` and `SiteFeeWindow` state its consequences |
| Rules.ConditionalFee.IsAvailable | django_oscar_fees/models.py:175-190 | a suspended rule, or one outside its inclusive window, is unavailable. Otherwise availability is "an application is left" and fails when the limit does |
| Rules.AvailableMeansApplicable | django_oscar_fees/models.py:175-190 | an available rule is unsuspended, in its window, and has an application left |
| Rules.ConditionalFee.RecordUsage | django_oscar_fees/models.py:241-245 | `record_usage` adds the frequency to the applications, the amount to the fee total and 1 to the orders. A suspended rule stays suspended. Otherwise the status becomes Consumed iff the new anonymous limit is 0, else Open |
| Rules.ConditionalFee.ApplyFee | django_oscar_fees/models.py:201-207 | `apply_fee` returns `ZERO_FEE` with no change when the condition is not met. Otherwise it returns the fee class's result and changes the annotations by exactly that outcome's effect, leaving the ledger alone |
| Rules.ConditionalFee.Outcome | django_oscar_fees/models.py:201-207 | definition of what `apply_fee` returns and adds, on values. Its effect covers exactly the basket's lines, and `ApplyFee` is proved against it |
| Rules.ConditionalFee.Dispatch | django_oscar_fees/models.py:207 | definition of the fee class's `apply`: Percentage, Absolute, a custom class's own `apply`, or the base `apply`. Its effect covers exactly the basket's lines |
| Rules.AbsoluteOutcome | django_oscar_fees/models.py:201-207 | with a satisfied condition and an absolute fee: a nonzero fee value with a nonempty selection and a condition value charges that value. A zero value or an empty selection is `ZERO_FEE` with no change. A failed selection or a missing value on a nonempty selection raises before any change |
| Applicator.ApplyAgain | django_oscar_fees/applicator.py:30-31 | `k + 1` calls of `apply_fee` add the call's effect `k + 1` times |
| Applicator.RecordApplication | django_oscar_fees/applicator.py:35-36 | a successful result is added to the ledger once and `total_test` rises by exactly 1 |
| Applicator.RecordedAppend | django_oscar_fees/applicator.py:35 | recording two batches in turn is recording them together |
| Applicator.RunOf | django_oscar_fees/applicator.py:25-38 | definition of the inner loop for given limit and outcome: no call for a failed or nonpositive limit, one call for a failing, unsuccessful or final result, otherwise `limit` calls. Its effect covers the basket's lines. `RunOfExhausted` and `RunOfStoppedFirst` state its cases |
| Applicator.RuleRun | django_oscar_fees/applicator.py:24-38 | definition of one rule's inner loop on the basket's lines. The `RuleRun` lemmas state its properties |
| Applicator.PassOf | django_oscar_fees/applicator.py:22-42 | definition of the runs in sequence, stopping after the first failure. `PassStep`, `PassStopped` and `PassOfError` state its properties |
| Applicator.Pass | django_oscar_fees/applicator.py:22-42 | definition of `apply_fees` on values: the pass of the rules' runs, in order. Its effect covers exactly the basket's lines |
| Applicator.RecordIfSuccessful | django_oscar_fees/applicator.py:32-36 | a successful result extends the ledger's records by one and raises `total_test` by 1. Any other result changes neither |
| Applicator.RunOfExhausted | django_oscar_fees/applicator.py:29-38 | a rule applied up to its limit, succeeding and never final, runs `limit` times and records every result |
| Applicator.RunOfStoppedFirst | django_oscar_fees/applicator.py:29-38 | a failing, unsuccessful or final first result ends the rule after one call. It is recorded only if it is a success |
| Applicator.ApplyWithinLimit | django_oscar_fees/applicator.py:29-38 | the inner `while` loop changes the annotations, `total_test`, the ledger and the error exactly as the rule's `RuleRun` says |
| Applicator.ApplyRepeatedly | django_oscar_fees/applicator.py:24-38 | one rule's repetition, its limit's failure included, behaves as `RuleRun` says |
| Applicator.ApplyRule | django_oscar_fees/applicator.py:24-38 | one rule of the pass extends the annotations, `total_test`, the records and the error by that rule's `RuleRun` |
| Applicator.RuleRunCalls | django_oscar_fees/applicator.py:29-31 | `apply_fee` is never called when the limit fails or is not positive. It is called at least once and at most `limit` times otherwise, so never more than 10000 times |
| Applicator.RuleRunRecords | django_oscar_fees/applicator.py:32-36 | only successful results of the rule are recorded, at most one per call |
| Applicator.RuleRunUnsuccessful | django_oscar_fees/applicator.py:32-33 | an unsuccessful result ends the rule after one call, unrecorded and without error |
| Applicator.RuleRunFinal | django_oscar_fees/applicator.py:35-38 | a successful final result is recorded once and ends the rule |
| Applicator.RuleRunBasketFeeOnce | django_oscar_fees/applicator.py:37-38 | a rule whose application yields a `BasketFee`, always final, is recorded at most once per pass |
| Applicator.RuleRunError | django_oscar_fees/applicator.py:29-30 | a rule's run fails exactly when its limit fails, or when it may be applied and the application fails |
| Applicator.PassStep | django_oscar_fees/applicator.py:24-38 | a pass that has not failed extends by the next rule's run |
| Applicator.PassStopped | django_oscar_fees/applicator.py:22-42 | once a rule has failed, the later rules add nothing |
| Applicator.PassOfError | django_oscar_fees/applicator.py:22-42 | a pass fails exactly when one of its rules' runs fails |
| Applicator.PassRecords | django_oscar_fees/applicator.py:22-42 | a pass records only successful results of the rules it was given, and succeeds iff every rule's run does |
| Applicator.ApplyPass | django_oscar_fees/applicator.py:23-39 | the loop over the rules changes the annotations, `total_test`, the error and a fresh ledger exactly as `Pass` says, keeping the attached ledger |
| Applicator.ApplyFees | django_oscar_fees/applicator.py:22-42 | `apply_fees` changes the annotations and `total_test` as `Pass` says. On success it attaches a fresh ledger holding exactly the recorded results. On failure it returns the error and keeps the old ledger |
| Applicator.GetFees | django_oscar_fees/applicator.py:44-56 | `get_fees` lists the session's rules, then the user's, then the site's |
| Applicator.UserFees | django_oscar_fees/applicator.py:79-85 | definition: the default hook links no rule to a user. `DefaultFeesAreSiteFees` states its consequence |
| Applicator.SessionFees | django_oscar_fees/applicator.py:87-93 | definition: the default hook links no rule to a session. `DefaultFeesAreSiteFees` states its consequence |
| Applicator.DefaultFeesAreSiteFees | django_oscar_fees/applicator.py:79-93 | with the default hooks (no user or session rules), the rules applied are the site's |
| Applicator.SiteFeeSelected | django_oscar_fees/applicator.py:62-73 | definition of the query: an open site rule that has started and not ended, or that has no dates. `SiteFeeWindow` relates it to the window |
| Applicator.NewestFirst | django_oscar_fees/models.py:129-131 | definition of the default ordering `-date_created`: newest first |
| Applicator.SiteFeeWindow | django_oscar_fees/applicator.py:58-73 | the site query picks exactly the open site rules whose inclusive window contains now, except rules with an end date and no start date, which are never picked |
| Applicator.SiteFees | django_oscar_fees/applicator.py:58-77 | every rule returned is stored and selected, and every stored rule selected is returned. Stored rules in the default newest-first order stay in that order |
| Applicator.Apply | django_oscar_fees/applicator.py:15-20 | `apply` runs `apply_fees` over the rules of `get_fees` at the given time |

## Left out

- Persistence and the ORM: field declarations, querysets, managers (`django_oscar_fees/managers.py`), `FeeLine`, `OrderFee`, and the database write inside `save`. `Save` only recomputes the status.
- Sorting by `date_created`: the stored rules are given in the default ordering `-date_created`, newest first (`django_oscar_fees/models.py:131`). `SiteFees` keeps whatever order it is given and proves that it keeps newest-first order (`NewestFirst`), but it does not sort. `select_related` is a fetching hint with no effect on the result.
- Middleware, application config, signals, admin registration and packaging (`middleware.py`, `config.py`, `signals.py`, `admin.py`, `setup.py`, both copies). They are framework plumbing.
- The order-total mixins (`mixins.py`, both copies). They override an Oscar method that is not part of this repository.
- The ledger views (results.py:46-105). `voucher_discounts`, `grouped_voucher_discounts` and `offers` read the keys `voucher`, `discount` and `offer`, which `add` never stores, so they raise KeyError on a nonempty ledger. `shipping_discounts` and `post_order_actions` read `affects_shipping` and `affects_post_order` of the stored result, which this package's result classes do not define. On an empty ledger all five return empty. None of the code modelled here calls them.
- `ConditionalFee.shipping_discount`, which calls an attribute that does not exist.
- Display text: `name`, `description`, availability descriptions, currency formatting and translation, and the `description` key of a ledger entry.
- The `print` in `apply_fee_to_basket` is output only.
- The `OSCAR_OFFER_ROUNDING_FUNCTION` setting: only the default ROUND_DOWN rounding is modelled.
- Loading a custom class by its dotted path: a proxy class is given as what loading it yields.
- The clock: `now()` is a parameter.
- `Decimal` context precision: `fee * q / num_affected` is taken as an exact rational before truncation to the cent.
- `ConditionalFee.get_num_user_applications` always raises. That is modelled as the NotImplementedError of `GetMaxApplications`, and the unreachable query after the raise is left out.
- `Rules.ConditionalFee.RecordUsage`: takes the frequency and the amount as values. The source reads `fee['freq']` and `fee['fee']` from a dictionary, and this repository has no caller that builds such a dictionary.
- `Rules.ConditionalFee.ApplyFee`: a custom fee class's own `apply` is modelled as returning a result without touching the basket's annotations. Its code is not part of this repository.
- `Applicator.ApplyRepeatedly`: computes the rule's limit once, where the source re-evaluates `get_max_applications` before every iteration. Nothing inside the loop changes the rule (`apply_fee` writes only the basket and its lines, and `add` only the ledger), so the value is the same each time.
- `is_condition_partially_satisfied` and `get_upsell_message` delegate to the condition module, which is not part of this repository.
- `Fee.clean`: it dispatches by name to type-specific methods that no class here defines.
- `Condition.can_apply_condition`: it needs stock records, which this model does not include.
- `request`: the session's hook takes a request, which is not modelled. The default hooks return no rules.
