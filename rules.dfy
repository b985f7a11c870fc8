/** The conditional fee: a stored rule joining a condition to a fee, with its
    availability window, its application limits and its usage counters. */
module Rules {
  import opened Wrappers
  import opened Results
  import opened Models
  import opened Baskets
  import opened Fees

  /** The offer types ("Site", "User", "Session"). */
  datatype OfferType = Site | User | Session

  /** The statuses ("Open", "Suspended", "Consumed"). */
  datatype Status = Open | Suspended | Consumed

  /** The hard-coded upper limit used when no other cap applies. */
  const MAX_APPLICATIONS: int := 10000

  /** The value of Python's `min` over a nonempty list. */
  function Min(s: seq<int>): (m: int)
    requires s != []
    ensures m in s && forall x :: x in s ==> m <= x
  {
    if |s| == 1 then s[0]
    else
      var m := Min(s[1..]);
      assert forall x :: x in s ==> x == s[0] || x in s[1..];
      if s[0] <= m then s[0] else m
  }

  /** What one `apply_fee` call returns and what it adds to the basket. */
  datatype Attempt = Attempt(result: Result<ApplicationResult>, effect: Effect)

  class ConditionalFee {
    const id: nat
    const name: string
    const offerType: OfferType
    const condition: Condition
    const fee: Fee
    /** Instants are modelled as integers. */
    const startDatetime: Option<int>
    const endDatetime: Option<int>
    /** `None` and `Some(0)` both mean "no limit", as Python's truthiness test reads them. */
    const maxGlobalApplications: Option<nat>
    const maxUserApplications: Option<nat>
    const maxBasketApplications: Option<nat>
    /** In cents. */
    const maxFee: Option<int>
    /** `date_created`, an instant; the default ordering is newest first. */
    const dateCreated: int

    var status: Status
    /** In cents. */
    var totalFee: int
    var numApplications: nat
    var numOrders: nat

    constructor (id: nat, name: string, offerType: OfferType, condition: Condition, fee: Fee,
                 startDatetime: Option<int>, endDatetime: Option<int>,
                 maxGlobalApplications: Option<nat>, maxUserApplications: Option<nat>,
                 maxBasketApplications: Option<nat>, maxFee: Option<int>, dateCreated: int,
                 status: Status, totalFee: int, numApplications: nat, numOrders: nat)
      ensures this.id == id && this.name == name && this.offerType == offerType
      ensures this.condition == condition && this.fee == fee
      ensures this.startDatetime == startDatetime && this.endDatetime == endDatetime
      ensures this.maxGlobalApplications == maxGlobalApplications
      ensures this.maxUserApplications == maxUserApplications
      ensures this.maxBasketApplications == maxBasketApplications && this.maxFee == maxFee
      ensures this.dateCreated == dateCreated
      ensures this.status == status && this.totalFee == totalFee
      ensures this.numApplications == numApplications && this.numOrders == numOrders
    {
      this.id := id;
      this.name := name;
      this.offerType := offerType;
      this.condition := condition;
      this.fee := fee;
      this.startDatetime := startDatetime;
      this.endDatetime := endDatetime;
      this.maxGlobalApplications := maxGlobalApplications;
      this.maxUserApplications := maxUserApplications;
      this.maxBasketApplications := maxBasketApplications;
      this.maxFee := maxFee;
      this.dateCreated := dateCreated;
      this.status := status;
      this.totalFee := totalFee;
      this.numApplications := numApplications;
      this.numOrders := numOrders;
    }

    /** The fee total has reached a (nonzero) `max_fee`. */
    predicate FeeCapReached()
      reads this
    {
      maxFee.Some? && maxFee.value != 0 && totalFee >= maxFee.value
    }

    /** The per-user limit would be consulted, which the source leaves unimplemented. */
    predicate UserLimitConsulted(user: Option<UserId>) {
      maxUserApplications.Some? && maxUserApplications.value != 0 && user.Some?
    }

    /** The global limit still open: `max(0, max_global_applications - num_applications)`. */
    function GlobalRemaining(): (g: int)
      reads this
      requires maxGlobalApplications.Some?
      ensures g >= 0 && g <= maxGlobalApplications.value
      ensures g == 0 <==> numApplications >= maxGlobalApplications.value
    {
      var g := maxGlobalApplications.value - numApplications;
      if g > 0 then g else 0
    }

    /** The caps `get_max_applications` takes the minimum of: the hard-coded
        maximum, then each limit that is set and nonzero. */
    function Caps(): (s: seq<int>)
      reads this
      ensures |s| >= 1 && s[0] == MAX_APPLICATIONS
      ensures forall k :: 0 <= k < |s| ==> s[k] >= 0
      ensures maxBasketApplications.Some? && maxBasketApplications.value != 0 ==>
        maxBasketApplications.value as int in s[1..]
      ensures maxGlobalApplications.Some? && maxGlobalApplications.value != 0 ==> GlobalRemaining() in s[1..]
      ensures forall k :: 1 <= k < |s| ==>
        (maxBasketApplications.Some? && maxBasketApplications.value != 0 && s[k] == maxBasketApplications.value)
        || (maxGlobalApplications.Some? && maxGlobalApplications.value != 0 && s[k] == GlobalRemaining())
    {
      var basket := if maxBasketApplications.Some? && maxBasketApplications.value != 0
                    then [maxBasketApplications.value as int] else [];
      var global := if maxGlobalApplications.Some? && maxGlobalApplications.value != 0
                    then [GlobalRemaining()] else [];
      assert ([MAX_APPLICATIONS] + basket + global)[1..] == basket + global;
      [MAX_APPLICATIONS] + basket + global
    }

    /** How many more times this rule may be applied to a basket of `user`. */
    function GetMaxApplications(user: Option<UserId>): (r: Result<int>)
      reads this
      ensures FeeCapReached() ==> r == Ok(0)
      ensures r.Err? <==> !FeeCapReached() && UserLimitConsulted(user)
      ensures r.Err? ==> r.error.NotImplemented?
      ensures r.Ok? ==> 0 <= r.value <= MAX_APPLICATIONS
      ensures r.Ok? && !FeeCapReached() ==>
        && (maxBasketApplications.Some? && maxBasketApplications.value != 0 ==>
              r.value <= maxBasketApplications.value)
        && (maxGlobalApplications.Some? && maxGlobalApplications.value != 0 ==>
              r.value <= GlobalRemaining())
        && (r.value == MAX_APPLICATIONS
            || (maxBasketApplications.Some? && maxBasketApplications.value != 0
                && r.value == maxBasketApplications.value)
            || (maxGlobalApplications.Some? && maxGlobalApplications.value != 0
                && r.value == GlobalRemaining()))
    {
      if FeeCapReached() then Ok(0)
      else if UserLimitConsulted(user) then Err(NotImplemented("ConditionalFee.get_num_user_applications"))
      else
        var caps := Caps();
        assert caps[0] == MAX_APPLICATIONS;
        assert maxBasketApplications.Some? && maxBasketApplications.value != 0 ==>
          caps[1] == maxBasketApplications.value && caps[1] in caps;
        assert maxGlobalApplications.Some? && maxGlobalApplications.value != 0 ==>
          caps[|caps| - 1] == GlobalRemaining() && caps[|caps| - 1] in caps;
        Ok(Min(caps))
    }

    /** Whether the last save left the status consistent with the limits: an
        unsuspended rule is consumed exactly when no application is left. */
    predicate StatusConsistent()
      reads this
    {
      status != Suspended ==> (status == Consumed <==> GetMaxApplications(None) == Ok(0))
    }

    /** `save`: recomputes an unsuspended rule's status from its limits
        (persisting the row is not modelled). */
    method Save()
      modifies this
      ensures old(status) == Suspended ==> status == Suspended
      ensures old(status) != Suspended ==>
        status == (if GetMaxApplications(None) == Ok(0) then Consumed else Open)
      ensures StatusConsistent()
      ensures totalFee == old(totalFee) && numApplications == old(numApplications)
      ensures numOrders == old(numOrders)
    {
      if status != Suspended {
        var limit := GetMaxApplications(None);
        if limit == Ok(0) {
          status := Consumed;
        } else {
          status := Open;
        }
      }
    }

    /** `clean`: rejects a window that ends before it starts. */
    function Clean(): (r: Result<()>)
      ensures r.Err? <==>
        startDatetime.Some? && endDatetime.Some? && startDatetime.value > endDatetime.value
      ensures r.Err? ==> r.error.Validation?
    {
      if startDatetime.Some? && endDatetime.Some? && startDatetime.value > endDatetime.value
      then Err(Validation("End date should be later than start date"))
      else Ok(())
    }

    method Suspend()
      modifies this
      ensures status == Suspended
      ensures totalFee == old(totalFee) && numApplications == old(numApplications)
      ensures numOrders == old(numOrders)
    {
      status := Suspended;
      Save();
    }

    method Unsuspend()
      modifies this
      ensures status == (if GetMaxApplications(None) == Ok(0) then Consumed else Open)
      ensures StatusConsistent()
      ensures totalFee == old(totalFee) && numApplications == old(numApplications)
      ensures numOrders == old(numOrders)
    {
      status := Open;
      Save();
    }

    /** The availability window holds at `t`; an unset bound does not restrict. */
    predicate InWindow(t: int) {
      (startDatetime.None? || startDatetime.value <= t)
      && (endDatetime.None? || t <= endDatetime.value)
    }

    /** `is_available(user, test_date)`; the clock is the parameter `testDate`. */
    function IsAvailable(user: Option<UserId>, testDate: int): (r: Result<bool>)
      reads this
      ensures status == Suspended ==> r == Ok(false)
      ensures !InWindow(testDate) ==> r == Ok(false)
      ensures r.Err? <==> status != Suspended && InWindow(testDate) && GetMaxApplications(user).Err?
      ensures r == Ok(true) <==>
        status != Suspended && InWindow(testDate) && GetMaxApplications(user).Ok?
        && GetMaxApplications(user).value > 0
    {
      if status == Suspended then Ok(false)
      else if (startDatetime.Some? && startDatetime.value > testDate)
              || (endDatetime.Some? && testDate > endDatetime.value) then Ok(false)
      else
        match GetMaxApplications(user)
        case Err(e) => Err(e)
        case Ok(n) => Ok(n > 0)
    }

    /** `record_usage`: adds one order's applications and amount to the
        counters and saves. */
    method RecordUsage(freq: nat, amount: int)
      modifies this
      ensures numApplications == old(numApplications) + freq
      ensures totalFee == old(totalFee) + amount
      ensures numOrders == old(numOrders) + 1
      ensures old(status) == Suspended ==> status == Suspended
      ensures old(status) != Suspended ==>
        status == (if GetMaxApplications(None) == Ok(0) then Consumed else Open)
      ensures StatusConsistent()
    {
      numApplications := numApplications + freq;
      totalFee := totalFee + amount;
      numOrders := numOrders + 1;
      Save();
    }

    /** What `apply_fee` does, on values: a condition that is not satisfied
        gives the zero fee; otherwise the fee's proxy class applies itself. */
    function Outcome(infos: seq<LineInfo>): (a: Attempt)
      requires WellFormedLines(infos)
      ensures Sized(a.effect, |infos|)
    {
      match ConditionProxy(condition)
      case Err(e) => Attempt(Err(e), NoEffect(|infos|))
      case Ok(c) =>
        if !c.isSatisfied(infos) then Attempt(Ok(ZeroFee), NoEffect(|infos|))
        else
          match FeeProxy(fee)
          case Err(e) => Attempt(Err(e), NoEffect(|infos|))
          case Ok(f) => Dispatch(infos, f, c)
    }

    /** The `apply` of the fee's proxy class. */
    static function Dispatch(infos: seq<LineInfo>, f: Fee, c: Condition): (a: Attempt)
      requires WellFormedLines(infos)
      ensures Sized(a.effect, |infos|)
    {
      if f.cls.PercentageFee? then Attempt(PercentageApply(infos, f, c), NoEffect(|infos|))
      else if f.cls.AbsoluteFee? then
        Attempt(AbsoluteResult(infos, f, c, None, None), AbsoluteEffect(infos, f, c, None, None))
      else if f.proxyClass.Some? && f.proxyClass.value.apply.Some? then
        Attempt(Ok(f.proxyClass.value.apply.value(infos, c)), NoEffect(|infos|))
      else Attempt(BaseApply(f, c), NoEffect(|infos|))
    }

    /** `apply_fee`. */
    method ApplyFee<R>(basket: Basket<R>) returns (r: Result<ApplicationResult>)
      requires basket.Valid()
      modifies basket, basket.LineSet()
      ensures r == Outcome(basket.Infos()).result
      ensures basket.Annotated(Outcome(basket.Infos()).effect)
      ensures basket.Current() == Annotate(old(basket.Current()), Outcome(basket.Infos()).effect)
      ensures basket.totalTest == old(basket.totalTest)
      ensures basket.feeApplications == old(basket.feeApplications)
    {
      var infos := basket.Infos();
      var satisfied := ConditionProxy(condition);
      var f := FeeProxy(fee);
      if satisfied.Err? {
        r := Err(satisfied.error);
      } else if !satisfied.value.isSatisfied(infos) {
        r := Ok(ZeroFee);
      } else if f.Err? {
        r := Err(f.error);
      } else {
        var c := ConditionProxy(condition).value;
        if f.value.cls.PercentageFee? {
          r := PercentageApply(infos, f.value, c);
        } else if f.value.cls.AbsoluteFee? {
          r := AbsoluteApply(basket, f.value, c, None, None);
        } else if f.value.proxyClass.Some? && f.value.proxyClass.value.apply.Some? {
          r := Ok(f.value.proxyClass.value.apply.value(infos, c));
        } else {
          r := BaseApply(f.value, c);
        }
      }
      if !(satisfied.Ok? && satisfied.value.isSatisfied(infos) && f.Ok? && f.value.cls.AbsoluteFee?) {
        NothingAnnotated(basket);
      }
      ghost var e := Outcome(infos).effect;
      basket.AnnotatedCurrent(e);
    }
  }

  /** With no user the limit is always known: `save` never meets the
      unimplemented per-user count. */
  lemma AnonymousLimitKnown(r: ConditionalFee)
    ensures r.GetMaxApplications(None).Ok?
  {
  }

  /** More recorded usage never opens more applications: the limit is
      antitone in both counters. */
  lemma MoreUsageFewerApplications(a: ConditionalFee, b: ConditionalFee, user: Option<UserId>)
    requires a.maxGlobalApplications == b.maxGlobalApplications
    requires a.maxUserApplications == b.maxUserApplications
    requires a.maxBasketApplications == b.maxBasketApplications
    requires a.maxFee == b.maxFee
    requires a.numApplications <= b.numApplications && a.totalFee <= b.totalFee
    requires a.GetMaxApplications(user).Ok? && b.GetMaxApplications(user).Ok?
    ensures b.GetMaxApplications(user).value <= a.GetMaxApplications(user).value
  {
    if !b.FeeCapReached() {
      var ca, cb := a.Caps(), b.Caps();
      assert |ca| == |cb|;
      forall k | 0 <= k < |cb| ensures cb[k] <= ca[k] {
      }
      var m := a.GetMaxApplications(user).value;
      assert m in ca;
      var k :| 0 <= k < |ca| && ca[k] == m;
      assert cb[k] in cb;
    }
  }

  /** An available rule has an application left, and one outside its window
      or suspended is never available. */
  lemma AvailableMeansApplicable(r: ConditionalFee, user: Option<UserId>, t: int)
    requires r.IsAvailable(user, t) == Ok(true)
    ensures r.status != Suspended && r.InWindow(t)
    ensures r.GetMaxApplications(user).Ok? && r.GetMaxApplications(user).value > 0
    ensures !r.FeeCapReached()
  {
  }

  /** A condition that proxies to a satisfied one and a fee that proxies to
      the absolute class give `AbsoluteFee.apply`'s outcome, with the rule's
      own fee value as the amount and the condition's range, else the fee's,
      as the range. */
  lemma AbsoluteOutcome(r: ConditionalFee, infos: seq<LineInfo>)
    requires WellFormedLines(infos)
    requires ConditionProxy(r.condition).Ok? && ConditionProxy(r.condition).value.isSatisfied(infos)
    requires FeeProxy(r.fee) == Ok(r.fee.(cls := AbsoluteFee))
    ensures var sel := FeeApplicableLines(r.fee, infos, r.condition.range);
      r.fee.value.Some? && r.fee.value.value != 0 && sel.Ok? && sel.value != [] && r.condition.value.Some? ==>
        r.Outcome(infos).result == Ok(BasketFee(r.fee.value.value))
    ensures var sel := FeeApplicableLines(r.fee, infos, r.condition.range);
      r.fee.value == Some(0) || sel == Ok([]) ==>
        r.Outcome(infos) == Attempt(Ok(ZeroFee), NoEffect(|infos|))
    ensures var sel := FeeApplicableLines(r.fee, infos, r.condition.range);
      r.fee.value != Some(0) && (sel.Err? || (sel.value != [] && (r.fee.value.None? || r.condition.value.None?))) ==>
        r.Outcome(infos).result.Err? && r.Outcome(infos).effect == NoEffect(|infos|)
  {
  }
}
