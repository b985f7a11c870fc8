/** Application results and the per-pass ledger of fee applications. */
module Results {

  /** The outcome of applying one conditional fee once. `Base` is the plain
      result class, `BasketFee` the "simple fee on the basket" result, and
      `Other` a result class supplied by a custom fee class outside this
      repository, described only by the three attributes the applicator reads. */
  datatype ApplicationResult =
    | Base
    | BasketFee(amount: int)
    | Other(fee: int, successful: bool, final: bool)
  {
    predicate IsSuccessful() {
      match this
      case Base => false
      case BasketFee(a) => a > 0
      case Other(_, s, _) => s
    }

    predicate IsFinal() {
      match this
      case Base => false
      case BasketFee(_) => true
      case Other(_, _, f) => f
    }

    /** The `fee` attribute: the money amount carried, in cents. */
    function Amount(): (a: int) {
      match this
      case Base => 0
      case BasketFee(a) => a
      case Other(f, _, _) => f
    }
  }

  /** The shared zero result. */
  const ZeroFee: ApplicationResult := BasketFee(0)

  lemma BaseResultOutcome()
    ensures !Base.IsSuccessful() && !Base.IsFinal() && Base.Amount() == 0
  {
  }

  lemma BasketFeeOutcome(a: int)
    ensures BasketFee(a).IsSuccessful() <==> a > 0
    ensures BasketFee(a).IsFinal()
    ensures BasketFee(a).Amount() == a
  {
  }

  lemma ZeroFeeOutcome()
    ensures ZeroFee.Amount() == 0 && !ZeroFee.IsSuccessful() && ZeroFee.IsFinal()
  {
  }

  /** One dictionary value of the ledger: the rule that produced it, the first
      result seen for it, the rule's name, how many times it was applied and
      the total amount. */
  datatype Entry<R> = Entry(fee: R, result: ApplicationResult, name: string, freq: nat, amount: int)

  /** The dictionary after recording `result` for rule `id`. */
  function WithAdded<R>(apps: map<nat, Entry<R>>, id: nat, name: string, fee: R, result: ApplicationResult)
    : (m: map<nat, Entry<R>>)
    ensures m.Keys == apps.Keys + {id}
    ensures id in apps ==>
      m[id].freq == apps[id].freq + 1 && m[id].amount == apps[id].amount + result.Amount()
      && m[id].fee == apps[id].fee && m[id].result == apps[id].result && m[id].name == apps[id].name
    ensures id !in apps ==> m[id] == Entry(fee, result, name, 1, result.Amount())
    ensures forall k :: k in apps && k != id ==> m[k] == apps[k]
  {
    var e := if id in apps then apps[id] else Entry(fee, result, name, 0, 0);
    apps[id := e.(amount := e.amount + result.Amount(), freq := e.freq + 1)]
  }

  /** The entries, in key insertion order, whose amount is positive. */
  function Positive<R>(ids: seq<nat>, apps: map<nat, Entry<R>>): (fs: seq<Entry<R>>)
    requires forall i :: 0 <= i < |ids| ==> ids[i] in apps
    ensures |fs| <= |ids|
    ensures forall e :: e in fs ==> e.amount > 0
  {
    if ids == [] then []
    else
      var e := apps[ids[|ids| - 1]];
      Positive(ids[..|ids| - 1], apps) + (if e.amount > 0 then [e] else [])
  }

  /** An entry is listed by `Positive` exactly when it belongs to a listed id
      and its amount is positive. */
  lemma {:induction false} PositiveMembers<R>(ids: seq<nat>, apps: map<nat, Entry<R>>, e: Entry<R>)
    requires forall i :: 0 <= i < |ids| ==> ids[i] in apps
    ensures e in Positive(ids, apps) <==> exists i :: 0 <= i < |ids| && apps[ids[i]] == e && e.amount > 0
  {
    if ids != [] {
      var n := |ids| - 1;
      PositiveMembers(ids[..n], apps, e);
      if e in Positive(ids, apps) && e !in Positive(ids[..n], apps) {
        assert apps[ids[n]] == e;
      }
      if exists i :: 0 <= i < |ids| && apps[ids[i]] == e && e.amount > 0 {
        var i :| 0 <= i < |ids| && apps[ids[i]] == e && e.amount > 0;
        if i < n {
          assert ids[..n][i] == ids[i];
        }
      }
    }
  }

  lemma {:induction false} DistinctCardinality(s: seq<nat>, keys: set<nat>)
    requires forall i, j :: 0 <= i < j < |s| ==> s[i] != s[j]
    requires forall k :: k in keys <==> k in s
    ensures |keys| == |s|
  {
    if s != [] {
      var n := |s| - 1;
      assert forall k :: k in keys - {s[n]} <==> k in s[..n] by {
        forall k ensures k in keys - {s[n]} <==> k in s[..n] {
          if k in s[..n] {
            var i :| 0 <= i < n && s[..n][i] == k;
            assert s[i] == k;
          }
          if k in s && k != s[n] {
            var i :| 0 <= i < |s| && s[i] == k;
            assert i < n && s[..n][i] == k;
          }
        }
      }
      DistinctCardinality(s[..n], keys - {s[n]});
    }
  }

  /** The ledger of one evaluation pass: a dictionary from rule id to entry,
      whose insertion order `order` records. */
  class FeeApplications<R> {
    var applications: map<nat, Entry<R>>
    var order: seq<nat>

    ghost predicate Valid()
      reads this
    {
      && (forall i, j :: 0 <= i < j < |order| ==> order[i] != order[j])
      && (forall id :: id in applications <==> id in order)
    }

    constructor ()
      ensures Valid() && applications == map[] && order == []
    {
      applications := map[];
      order := [];
    }

    /** `len(ledger)`: the number of distinct rule ids ever added. */
    function Len(): (n: nat)
      reads this
      requires Valid()
      ensures n == |order|
    {
      DistinctCardinality(order, applications.Keys);
      |applications|
    }

    method Add(id: nat, name: string, fee: R, result: ApplicationResult)
      requires Valid()
      modifies this
      ensures Valid()
      ensures applications == WithAdded(old(applications), id, name, fee, result)
      ensures order == old(order) + (if id in old(applications) then [] else [id])
    {
      ghost var first := if id in applications then applications[id] else Entry(fee, result, name, 0, 0);
      ghost var updated := first.(amount := first.amount + result.Amount(), freq := first.freq + 1);
      assert WithAdded(applications, id, name, fee, result) == applications[id := updated];
      if id !in applications {
        applications := applications[id := Entry(fee, result, name, 0, 0)];
        order := order + [id];
      }
      var e := applications[id];
      applications := applications[id := e.(amount := e.amount + result.Amount())];
      e := applications[id];
      applications := applications[id := e.(freq := e.freq + 1)];
      assert applications == old(applications)[id := updated];
    }

    /** The `fees` view: entries in insertion order whose amount is positive. */
    method Fees() returns (fs: seq<Entry<R>>)
      requires Valid()
      ensures fs == Positive(order, applications)
    {
      fs := [];
      var i := 0;
      while i < |order|
        invariant 0 <= i <= |order|
        invariant fs == Positive(order[..i], applications)
      {
        assert order[..i + 1][..i] == order[..i];
        var application := applications[order[i]];
        if application.amount > 0 {
          fs := fs + [application];
        }
        i := i + 1;
      }
      assert order[..|order|] == order;
    }
  }
}
