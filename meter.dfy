/** The running weighted mean that the training loop keeps for every logged
    quantity (`AverageMeter` in Train.py), in exact real arithmetic. */
module Meter {
  import opened SeqFacts

  /** One observation folded into a meter: a value that stands for `n` items. */
  datatype Obs = Obs(value: real, n: nat)

  /** What one observation adds to the meter's sum. */
  function Weighted(o: Obs): real
  {
    o.value * (o.n as real)
  }

  /** Sum of value * n over the observations, folded from the front as the meter does. */
  function WeightedSum(obs: seq<Obs>): real
  {
    if obs == [] then 0.0 else WeightedSum(obs[..|obs| - 1]) + Weighted(obs[|obs| - 1])
  }

  /** Number of items observed. */
  function TotalCount(obs: seq<Obs>): nat
  {
    if obs == [] then 0 else TotalCount(obs[..|obs| - 1]) + obs[|obs| - 1].n
  }

  /** The weighted mean; zero while nothing has been counted (the value reset leaves behind). */
  function Mean(obs: seq<Obs>): real
  {
    if TotalCount(obs) == 0 then 0.0 else WeightedSum(obs) / (TotalCount(obs) as real)
  }

  /** The value most recently observed, zero before any observation. */
  function LastValue(obs: seq<Obs>): real
  {
    if obs == [] then 0.0 else obs[|obs| - 1].value
  }

  class AverageMeter {
    var val: real
    var avg: real
    var sum: real
    var count: nat
    /** Every observation folded in since the last reset. */
    ghost var history: seq<Obs>

    ghost predicate Valid()
      reads this
    {
      val == LastValue(history) &&
      sum == WeightedSum(history) &&
      count == TotalCount(history) &&
      avg == Mean(history)
    }

    /** A new meter is reset. */
    constructor ()
      ensures Valid() && history == []
      ensures val == 0.0 && avg == 0.0 && sum == 0.0 && count == 0
    {
      new;
      Reset();
    }

    method Reset()
      modifies this
      ensures Valid() && history == []
      ensures val == 0.0 && avg == 0.0 && sum == 0.0 && count == 0
    {
      val := 0.0;
      avg := 0.0;
      sum := 0.0;
      count := 0;
      history := [];
    }

    /** Folds in `v` standing for `n` items. `ok` is false exactly when the
        division by the new count fails (nothing counted yet and n == 0); then
        val, sum and count have already changed and avg has not. */
    method Update(v: real, n: nat) returns (ok: bool)
      requires Valid()
      modifies this
      ensures Valid() && history == old(history) + [Obs(v, n)]
      ensures val == v && sum == old(sum) + v * (n as real) && count == old(count) + n
      ensures ok <==> count > 0
      ensures ok ==> avg == sum / (count as real)
      ensures !ok ==> avg == old(avg)
    {
      history := history + [Obs(v, n)];
      assert history[..|history| - 1] == old(history);
      val := v;
      sum := sum + v * (n as real);
      count := count + n;
      ok := count > 0;
      if ok {
        avg := sum / (count as real);
      }
    }
  }

  /** Concatenating observation sequences adds their weighted sums and counts. */
  lemma {:induction false} SumsOfConcat(a: seq<Obs>, b: seq<Obs>)
    ensures WeightedSum(a + b) == WeightedSum(a) + WeightedSum(b)
    ensures TotalCount(a + b) == TotalCount(a) + TotalCount(b)
  {
    if b == [] {
      assert a + b == a;
    } else {
      var b' := b[..|b| - 1];
      assert (a + b)[..|a + b| - 1] == a + b';
      SumsOfConcat(a, b');
    }
  }

  /** The meter's result does not depend on the order of the updates: any
      rearrangement of the observations gives the same sum and count ... */
  lemma {:induction false} OrderIndependentSums(a: seq<Obs>, b: seq<Obs>)
    requires multiset(a) == multiset(b)
    ensures WeightedSum(a) == WeightedSum(b)
    ensures TotalCount(a) == TotalCount(b)
  {
    if a == [] {
      assert |b| == |multiset(b)| == 0;
    } else {
      var x := a[|a| - 1];
      var j, p, q := RemoveOne(a, b);
      OrderIndependentSums(a[..|a| - 1], p + q);
      assert a == a[..|a| - 1] + [x];
      SumsWithout(p, x, q);
    }
  }

  /** Taking one observation out of the middle takes away exactly its share. */
  lemma SumsWithout(p: seq<Obs>, x: Obs, q: seq<Obs>)
    ensures WeightedSum(p + [x] + q) == WeightedSum(p + q) + Weighted(x)
    ensures TotalCount(p + [x] + q) == TotalCount(p + q) + x.n
  {
    SumsOfConcat(p + [x], q);
    SumsOfConcat(p, q);
    assert (p + [x])[..|p|] == p;
  }

  /** ... and hence the same mean. */
  lemma OrderIndependent(a: seq<Obs>, b: seq<Obs>)
    requires multiset(a) == multiset(b)
    ensures Mean(a) == Mean(b)
  {
    OrderIndependentSums(a, b);
  }

  /** The weighted sum and the count written as a fold from the front, the way
      the formula (sum v_i * n_i) / (sum n_i) reads. */
  function FrontSum(obs: seq<Obs>): real
  {
    if obs == [] then 0.0 else Weighted(obs[0]) + FrontSum(obs[1..])
  }

  function FrontCount(obs: seq<Obs>): nat
  {
    if obs == [] then 0 else obs[0].n + FrontCount(obs[1..])
  }

  lemma {:induction false} FrontFoldsAgree(obs: seq<Obs>)
    ensures WeightedSum(obs) == FrontSum(obs)
    ensures TotalCount(obs) == FrontCount(obs)
  {
    if obs != [] {
      FrontFoldsAgree(obs[1..]);
      assert obs == [obs[0]] + obs[1..];
      SumsOfConcat([obs[0]], obs[1..]);
      assert [obs[0]][..0] == [];
    }
  }

  /** After the updates (v_1,n_1)..(v_k,n_k) from reset with some item
      counted, the mean is (sum v_i * n_i) / (sum n_i); with none counted it is 0. */
  lemma MeanIsWeightedAverage(obs: seq<Obs>)
    ensures FrontCount(obs) > 0 ==> Mean(obs) == FrontSum(obs) / (FrontCount(obs) as real)
    ensures FrontCount(obs) == 0 ==> Mean(obs) == 0.0
  {
    FrontFoldsAgree(obs);
  }

  /** A single update from reset with n > 0 leaves avg at the value observed. */
  lemma SingleUpdateMean(v: real, n: nat)
    requires n > 0
    ensures Mean([Obs(v, n)]) == v
  {
    assert [Obs(v, n)][..0] == [];
    assert WeightedSum([Obs(v, n)]) == v * (n as real);
    assert TotalCount([Obs(v, n)]) == n;
  }

  /** Observing the same value every time gives that value as the mean. */
  lemma {:induction false} ConstantMean(obs: seq<Obs>, v: real)
    requires forall k :: 0 <= k < |obs| ==> obs[k].value == v
    requires TotalCount(obs) > 0
    ensures Mean(obs) == v
  {
    ConstantSum(obs, v);
  }

  lemma {:induction false} ConstantSum(obs: seq<Obs>, v: real)
    requires forall k :: 0 <= k < |obs| ==> obs[k].value == v
    ensures WeightedSum(obs) == v * (TotalCount(obs) as real)
  {
    if obs != [] {
      ConstantSum(obs[..|obs| - 1], v);
    }
  }

  /** Non-negative observations give a non-negative mean. */
  lemma NonNegativeMean(obs: seq<Obs>)
    requires forall k :: 0 <= k < |obs| ==> obs[k].value >= 0.0
    ensures Mean(obs) >= 0.0
  {
    NonNegativeSum(obs);
  }

  lemma {:induction false} NonNegativeSum(obs: seq<Obs>)
    requires forall k :: 0 <= k < |obs| ==> obs[k].value >= 0.0
    ensures WeightedSum(obs) >= 0.0
  {
    if obs != [] {
      NonNegativeSum(obs[..|obs| - 1]);
      assert obs[|obs| - 1].value >= 0.0;
    }
  }
}
