/** One training epoch (`train` in Train.py, lines 95-140): every batch's
    objective and weighted terms are folded, scaled by the batch size, into
    five meters, and the five averages are returned under fixed keys. The
    network, the criteria, the gradient step and the device moves are
    abstracted: each batch arrives as its size and the four raw criterion
    values the network gave for it. */
module Epoch {
  import opened Wrappers
  import opened Meter
  import opened Loss
  import opened SeqFacts

  /** `input.size(0)`: the loader never delivers an empty batch. */
  type BatchSize = n: nat | n > 0 witness 1

  datatype Batch = Batch(size: BatchSize, raw: Terms)

  /** The five logged quantities: the objective and the four weighted terms. */
  datatype Channel = Total | SsimIr | SsimVi | RmiIr | RmiVi

  /** Key under which a channel's average is reported. */
  function Key(c: Channel): string
  {
    match c
    case Total => "loss"
    case SsimIr => "loss_ssim_ir"
    case SsimVi => "loss_ssim_vi"
    case RmiIr => "loss_RMI_ir"
    case RmiVi => "loss_RMI_vi"
  }

  /** The keys of the summary, in order. */
  const SummaryKeys: seq<string> := ["loss", "loss_ssim_ir", "loss_ssim_vi", "loss_RMI_ir", "loss_RMI_vi"]

  /** The value a channel's meter receives for one composed batch. */
  function Reported(c: Channel, r: Composed): real
  {
    match c
    case Total => r.loss
    case SsimIr => r.terms.ssimIr
    case SsimVi => r.terms.ssimVi
    case RmiIr => r.terms.rmiIr
    case RmiVi => r.terms.rmiVi
  }

  /** The observation one batch contributes to a channel's meter: the
      channel's value, standing for the batch's samples. */
  function ObsOf(weight: seq<real>, b: Batch, c: Channel): Obs
    requires |weight| >= 4
  {
    Obs(Reported(c, Compose(weight, b.raw)), b.size)
  }

  /** The observations a channel's meter receives over the batches, in order. */
  function Observations(weight: seq<real>, batches: seq<Batch>, c: Channel): (obs: seq<Obs>)
    requires |weight| >= 4
    ensures |obs| == |batches|
  {
    seq(|batches|, j requires 0 <= j < |batches| => ObsOf(weight, batches[j], c))
  }

  /** Average a channel's meter holds at the end of the epoch. */
  function ChannelMean(weight: seq<real>, batches: seq<Batch>, c: Channel): real
    requires |weight| >= 4
  {
    Mean(Observations(weight, batches, c))
  }

  /** Number of samples in the epoch. */
  function TotalSize(batches: seq<Batch>): nat
  {
    if batches == [] then 0 else TotalSize(batches[..|batches| - 1]) + batches[|batches| - 1].size
  }

  /** The epoch summary, an ordered list of (key, average) pairs. */
  type Summary = seq<(string, real)>

  /** The summary the epoch returns: the five keys in their fixed order,
      each paired with the average of the meter of the channel it names. */
  function EpochSummary(weight: seq<real>, batches: seq<Batch>): (s: Summary)
    requires |weight| >= 4
    ensures |s| == |SummaryKeys| == 5
    ensures forall k :: 0 <= k < |s| ==> s[k].0 == SummaryKeys[k]
    ensures forall k, c :: 0 <= k < |s| && s[k].0 == Key(c) ==> s[k].1 == ChannelMean(weight, batches, c)
  {
    [ (Key(Total), ChannelMean(weight, batches, Total)),
      (Key(SsimIr), ChannelMean(weight, batches, SsimIr)),
      (Key(SsimVi), ChannelMean(weight, batches, SsimVi)),
      (Key(RmiIr), ChannelMean(weight, batches, RmiIr)),
      (Key(RmiVi), ChannelMean(weight, batches, RmiVi)) ]
  }

  /** Looks a key up in a summary (the first pair with that key). */
  function Lookup(log: Summary, key: string): (r: Option<real>)
    ensures r.Some? <==> exists k :: 0 <= k < |log| && log[k].0 == key
    ensures r.Some? ==> exists k :: 0 <= k < |log| && log[k] == (key, r.value)
  {
    if log == [] then None
    else if log[0].0 == key then Some(log[0].1)
    else
      var r := Lookup(log[1..], key);
      assert forall k :: 0 < k < |log| ==> log[k] == log[1..][k - 1];
      r
  }

  /** Folds one batch into the five meters: composes its objective and
      weighted terms, and updates each meter with its value and the batch size. */
  method RecordBatch(weight: seq<real>, b: Batch, losses: AverageMeter, lossesSsimIr: AverageMeter,
                     lossesSsimVi: AverageMeter, lossesRmiIr: AverageMeter, lossesRmiVi: AverageMeter)
    requires |weight| >= 4
    requires losses.Valid() && lossesSsimIr.Valid() && lossesSsimVi.Valid()
    requires lossesRmiIr.Valid() && lossesRmiVi.Valid()
    requires losses != lossesSsimIr && losses != lossesSsimVi && losses != lossesRmiIr && losses != lossesRmiVi
    requires lossesSsimIr != lossesSsimVi && lossesSsimIr != lossesRmiIr && lossesSsimIr != lossesRmiVi
    requires lossesSsimVi != lossesRmiIr && lossesSsimVi != lossesRmiVi && lossesRmiIr != lossesRmiVi
    modifies losses, lossesSsimIr, lossesSsimVi, lossesRmiIr, lossesRmiVi
    ensures losses.Valid() && losses.history == old(losses.history) + [ObsOf(weight, b, Total)]
    ensures lossesSsimIr.Valid() && lossesSsimIr.history == old(lossesSsimIr.history) + [ObsOf(weight, b, SsimIr)]
    ensures lossesSsimVi.Valid() && lossesSsimVi.history == old(lossesSsimVi.history) + [ObsOf(weight, b, SsimVi)]
    ensures lossesRmiIr.Valid() && lossesRmiIr.history == old(lossesRmiIr.history) + [ObsOf(weight, b, RmiIr)]
    ensures lossesRmiVi.Valid() && lossesRmiVi.history == old(lossesRmiVi.history) + [ObsOf(weight, b, RmiVi)]
  {
    var r := Compose(weight, b.raw);
    var ok;
    ok := losses.Update(r.loss, b.size);
    ok := lossesSsimIr.Update(r.terms.ssimIr, b.size);
    ok := lossesSsimVi.Update(r.terms.ssimVi, b.size);
    ok := lossesRmiIr.Update(r.terms.rmiIr, b.size);
    ok := lossesRmiVi.Update(r.terms.rmiVi, b.size);
  }

  /** Extending the batches by one extends a meter's observations by that batch's. */
  lemma ObservationsStep(weight: seq<real>, batches: seq<Batch>, i: nat, c: Channel)
    requires |weight| >= 4 && i < |batches|
    ensures Observations(weight, batches[..i + 1], c) ==
      Observations(weight, batches[..i], c) + [ObsOf(weight, batches[i], c)]
  {
  }

  /** Runs one epoch over the batches in the order the loader delivers them
      and returns the five averages. */
  method TrainEpoch(weight: seq<real>, batches: seq<Batch>) returns (log: Summary)
    requires |weight| >= 4
    ensures log == EpochSummary(weight, batches)
  {
    var losses := new AverageMeter();
    var lossesSsimIr := new AverageMeter();
    var lossesSsimVi := new AverageMeter();
    var lossesRmiIr := new AverageMeter();
    var lossesRmiVi := new AverageMeter();
    var i := 0;
    while i < |batches|
      invariant 0 <= i <= |batches|
      invariant losses.Valid() && losses.history == Observations(weight, batches[..i], Total)
      invariant lossesSsimIr.Valid() && lossesSsimIr.history == Observations(weight, batches[..i], SsimIr)
      invariant lossesSsimVi.Valid() && lossesSsimVi.history == Observations(weight, batches[..i], SsimVi)
      invariant lossesRmiIr.Valid() && lossesRmiIr.history == Observations(weight, batches[..i], RmiIr)
      invariant lossesRmiVi.Valid() && lossesRmiVi.history == Observations(weight, batches[..i], RmiVi)
    {
      ObservationsStep(weight, batches, i, Total);
      ObservationsStep(weight, batches, i, SsimIr);
      ObservationsStep(weight, batches, i, SsimVi);
      ObservationsStep(weight, batches, i, RmiIr);
      ObservationsStep(weight, batches, i, RmiVi);
      RecordBatch(weight, batches[i], losses, lossesSsimIr, lossesSsimVi, lossesRmiIr, lossesRmiVi);
      i := i + 1;
    }
    assert batches[..i] == batches;
    log := [
      ("loss", losses.avg),
      ("loss_ssim_ir", lossesSsimIr.avg),
      ("loss_ssim_vi", lossesSsimVi.avg),
      ("loss_RMI_ir", lossesRmiIr.avg),
      ("loss_RMI_vi", lossesRmiVi.avg)
    ];
  }

  /** Lookup finds the first pair carrying the key. */
  lemma {:induction false} LookupFirst(log: Summary, k: nat, key: string)
    requires k < |log| && log[k].0 == key
    requires forall i :: 0 <= i < k ==> log[i].0 != key
    ensures Lookup(log, key) == Some(log[k].1)
  {
    if k > 0 {
      LookupFirst(log[1..], k - 1, key);
    }
  }

  /** Looking a channel's key up in the summary gives that channel's average. */
  lemma SummaryLookup(weight: seq<real>, batches: seq<Batch>, c: Channel)
    requires |weight| >= 4
    ensures Lookup(EpochSummary(weight, batches), Key(c)) == Some(ChannelMean(weight, batches, c))
  {
    var log := EpochSummary(weight, batches);
    var k := match c case Total => 0 case SsimIr => 1 case SsimVi => 2 case RmiIr => 3 case RmiVi => 4;
    LookupFirst(log, k, Key(c));
  }

  /** Every one of the five meters counts every sample of the epoch: they are
      all updated with the same batch sizes. */
  lemma {:induction false} EveryMeterCountsAllSamples(weight: seq<real>, batches: seq<Batch>, c: Channel)
    requires |weight| >= 4
    ensures TotalCount(Observations(weight, batches, c)) == TotalSize(batches)
  {
    if batches != [] {
      var n := |batches| - 1;
      EveryMeterCountsAllSamples(weight, batches[..n], c);
      assert Observations(weight, batches, c)[..n] == Observations(weight, batches[..n], c);
    }
  }

  /** Dropping the last batch drops the last observation of each meter. */
  lemma ObservationsPrefix(weight: seq<real>, batches: seq<Batch>, c: Channel)
    requires |weight| >= 4 && batches != []
    ensures Observations(weight, batches, c)[..|batches| - 1] == Observations(weight, batches[..|batches| - 1], c)
  {
  }

  /** For one batch, what the objective's meter gains is the sum of what the
      four term meters gain. */
  lemma BatchShareSplits(weight: seq<real>, b: Batch)
    requires |weight| >= 4
    ensures Weighted(ObsOf(weight, b, Total)) ==
      Weighted(ObsOf(weight, b, SsimIr)) + Weighted(ObsOf(weight, b, SsimVi)) +
      Weighted(ObsOf(weight, b, RmiIr)) + Weighted(ObsOf(weight, b, RmiVi))
  {
    var t := Compose(weight, b.raw).terms;
    var s := b.size as real;
    assert (t.ssimIr + t.ssimVi + t.rmiIr + t.rmiVi) * s == t.ssimIr * s + t.ssimVi * s + t.rmiIr * s + t.rmiVi * s;
  }

  /** The weighted sum of the objective is the sum of the four terms' weighted sums. */
  lemma {:induction false} TotalSumIsSumOfTermSums(weight: seq<real>, batches: seq<Batch>)
    requires |weight| >= 4
    ensures WeightedSum(Observations(weight, batches, Total)) ==
      WeightedSum(Observations(weight, batches, SsimIr)) + WeightedSum(Observations(weight, batches, SsimVi)) +
      WeightedSum(Observations(weight, batches, RmiIr)) + WeightedSum(Observations(weight, batches, RmiVi))
  {
    if batches != [] {
      var n := |batches| - 1;
      TotalSumIsSumOfTermSums(weight, batches[..n]);
      ObservationsPrefix(weight, batches, Total);
      ObservationsPrefix(weight, batches, SsimIr);
      ObservationsPrefix(weight, batches, SsimVi);
      ObservationsPrefix(weight, batches, RmiIr);
      ObservationsPrefix(weight, batches, RmiVi);
      BatchShareSplits(weight, batches[n]);
    }
  }

  /** The objective's average over the epoch is the sum of the four terms'
      averages. */
  lemma AggregateMeanIsSumOfTermMeans(weight: seq<real>, batches: seq<Batch>)
    requires |weight| >= 4
    ensures ChannelMean(weight, batches, Total) ==
      ChannelMean(weight, batches, SsimIr) + ChannelMean(weight, batches, SsimVi) +
      ChannelMean(weight, batches, RmiIr) + ChannelMean(weight, batches, RmiVi)
  {
    TotalSumIsSumOfTermSums(weight, batches);
    EveryMeterCountsAllSamples(weight, batches, Total);
    EveryMeterCountsAllSamples(weight, batches, SsimIr);
    EveryMeterCountsAllSamples(weight, batches, SsimVi);
    EveryMeterCountsAllSamples(weight, batches, RmiIr);
    EveryMeterCountsAllSamples(weight, batches, RmiVi);
    if TotalSize(batches) > 0 {
      DivideSum(WeightedSum(Observations(weight, batches, SsimIr)), WeightedSum(Observations(weight, batches, SsimVi)),
                WeightedSum(Observations(weight, batches, RmiIr)), WeightedSum(Observations(weight, batches, RmiVi)),
                TotalSize(batches) as real);
    }
  }

  lemma DivideSum(a: real, b: real, c: real, d: real, n: real)
    requires n != 0.0
    ensures (a + b + c + d) / n == a / n + b / n + c / n + d / n
  {
    assert (a / n) * n == a && (b / n) * n == b && (c / n) * n == c && (d / n) * n == d;
    assert (a / n + b / n + c / n + d / n) * n == a + b + c + d;
  }

  /** A channel's observations over two concatenated runs of batches. */
  lemma ObservationsConcat(weight: seq<real>, p: seq<Batch>, q: seq<Batch>, c: Channel)
    requires |weight| >= 4
    ensures Observations(weight, p + q, c) == Observations(weight, p, c) + Observations(weight, q, c)
  {
  }

  /** Rearranging the batches rearranges each meter's observations the same way. */
  lemma {:induction false} ObservationsPermute(weight: seq<real>, a: seq<Batch>, b: seq<Batch>, c: Channel)
    requires |weight| >= 4
    requires multiset(a) == multiset(b)
    ensures multiset(Observations(weight, a, c)) == multiset(Observations(weight, b, c))
  {
    if a == [] {
      assert |b| == |multiset(b)| == 0;
    } else {
      var x := a[|a| - 1];
      var a' := a[..|a| - 1];
      var j, p, q := RemoveOne(a, b);
      ObservationsPermute(weight, a', p + q, c);
      var o := ObsOf(weight, x, c);
      assert Observations(weight, [x], c) == [o];
      assert a == a' + [x];
      ObservationsConcat(weight, a', [x], c);
      assert b == p + [x] + q;
      ObservationsConcat(weight, p + [x], q, c);
      ObservationsConcat(weight, p, [x], c);
      ObservationsConcat(weight, p, q, c);
      var op, oq := Observations(weight, p, c), Observations(weight, q, c);
      assert multiset(op + [o] + oq) == multiset(op + oq) + multiset{o};
    }
  }

  /** The summary does not depend on the order in which the loader delivers
      the batches: any rearrangement of the same batches gives the same summary. */
  lemma ShuffleInvariant(weight: seq<real>, a: seq<Batch>, b: seq<Batch>)
    requires |weight| >= 4
    requires multiset(a) == multiset(b)
    ensures EpochSummary(weight, a) == EpochSummary(weight, b)
  {
    forall c: Channel
      ensures ChannelMean(weight, a, c) == ChannelMean(weight, b, c)
    {
      ObservationsPermute(weight, a, b, c);
      OrderIndependent(Observations(weight, a, c), Observations(weight, b, c));
    }
  }

  /** With non-negative weights and criteria, every average in the summary is
      non-negative. */
  lemma NonNegativeSummary(weight: seq<real>, batches: seq<Batch>)
    requires |weight| >= 4
    requires forall k :: 0 <= k < 4 ==> weight[k] >= 0.0
    requires forall j :: 0 <= j < |batches| ==> AllNonNegative(batches[j].raw)
    ensures forall k :: 0 <= k < 5 ==> EpochSummary(weight, batches)[k].1 >= 0.0
  {
    forall c: Channel
      ensures ChannelMean(weight, batches, c) >= 0.0
    {
      var obs := Observations(weight, batches, c);
      forall j | 0 <= j < |obs|
        ensures obs[j].value >= 0.0
      {
        NonNegativeLoss(weight, batches[j].raw);
        ComposeTerms(weight, batches[j].raw);
        assert AsSeq(Compose(weight, batches[j].raw).terms)[0] >= 0.0;
        assert AsSeq(Compose(weight, batches[j].raw).terms)[1] >= 0.0;
        assert AsSeq(Compose(weight, batches[j].raw).terms)[2] >= 0.0;
        assert AsSeq(Compose(weight, batches[j].raw).terms)[3] >= 0.0;
      }
      NonNegativeMean(obs);
    }
  }

  predicate AllNonNegative(t: Terms)
  {
    t.ssimIr >= 0.0 && t.ssimVi >= 0.0 && t.rmiIr >= 0.0 && t.rmiVi >= 0.0
  }
}
