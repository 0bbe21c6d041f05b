/** The run driver (`main` in Train.py, lines 182-196): epochs 0 .. epochs-1
    each train once and then save a checkpoint named after epoch + 1. The
    writes themselves are not modelled; the driver returns the summaries it
    would print and the checkpoint paths it would write, in order. */
module Run {
  import opened Epoch

  /** The character of a decimal digit. */
  function DigitChar(d: nat): (c: char)
    requires d < 10
    ensures '0' <= c <= '9' && (c as int) - ('0' as int) == d
  {
    (('0' as int) + d) as char
  }

  /** `str(n)` for a natural number: its decimal digits, most significant
      first, with no leading zero. */
  function Decimal(n: nat): (s: string)
    ensures s != []
    ensures forall k :: 0 <= k < |s| ==> '0' <= s[k] <= '9'
    ensures s[0] == '0' ==> n == 0
  {
    if n < 10 then [DigitChar(n)] else Decimal(n / 10) + [DigitChar(n % 10)]
  }

  /** Reads a string of decimal digits back as a number. */
  function ParseDecimal(s: string): nat
    requires forall k :: 0 <= k < |s| ==> '0' <= s[k] <= '9'
  {
    if s == [] then 0 else ParseDecimal(s[..|s| - 1]) * 10 + ((s[|s| - 1] as int) - ('0' as int))
  }

  /** Reading back the digits of n gives n. */
  lemma {:induction false} DecimalRoundTrip(n: nat)
    ensures ParseDecimal(Decimal(n)) == n
  {
    if n >= 10 {
      DecimalRoundTrip(n / 10);
      var s := Decimal(n);
      assert s[..|s| - 1] == Decimal(n / 10);
    }
  }

  /** Where the checkpoints of the run called `name` are saved, up to the epoch number. */
  function CheckpointStem(name: string): string
  {
    "models/" + name + "/model_"
  }

  /** The path of the checkpoint saved after the epoch numbered `number`
      (counting from 1) of the run called `name`: it lies under the run's
      stem, ends in `.pth`, and the digits in between read back as `number`. */
  function CheckpointPath(name: string, number: nat): (p: string)
    ensures |CheckpointStem(name)| + 4 < |p|
    ensures p[..|CheckpointStem(name)|] == CheckpointStem(name) && p[|p| - 4..] == ".pth"
    ensures var digits := p[|CheckpointStem(name)|..|p| - 4];
      (forall k :: 0 <= k < |digits| ==> '0' <= digits[k] <= '9') && ParseDecimal(digits) == number
  {
    var p := CheckpointStem(name) + Decimal(number) + ".pth";
    DecimalRoundTrip(number);
    assert p[|CheckpointStem(name)|..|p| - 4] == Decimal(number);
    p
  }

  /** Equal surroundings: the middles are equal exactly when the wholes are. */
  lemma SameFrame(p: string, x: string, y: string, q: string)
    requires p + x + q == p + y + q
    ensures x == y
  {
    var s := p + x + q;
    assert |x| == |y|;
    assert x == s[|p|..|p| + |x|];
    assert y == (p + y + q)[|p|..|p| + |y|];
  }

  /** Two epochs of one run never save to the same path. */
  lemma CheckpointPathsDistinct(name: string, a: nat, b: nat)
    ensures CheckpointPath(name, a) == CheckpointPath(name, b) <==> a == b
  {
    if CheckpointPath(name, a) == CheckpointPath(name, b) {
      SameFrame(CheckpointStem(name), Decimal(a), Decimal(b), ".pth");
      DecimalRoundTrip(a);
      DecimalRoundTrip(b);
    }
  }

  /** Number of epochs `range(epochs)` runs. */
  function EpochCount(epochs: int): nat
  {
    if epochs > 0 then epochs else 0
  }

  /** The epoch numbers checkpoints are saved under, in order: 1, 2, ..., N. */
  function CheckpointNumbers(epochs: int): seq<nat>
  {
    seq(EpochCount(epochs), k => k + 1)
  }

  /** Every number from 1 to N is saved exactly once, in increasing order, and
      no other number is. */
  lemma CheckpointNumberingIsComplete(epochs: int)
    ensures forall n: nat :: n in CheckpointNumbers(epochs) <==> 1 <= n <= epochs
    ensures forall i, j :: 0 <= i < j < |CheckpointNumbers(epochs)| ==>
      CheckpointNumbers(epochs)[i] < CheckpointNumbers(epochs)[j]
  {
    var ns := CheckpointNumbers(epochs);
    forall n: nat | 1 <= n <= epochs
      ensures n in ns
    {
      assert ns[n - 1] == n;
    }
  }

  /** Trains for `epochs` epochs. `batchesOf(e)` is what the loader delivers
      in epoch e, with the raw losses the network gives at that point of
      training. Returns every epoch's summary and the paths saved after them. */
  method RunTraining(name: string, epochs: int, weight: seq<real>, batchesOf: nat -> seq<Batch>)
    returns (logs: seq<Summary>, saved: seq<string>)
    requires |weight| >= 4
    ensures |logs| == EpochCount(epochs)
    ensures forall e :: 0 <= e < |logs| ==> logs[e] == EpochSummary(weight, batchesOf(e))
    ensures |saved| == |CheckpointNumbers(epochs)|
    ensures forall k :: 0 <= k < |saved| ==> saved[k] == CheckpointPath(name, CheckpointNumbers(epochs)[k])
  {
    logs, saved := [], [];
    var epoch := 0;
    while epoch < epochs
      invariant 0 <= epoch <= EpochCount(epochs)
      invariant |logs| == epoch && |saved| == epoch
      invariant forall e :: 0 <= e < epoch ==> logs[e] == EpochSummary(weight, batchesOf(e))
      invariant forall e :: 0 <= e < epoch ==> saved[e] == CheckpointPath(name, e + 1)
    {
      var trainLog := TrainEpoch(weight, batchesOf(epoch));
      logs := logs + [trainLog];
      if (epoch + 1) % 1 == 0 {
        saved := saved + [CheckpointPath(name, epoch + 1)];
      }
      epoch := epoch + 1;
    }
  }

  /** No checkpoint of a run overwrites another. */
  lemma NoCheckpointOverwritten(name: string, epochs: int)
    ensures forall i, j :: 0 <= i < j < |CheckpointNumbers(epochs)| ==>
      CheckpointPath(name, CheckpointNumbers(epochs)[i]) != CheckpointPath(name, CheckpointNumbers(epochs)[j])
  {
    var ns := CheckpointNumbers(epochs);
    forall i, j | 0 <= i < j < |ns|
      ensures CheckpointPath(name, ns[i]) != CheckpointPath(name, ns[j])
    {
      CheckpointPathsDistinct(name, ns[i], ns[j]);
    }
  }
}
