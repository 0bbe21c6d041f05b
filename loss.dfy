/** How one batch's four loss terms are weighted and summed into the
    objective (`train` in Train.py, lines 114-120). The network and the four
    criteria are opaque: they enter as function values. */
module Loss {

  /** The four loss terms of one batch, in the fixed order ssim_ir, ssim_vi,
      RMI_ir, RMI_vi (either raw criterion values or weighted ones). */
  datatype Terms = Terms(ssimIr: real, ssimVi: real, rmiIr: real, rmiVi: real)

  /** The four criteria, each a function of (prediction, reference). */
  datatype Criteria<!T> = Criteria(
    ssimIr: (T, T) -> real,
    ssimVi: (T, T) -> real,
    rmiIr: (T, T) -> real,
    rmiVi: (T, T) -> real)

  /** What one batch yields: the aggregate objective and the four weighted terms. */
  datatype Composed = Composed(loss: real, terms: Terms)

  /** The default weight list of the run configuration. */
  const DefaultWeight: seq<real> := [1.0, 1.0, 1.0, 2.5]

  /** The terms as a list, in their fixed order. */
  function AsSeq(t: Terms): (s: seq<real>)
    ensures |s| == 4
  {
    [t.ssimIr, t.ssimVi, t.rmiIr, t.rmiVi]
  }

  /** Reference definition: the dot product of two lists of equal length. */
  function Dot(w: seq<real>, v: seq<real>): real
    requires |w| == |v|
  {
    if w == [] then 0.0 else w[0] * v[0] + Dot(w[1..], v[1..])
  }

  /** Scales each raw term by its weight (weight[0] .. weight[3]) and sums the
      four weighted terms, left to right, into the objective. The source
      indexes the weight list, so it must have at least four entries; any
      further entries are ignored. */
  function Compose(weight: seq<real>, raw: Terms): (r: Composed)
    requires |weight| >= 4
    ensures r.loss == Dot(weight[..4], AsSeq(raw))
  {
    var t := Terms(weight[0] * raw.ssimIr, weight[1] * raw.ssimVi,
                   weight[2] * raw.rmiIr, weight[3] * raw.rmiVi);
    var r := Composed(t.ssimIr + t.ssimVi + t.rmiIr + t.rmiVi, t);
    DotOfFour(weight[..4], AsSeq(raw));
    r
  }

  /** Each reported term is its raw value scaled by its own weight, and the
      objective is the sum of the four reported terms. */
  lemma ComposeTerms(weight: seq<real>, raw: Terms)
    requires |weight| >= 4
    ensures forall k :: 0 <= k < 4 ==> AsSeq(Compose(weight, raw).terms)[k] == weight[k] * AsSeq(raw)[k]
    ensures Compose(weight, raw).loss == Dot([1.0, 1.0, 1.0, 1.0], AsSeq(Compose(weight, raw).terms))
  {
    DotOfFour([1.0, 1.0, 1.0, 1.0], AsSeq(Compose(weight, raw).terms));
  }

  /** Unfolds the dot product of two four-element lists. */
  lemma DotOfFour(w: seq<real>, v: seq<real>)
    requires |w| == 4 && |v| == 4
    ensures Dot(w, v) == w[0] * v[0] + w[1] * v[1] + w[2] * v[2] + w[3] * v[3]
  {
    assert Dot(w[3..], v[3..]) == w[3] * v[3] + Dot(w[4..], v[4..]);
    assert Dot(w[2..], v[2..]) == w[2] * v[2] + Dot(w[3..], v[3..]);
    assert Dot(w[1..], v[1..]) == w[1] * v[1] + Dot(w[2..], v[2..]);
  }

  /** The objective and the weighted terms of one batch as the network and
      the criteria produce them: each criterion compares the network output
      with its own reference (ssim_ir and RMI_ir with `ir`, ssim_vi and RMI_vi
      with `vi`), and each raw value is scaled by its weight. */
  function BatchLoss<T>(weight: seq<real>, crit: Criteria<T>, model: T -> T, input: T, ir: T, vi: T): (r: Composed)
    requires |weight| >= 4
    ensures r.terms == Terms(weight[0] * crit.ssimIr(model(input), ir), weight[1] * crit.ssimVi(model(input), vi),
                             weight[2] * crit.rmiIr(model(input), ir), weight[3] * crit.rmiVi(model(input), vi))
    ensures r.loss ==
      weight[0] * crit.ssimIr(model(input), ir) + weight[1] * crit.ssimVi(model(input), vi) +
      weight[2] * crit.rmiIr(model(input), ir) + weight[3] * crit.rmiVi(model(input), vi)
  {
    var out := model(input);
    var raw := Terms(crit.ssimIr(out, ir), crit.ssimVi(out, vi), crit.rmiIr(out, ir), crit.rmiVi(out, vi));
    ComposeTerms(weight, raw);
    DotOfFour(weight[..4], AsSeq(raw));
    Compose(weight, raw)
  }

  /** A term whose weight is zero is still reported, as exactly zero, and the
      objective is then the sum of the other three weighted terms. */
  lemma ZeroWeightTerm(weight: seq<real>, raw: Terms, k: nat)
    requires |weight| >= 4 && k < 4 && weight[k] == 0.0
    ensures AsSeq(Compose(weight, raw).terms)[k] == 0.0
    ensures Compose(weight, raw).loss ==
      (if k == 0 then 0.0 else weight[0] * raw.ssimIr) +
      (if k == 1 then 0.0 else weight[1] * raw.ssimVi) +
      (if k == 2 then 0.0 else weight[2] * raw.rmiIr) +
      (if k == 3 then 0.0 else weight[3] * raw.rmiVi)
  {
    ComposeTerms(weight, raw);
  }

  /** With non-negative weights and non-negative criteria every reported
      term and the objective are non-negative. */
  lemma NonNegativeLoss(weight: seq<real>, raw: Terms)
    requires |weight| >= 4
    requires forall k :: 0 <= k < 4 ==> weight[k] >= 0.0
    requires raw.ssimIr >= 0.0 && raw.ssimVi >= 0.0 && raw.rmiIr >= 0.0 && raw.rmiVi >= 0.0
    ensures forall k :: 0 <= k < 4 ==> AsSeq(Compose(weight, raw).terms)[k] >= 0.0
    ensures Compose(weight, raw).loss >= 0.0
  {
    var r := Compose(weight, raw);
    ComposeTerms(weight, raw);
    forall k | 0 <= k < 4
      ensures AsSeq(r.terms)[k] >= 0.0
    {
      assert AsSeq(raw)[k] >= 0.0;
    }
  }

  /** Under the default weights [1, 1, 1, 2.5] the objective is
      ssim_ir + ssim_vi + RMI_ir + 2.5 * RMI_vi. */
  lemma DefaultWeightLoss(raw: Terms)
    ensures Compose(DefaultWeight, raw).loss == raw.ssimIr + raw.ssimVi + raw.rmiIr + 2.5 * raw.rmiVi
  {
  }
}
