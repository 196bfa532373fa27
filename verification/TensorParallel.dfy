/** The tensor-parallel size suggested for a model, over the reals. */
module TensorParallel {
  import opened Options

  datatype Dtype = Fp32 | Bf16 | Fp16 | Fp8 | Fp4 | Int8 | Int4 | OtherDtype

  function BytesPerParam(d: Dtype): (b: real)
    ensures b > 0.0
  {
    match d
    case Fp32 => 4.0
    case Fp8 => 1.0
    case Int8 => 1.0
    case Fp4 => 0.5
    case Int4 => 0.5
    case _ => 2.0
  }

  const WeightFraction := 0.80
  const Gibibyte := 1073741824.0

  function ModelGb(params: int, d: Dtype): real {
    params as real * BytesPerParam(d) / Gibibyte
  }

  function Usable(memoryGb: real): real {
    memoryGb * WeightFraction
  }

  function Ceil(x: real): int {
    -((-x).Floor)
  }

  /** How many GPUs the weights need; with no usable memory the code settles for one. */
  function Needed(params: int, d: Dtype, memoryGb: real): int {
    if Usable(memoryGb) > 0.0 then Ceil(ModelGb(params, d) / Usable(memoryGb)) else 1
  }

  const ValidTp := [1, 2, 4, 8]

  function FirstAtLeast(sizes: seq<int>, n: int): int {
    if sizes == [] then 8 else if sizes[0] >= n then sizes[0] else FirstAtLeast(sizes[1..], n)
  }

  function Min(a: int, b: int): int {
    if a <= b then a else b
  }

  function ComputeTp(params: Option<int>, d: Dtype, memoryGb: real, totalGpus: int, isMoe: bool): int {
    match params
    case None => if isMoe then Min(totalGpus, 8) else 1
    case Some(n) =>
      var tp := FirstAtLeast(ValidTp, Needed(n, d, memoryGb));
      if totalGpus > 0 then Min(tp, totalGpus) else tp
  }

  /** The weights fit in the share of memory set aside for them on `n` GPUs. */
  predicate Fits(params: int, d: Dtype, memoryGb: real, n: int) {
    ModelGb(params, d) <= n as real * Usable(memoryGb)
  }

  lemma CeilIsLeast(x: real, n: int)
    ensures x <= n as real <==> Ceil(x) <= n
  {
    assert (-x).Floor as real <= -x < (-x).Floor as real + 1.0;
    if x <= n as real {
      assert -n as real <= -x;
      assert (-n) as real == -(n as real);
      assert (-x).Floor >= -n;
    } else {
      assert (-x).Floor as real < -(n as real);
      assert (-x).Floor < -n;
    }
  }

  lemma QuotientAtMost(m: real, u: real, n: real)
    requires u > 0.0
    ensures m / u <= n <==> m <= n * u
  {
    assert m == (m / u) * u;
    if m / u <= n {
      assert (m / u) * u <= n * u;
    } else {
      assert (m / u) * u > n * u;
    }
  }

  lemma FitsIffNeeded(params: int, d: Dtype, memoryGb: real, n: int)
    requires memoryGb > 0.0
    ensures Fits(params, d, memoryGb, n) <==> Needed(params, d, memoryGb) <= n
  {
    CeilIsLeast(ModelGb(params, d) / Usable(memoryGb), n);
    QuotientAtMost(ModelGb(params, d), Usable(memoryGb), n as real);
  }

  lemma FirstSize(n: int)
    ensures FirstAtLeast(ValidTp, n) == if n <= 1 then 1 else if n <= 2 then 2 else if n <= 4 then 4 else 8
  {
    assert [8][1..] == [] && [4, 8][1..] == [8] && [2, 4, 8][1..] == [4, 8] && ValidTp[1..] == [2, 4, 8];
    assert FirstAtLeast([8], n) == 8;
    assert FirstAtLeast([4, 8], n) == if n <= 4 then 4 else 8;
    assert FirstAtLeast([2, 4, 8], n) == if n <= 2 then 2 else if n <= 4 then 4 else 8;
  }

  /** The weights fit at the suggested size exactly when they need no more than 8 GPUs and
      no more than there are. */
  lemma SuggestionFitsIff(params: int, d: Dtype, memoryGb: real, totalGpus: int, isMoe: bool)
    requires memoryGb > 0.0
    ensures Fits(params, d, memoryGb, ComputeTp(Some(params), d, memoryGb, totalGpus, isMoe)) <==>
            Needed(params, d, memoryGb) <= 8 && (totalGpus > 0 ==> Needed(params, d, memoryGb) <= totalGpus)
  {
    FirstSize(Needed(params, d, memoryGb));
    FitsIffNeeded(params, d, memoryGb, ComputeTp(Some(params), d, memoryGb, totalGpus, isMoe));
  }

  /** No smaller valid size fits. */
  lemma NoSmallerSizeFits(params: int, d: Dtype, memoryGb: real, totalGpus: int, isMoe: bool, smaller: int)
    requires memoryGb > 0.0 && smaller in ValidTp
    requires smaller < ComputeTp(Some(params), d, memoryGb, totalGpus, isMoe)
    ensures !Fits(params, d, memoryGb, smaller)
  {
    FirstSize(Needed(params, d, memoryGb));
    FitsIffNeeded(params, d, memoryGb, smaller);
  }

  /** Clamping to the number of GPUs may leave a size that is not a valid one: it is valid
      exactly when nothing was clamped or the number of GPUs is itself a valid size. */
  lemma SuggestionIsValidIff(params: int, d: Dtype, memoryGb: real, totalGpus: int, isMoe: bool)
    ensures ComputeTp(Some(params), d, memoryGb, totalGpus, isMoe) in ValidTp <==>
            totalGpus <= 0 || totalGpus in ValidTp || FirstAtLeast(ValidTp, Needed(params, d, memoryGb)) <= totalGpus
  {
    FirstSize(Needed(params, d, memoryGb));
  }

  /** A billion (2^30) parameters weigh as many GiB as each takes bytes. */
  lemma BillionWeighs(d: Dtype)
    ensures ModelGb(1073741824, d) ==
            (if d == Fp32 then 4.0 else if d == Fp8 || d == Int8 then 1.0
             else if d == Fp4 || d == Int4 then 0.5 else 2.0)
  {
    assert ModelGb(1073741824, d) == BytesPerParam(d);
  }

  /** With no known size the weights do not matter: a dense model gets one GPU and a mixture of
      experts as many as there are, up to eight.  Nor do they when no memory is usable: one. */
  lemma UnknownSize(d: Dtype, memoryGb: real, totalGpus: int, params: int, isMoe: bool)
    ensures ComputeTp(None, d, memoryGb, totalGpus, false) == 1
    ensures var tp := ComputeTp(None, d, memoryGb, totalGpus, true);
            tp <= totalGpus && tp <= 8 && (tp == totalGpus || tp == 8)
    ensures memoryGb <= 0.0 ==> ComputeTp(Some(params), d, memoryGb, totalGpus, isMoe) == 1
  {
    FirstSize(1);
  }

  /** Three GPUs of 1.25 GB and weights of 3 GiB: the suggestion is 3. */
  lemma ThreeIsSuggested(isMoe: bool)
    ensures ComputeTp(Some(3221225472), Fp8, 1.25, 3, isMoe) == 3 && 3 !in ValidTp
  {
    var n := 3221225472;
    assert ModelGb(n, Fp8) == 3.0 && Usable(1.25) == 1.0;
    FitsIffNeeded(n, Fp8, 1.25, 3);
    FitsIffNeeded(n, Fp8, 1.25, 2);
    FirstSize(Needed(n, Fp8, 1.25));
  }

  lemma NeededGrows(few: int, many: int, d: Dtype, memoryGb: real)
    requires memoryGb > 0.0 && few <= many
    ensures Needed(few, d, memoryGb) <= Needed(many, d, memoryGb)
  {
    var n := Needed(many, d, memoryGb);
    FitsIffNeeded(many, d, memoryGb, n);
    assert few as real * BytesPerParam(d) <= many as real * BytesPerParam(d);
    FitsIffNeeded(few, d, memoryGb, n);
  }

  lemma WeightsAreNotNegative(params: nat, d: Dtype)
    ensures ModelGb(params, d) >= 0.0
  {
    assert params as real * BytesPerParam(d) >= 0.0;
  }

  lemma MoreMemoryFits(m: real, n: real, small: real, large: real)
    requires m >= 0.0 && 0.0 < small <= large && m <= n * small
    ensures m <= n * large
  {
    assert n < 0.0 ==> n * small < 0.0;
    assert n >= 0.0 ==> n * small <= n * large;
  }

  lemma NeededShrinks(params: nat, d: Dtype, small: real, large: real)
    requires 0.0 < small <= large
    ensures Needed(params, d, large) <= Needed(params, d, small)
  {
    var n := Needed(params, d, small);
    FitsIffNeeded(params, d, small, n);
    WeightsAreNotNegative(params, d);
    MoreMemoryFits(ModelGb(params, d), n as real, Usable(small), Usable(large));
    FitsIffNeeded(params, d, large, n);
  }

  /** More parameters never suggest fewer GPUs, and larger GPUs never suggest more. */
  lemma SuggestionIsMonotone(few: nat, many: nat, d: Dtype, small: real, large: real, totalGpus: int, isMoe: bool)
    requires few <= many && 0.0 < small <= large
    ensures ComputeTp(Some(few), d, large, totalGpus, isMoe) <= ComputeTp(Some(many), d, small, totalGpus, isMoe)
  {
    NeededGrows(few, many, d, large);
    NeededShrinks(many, d, small, large);
    FirstSize(Needed(few, d, large));
    FirstSize(Needed(many, d, small));
  }
}
