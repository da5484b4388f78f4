/**
  scripts/rewrite_onnx_stft_to_conv.py, _make_basis: the bank of DFT kernels, one real and one
  imaginary row for each frequency, in one of two channel layouts.
*/
module StftKernels {
  import opened Graphs
  import opened Onnx
  import opened Tensors
  import opened Wrappers

  datatype Layout = Interleaved | Blocked | UnknownLayout

  datatype StftError =
    | TooFewInputs
    | NotConstant(name: Name)
    | NotScalar(name: Name)
    | NotVector(name: Name)
    | WindowLength
    | UnsupportedLayout
    | NoName

  // The kernels

  /** The channel that holds the real (part 0) or imaginary (part 1) kernel of a frequency. */
  function Row(layout: Layout, bins: nat, freq: nat, part: nat): nat {
    if layout.Interleaved? then freq * 2 + part else if part == 0 then freq else bins + freq
  }

  function FreqOf(layout: Layout, bins: nat, row: nat): nat
    requires row < bins * 2
  {
    if layout.Interleaved? then row / 2 else if row < bins then row else row - bins
  }

  function PartOf(layout: Layout, bins: nat, row: nat): nat
    requires row < bins * 2
  {
    if layout.Interleaved? then row % 2 else if row < bins then 0 else 1
  }

  lemma RowDecodes(layout: Layout, bins: nat, freq: nat, part: nat)
    requires freq < bins && part < 2
    ensures Row(layout, bins, freq, part) < bins * 2
    ensures FreqOf(layout, bins, Row(layout, bins, freq, part)) == freq
    ensures PartOf(layout, bins, Row(layout, bins, freq, part)) == part
  {
  }

  lemma RowCovers(layout: Layout, bins: nat, row: nat)
    requires row < bins * 2
    ensures FreqOf(layout, bins, row) < bins && PartOf(layout, bins, row) < 2
    ensures Row(layout, bins, FreqOf(layout, bins, row), PartOf(layout, bins, row)) == row
  {
  }

  function Coefficient(m: Interp, window: seq<real>, sign: real, freq: nat, part: nat, n: nat): real
    requires n < |window|
  {
    var a := Angle(m, freq, n, |window|);
    if part == 0 then window[n] * m.cosine(a) else sign * window[n] * m.sine(a)
  }

  function KernelAt(m: Interp, window: seq<real>, bins: nat, sign: real, layout: Layout, row: nat, n: nat): real
    requires row < bins * 2 && n < |window|
  {
    Coefficient(m, window, sign, FreqOf(layout, bins, row), PartOf(layout, bins, row), n)
  }

  function Kernels(m: Interp, window: seq<real>, bins: nat, sign: real, layout: Layout): Tensor<real> {
    var dims := [bins * 2, 1, |window|];
    Build(dims, idx requires InBounds(dims, idx) => KernelAt(m, window, bins, sign, layout, idx[0], idx[2]))
  }

  function Basis(m: Interp, window: seq<real>, length: int, onesided: bool, sign: real, layout: Layout)
    : Result<Tensor<real>, StftError>
  {
    if |window| != length then Failure(WindowLength)
    else
      var bins := FreqBins(|window|, onesided);
      if layout == UnknownLayout && bins > 0 then Failure(UnsupportedLayout)
      else Success(Kernels(m, window, bins, sign, layout))
  }

  lemma DivBound(rows: nat, cols: nat, k: nat)
    requires cols > 0 && k < rows * cols
    ensures k / cols < rows
  {
  }

  lemma Unflatten2(cols: nat, k: nat)
    requires k < cols
    ensures Product([1, cols]) == cols && Product([cols]) == cols && Unflatten([1, cols], k) == [0, k]
  {
    Product1([cols]);
    Product2([1, cols]);
    assert [1, cols][1..] == [cols] && [cols][1..] == [];
    assert Unflatten([cols], k) == [k];
  }

  lemma Unflatten3(rows: nat, cols: nat, k: nat)
    requires cols > 0 && k < rows * cols
    ensures Product([rows, 1, cols]) == rows * cols
    ensures k / cols < rows && Unflatten([rows, 1, cols], k) == [k / cols, 0, k % cols]
  {
    var dims := [rows, 1, cols];
    Product3(dims);
    assert dims[1..] == [1, cols];
    Unflatten2(cols, k % cols);
    DivBound(rows, cols, k);
  }

  /** The filled array, read in row-major order, is the specified tensor. */
  lemma RowsAreKernels(m: Interp, window: seq<real>, bins: nat, sign: real, layout: Layout, t: Tensor<real>)
    requires t.dims == [bins * 2, 1, |window|] && |t.data| == bins * 2 * |window|
    requires forall k :: 0 <= k < |t.data| ==>
               |window| > 0 && k / |window| < bins * 2 &&
               t.data[k] == KernelAt(m, window, bins, sign, layout, k / |window|, k % |window|)
    ensures t == Kernels(m, window, bins, sign, layout)
  {
    Product3(t.dims);
    var w := Kernels(m, window, bins, sign, layout);
    forall k | 0 <= k < |t.data| ensures t.data[k] == w.data[k] {
      Unflatten3(bins * 2, |window|, k);
    }
  }

  /** Frequencies below f have both their rows in the array. */
  ghost predicate Filled(m: Interp, window: seq<real>, bins: nat, sign: real, layout: Layout, kernels: array3<real>,
                         f: nat)
    reads kernels
    requires kernels.Length0 == bins * 2 && kernels.Length1 == 1 && kernels.Length2 == |window| && f <= bins
  {
    forall freq, part, n ::
      0 <= freq < f && 0 <= part < 2 && 0 <= n < |window| && Row(layout, bins, freq, part) < bins * 2 ==>
        kernels[Row(layout, bins, freq, part), 0, n] == Coefficient(m, window, sign, freq, part, n)
  }

  lemma FilledRow(m: Interp, window: seq<real>, bins: nat, sign: real, layout: Layout, kernels: array3<real>,
                  row: nat, n: nat)
    requires kernels.Length0 == bins * 2 && kernels.Length1 == 1 && kernels.Length2 == |window|
    requires Filled(m, window, bins, sign, layout, kernels, bins) && row < bins * 2 && n < |window|
    ensures kernels[row, 0, n] == KernelAt(m, window, bins, sign, layout, row, n)
  {
  }

  method MakeBasis(m: Interp, window: seq<real>, length: int, onesided: bool, sign: real, layout: Layout)
    returns (r: Result<Tensor<real>, StftError>)
    ensures r == Basis(m, window, length, onesided, sign, layout)
  {
    if |window| != length {
      return Failure(WindowLength);
    }
    var bins := FreqBins(|window|, onesided);
    var kernels := new real[bins * 2, 1, |window|];
    for freq := 0 to bins
      invariant freq > 0 ==> layout != UnknownLayout
      invariant Filled(m, window, bins, sign, layout, kernels, freq)
    {
      if layout == UnknownLayout {
        return Failure(UnsupportedLayout);
      }
      var re := if layout == Interleaved then freq * 2 else freq;
      var im := if layout == Interleaved then freq * 2 + 1 else bins + freq;
      FillRows(m, window, bins, sign, layout, kernels, freq, re, im);
    }
    var t := ToTensor(m, window, bins, sign, layout, kernels);
    return Success(t);
  }

  /** Element number k of the array in row-major order. */
  function Element(kernels: array3<real>, k: nat): real
    reads kernels
    requires kernels.Length1 == 1 && k < kernels.Length0 * kernels.Length2
  {
    Positive(kernels.Length0, kernels.Length2, k);
    DivBound(kernels.Length0, kernels.Length2, k);
    kernels[k / kernels.Length2, 0, k % kernels.Length2]
  }

  lemma Positive(rows: nat, cols: nat, k: nat)
    requires k < rows * cols
    ensures cols > 0
  {
  }

  lemma ElementIs(m: Interp, window: seq<real>, bins: nat, sign: real, layout: Layout, kernels: array3<real>, k: nat)
    requires kernels.Length0 == bins * 2 && kernels.Length1 == 1 && kernels.Length2 == |window|
    requires Filled(m, window, bins, sign, layout, kernels, bins) && k < bins * 2 * |window|
    ensures |window| > 0 && k / |window| < bins * 2
    ensures Element(kernels, k) == KernelAt(m, window, bins, sign, layout, k / |window|, k % |window|)
  {
    Positive(bins * 2, |window|, k);
    DivBound(bins * 2, |window|, k);
    FilledRow(m, window, bins, sign, layout, kernels, k / |window|, k % |window|);
  }

  method ToTensor(m: Interp, window: seq<real>, bins: nat, sign: real, layout: Layout, kernels: array3<real>)
    returns (t: Tensor<real>)
    requires kernels.Length0 == bins * 2 && kernels.Length1 == 1 && kernels.Length2 == |window|
    requires Filled(m, window, bins, sign, layout, kernels, bins)
    ensures t == Kernels(m, window, bins, sign, layout)
  {
    var n := kernels.Length0 * kernels.Length2;
    t := Tensor([bins * 2, 1, |window|], seq(n, k requires 0 <= k < n && kernels.Length1 == 1
                                                   && n == kernels.Length0 * kernels.Length2
                                                reads kernels => Element(kernels, k)));
    forall k | 0 <= k < |t.data|
      ensures |window| > 0 && k / |window| < bins * 2
      ensures t.data[k] == KernelAt(m, window, bins, sign, layout, k / |window|, k % |window|)
    {
      ElementIs(m, window, bins, sign, layout, kernels, k);
    }
    RowsAreKernels(m, window, bins, sign, layout, t);
  }

  /** One slice assignment, `kernels[row, 0, :] = values`. */
  method FillRow(kernels: array3<real>, row: nat, values: seq<real>)
    requires kernels.Length1 == 1 && kernels.Length2 == |values| && row < kernels.Length0
    modifies kernels
    ensures forall n :: 0 <= n < |values| ==> kernels[row, 0, n] == values[n]
    ensures forall r, n :: 0 <= r < kernels.Length0 && 0 <= n < |values| && r != row ==>
              kernels[r, 0, n] == old(kernels[r, 0, n])
  {
    forall n | 0 <= n < |values| {
      kernels[row, 0, n] := values[n];
    }
  }

  function Coefficients(m: Interp, window: seq<real>, sign: real, freq: nat, part: nat): seq<real> {
    seq(|window|, n requires 0 <= n < |window| => Coefficient(m, window, sign, freq, part, n))
  }

  /** The two slice assignments of one frequency. */
  method FillRows(m: Interp, window: seq<real>, bins: nat, sign: real, layout: Layout, kernels: array3<real>,
                  freq: nat, re: nat, im: nat)
    requires kernels.Length0 == bins * 2 && kernels.Length1 == 1 && kernels.Length2 == |window| && freq < bins
    requires re == Row(layout, bins, freq, 0) && im == Row(layout, bins, freq, 1)
    requires Filled(m, window, bins, sign, layout, kernels, freq)
    modifies kernels
    ensures Filled(m, window, bins, sign, layout, kernels, freq + 1)
  {
    RowDecodes(layout, bins, freq, 0);
    RowDecodes(layout, bins, freq, 1);
    FillRow(kernels, re, Coefficients(m, window, sign, freq, 0));
    FillRow(kernels, im, Coefficients(m, window, sign, freq, 1));
  }
}
