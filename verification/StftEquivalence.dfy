/**
  Convolution with the DFT kernels, reshaped and transposed, computes the short-time Fourier
  transform at every (batch, frame, frequency, part) index, in either channel layout.
*/
module StftEquivalence {
  import opened Onnx
  import opened StftKernels
  import opened Tensors

  /** The shape the convolution result is reshaped to. */
  function ChannelDims(layout: Layout, batch: nat, bins: nat, frames: nat): seq<nat> {
    if layout == Interleaved then [batch, bins, 2, frames] else [batch, 2, bins, frames]
  }

  function Perm(layout: Layout): seq<nat> {
    if layout == Interleaved then [0, 3, 1, 2] else [0, 3, 2, 1]
  }

  /** The four inserted operators applied to a signal [B, S]. */
  function ByConv(m: Interp, x: Tensor<real>, window: seq<real>, step: nat, onesided: bool, sign: real, layout: Layout)
    : Tensor<real>
    requires StftShapes(x, window, step)
  {
    var bins := FreqBins(|window|, onesided);
    Transposed(layout, Convolved(m, x, window, step, bins, sign, layout), x.dims[0], bins,
               Frames(x.dims[1], |window|, step))
  }

  function Convolved(m: Interp, x: Tensor<real>, window: seq<real>, step: nat, bins: nat, sign: real,
                     layout: Layout): (c: Tensor<real>)
    requires StftShapes(x, window, step)
    ensures c.Valid() && c.dims == [x.dims[0], bins * 2, Frames(x.dims[1], |window|, step)]
  {
    var u := Tensor(UnsqueezeDims(x.dims, 1), x.data);
    Product2(x.dims);
    Product3(u.dims);
    ConvTensor(u, Kernels(m, window, bins, sign, layout), step)
  }

  lemma PermOk(layout: Layout)
    ensures IsPermutation(Perm(layout))
  {
    assert 0 in Perm(layout) by { assert Perm(layout)[0] == 0; }
    assert 3 in Perm(layout) by { assert Perm(layout)[1] == 3; }
    assert 1 in Perm(layout) by { assert Perm(layout)[if layout == Interleaved then 2 else 3] == 1; }
    assert 2 in Perm(layout) by { assert Perm(layout)[if layout == Interleaved then 3 else 2] == 2; }
  }

  // Row-major index arithmetic

  lemma Horner(i: nat, b: nat, j: nat, c: nat)
    ensures i * (b * c) + j * c == (i * b + j) * c
    ensures i * (b * c) == (i * b) * c
  {
  }

  lemma Flatten1(d: nat, l: nat)
    requires l < d
    ensures Product([d]) == d && Flatten([d], [l]) == l
  {
  }

  lemma Flatten2(c: nat, d: nat, k: nat, l: nat)
    requires k < c && l < d
    ensures InBounds([c, d], [k, l]) && Product([c, d]) == c * d && Flatten([c, d], [k, l]) == k * d + l
  {
    Product2([c, d]);
    Flatten1(d, l);
    assert [c, d][1..] == [d] && [k, l][1..] == [l];
  }

  lemma ProductMore(b: nat, c: nat, d: nat)
    ensures Product([b, c, d]) == b * (c * d)
  {
    Product2([c, d]);
    assert [b, c, d][1..] == [c, d];
  }

  lemma Flatten3(b: nat, c: nat, d: nat, j: nat, k: nat, l: nat)
    requires j < b && k < c && l < d
    ensures InBounds([b, c, d], [j, k, l])
    ensures Flatten([b, c, d], [j, k, l]) == (j * c + k) * d + l
  {
    Flatten2(c, d, k, l);
    assert [b, c, d][1..] == [c, d] && [j, k, l][1..] == [k, l];
    Horner(j, c, k, d);
  }

  lemma Flatten4(a: nat, b: nat, c: nat, d: nat, i: nat, j: nat, k: nat, l: nat)
    requires i < a && j < b && k < c && l < d
    ensures InBounds([a, b, c, d], [i, j, k, l])
    ensures Flatten([a, b, c, d], [i, j, k, l]) == i * (b * (c * d)) + ((j * c + k) * d + l)
  {
    Flatten3(b, c, d, j, k, l);
    ProductMore(b, c, d);
    assert [a, b, c, d][1..] == [b, c, d] && [i, j, k, l][1..] == [j, k, l];
  }

  /** Merging axes 1 and 2 of four does not move any element. */
  lemma MergeAxes(a: nat, b: nat, c: nat, d: nat, i: nat, j: nat, k: nat, l: nat)
    requires i < a && j < b && k < c && l < d
    ensures j * c + k < b * c
    ensures InBounds([a, b, c, d], [i, j, k, l]) && InBounds([a, b * c, d], [i, j * c + k, l])
    ensures Flatten([a, b, c, d], [i, j, k, l]) == Flatten([a, b * c, d], [i, j * c + k, l])
  {
    RowFits(b, c, j);
    Flatten4(a, b, c, d, i, j, k, l);
    Flatten3(a, b * c, d, i, j * c + k, l);
    Horner(b, c, 0, d);
    Horner(i, b * c, j * c + k, d);
  }

  lemma ChannelsMerge(layout: Layout, batch: nat, bins: nat, frames: nat)
    ensures Product(ChannelDims(layout, batch, bins, frames)) == Product([batch, bins * 2, frames])
  {
    var dims := ChannelDims(layout, batch, bins, frames);
    var b, c := dims[1], dims[2];
    assert dims[1..] == [b, c, frames];
    ProductMore(b, c, frames);
    ProductMore(batch, bins * 2, frames);
    Horner(b, c, 0, frames);
  }

  /** The element of the reshaped tensor that the transposition reads. */
  function ChannelIndex(layout: Layout, b: nat, f: nat, k: nat, p: nat): seq<nat> {
    if layout == Interleaved then [b, k, p, f] else [b, p, k, f]
  }

  lemma IndexOfAt(xs: seq<nat>, i: nat)
    requires i < |xs| && forall j :: 0 <= j < i ==> xs[j] != xs[i]
    ensures xs[i] in xs && IndexOf(xs, xs[i]) == i
  {
    if i > 0 { IndexOfAt(xs[1..], i - 1); }
  }

  lemma SourceAt(perm: seq<nat>, idx: seq<nat>, i: nat)
    requires |idx| == |perm| && IsPermutation(perm) && i < |perm| && forall j :: 0 <= j < i ==> perm[j] != perm[i]
    ensures SourceIndex(perm, idx)[perm[i]] == idx[i]
  {
    IndexOfAt(perm, i);
  }

  lemma PermDistinct(layout: Layout, i: nat)
    requires i < 4
    ensures forall j :: 0 <= j < i ==> Perm(layout)[j] != Perm(layout)[i]
  {
  }

  lemma SourceIs(layout: Layout, b: nat, f: nat, k: nat, p: nat)
    ensures IsPermutation(Perm(layout))
    ensures SourceIndex(Perm(layout), [b, f, k, p]) == ChannelIndex(layout, b, f, k, p)
  {
    PermOk(layout);
    var idx := [b, f, k, p];
    var s := SourceIndex(Perm(layout), idx);
    forall i | 0 <= i < 4 ensures s[Perm(layout)[i]] == idx[i] {
      PermDistinct(layout, i);
      SourceAt(Perm(layout), idx, i);
    }
    SourceForm(layout, s, idx);
  }

  lemma SourceForm(layout: Layout, s: seq<nat>, idx: seq<nat>)
    requires |s| == 4 && |idx| == 4 && forall i :: 0 <= i < 4 ==> Perm(layout)[i] < 4 && s[Perm(layout)[i]] == idx[i]
    ensures s == ChannelIndex(layout, idx[0], idx[1], idx[2], idx[3])
  {
  }

  /** Either layout stores (frequency, part) in the channel that holds its kernel. */
  lemma ChannelFlat(layout: Layout, batch: nat, bins: nat, frames: nat, b: nat, f: nat, k: nat, p: nat)
    requires b < batch && f < frames && k < bins && p < 2
    ensures Row(layout, bins, k, p) < bins * 2
    ensures InBounds(ChannelDims(layout, batch, bins, frames), ChannelIndex(layout, b, f, k, p))
    ensures InBounds([batch, bins * 2, frames], [b, Row(layout, bins, k, p), f])
    ensures Flatten(ChannelDims(layout, batch, bins, frames), ChannelIndex(layout, b, f, k, p))
            == Flatten([batch, bins * 2, frames], [b, Row(layout, bins, k, p), f])
  {
    RowDecodes(layout, bins, k, p);
    if layout == Interleaved {
      MergeAxes(batch, bins, 2, frames, b, k, p, f);
    } else {
      MergeAxes(batch, 2, bins, frames, b, p, k, f);
      assert p * bins + k == Row(layout, bins, k, p);
    }
  }

  // One output element

  function Signed(sign: real, part: nat, v: real): real {
    if part == 0 then v else -sign * v
  }

  lemma TermSigned(m: Interp, x: real, window: seq<real>, sign: real, freq: nat, part: nat, n: nat)
    requires n < |window|
    ensures var a := Angle(m, freq, n, |window|);
      x * Coefficient(m, window, sign, freq, part, n)
      == Signed(sign, part, (x * window[n]) * (if part == 0 then m.cosine(a) else -m.sine(a)))
  {
    var w, a := window[n], Angle(m, freq, n, |window|);
    if part == 0 {
      assert x * (w * m.cosine(a)) == (x * w) * m.cosine(a);
    } else {
      var s := m.sine(a);
      assert x * (sign * w * s) == sign * ((x * w) * s);
      assert -sign * ((x * w) * (-s)) == sign * ((x * w) * s);
    }
  }

  lemma {:induction false} CorrelateIsDft(m: Interp, x: seq<real>, base: nat, w: seq<real>, row: nat, window: seq<real>,
                                          sign: real, freq: nat, part: nat, n: nat)
    requires n <= |window| && base + n <= |x| && row + n <= |w|
    requires forall i :: 0 <= i < n ==> w[row + i] == Coefficient(m, window, sign, freq, part, i)
    ensures Correlate(x, base, w, row, n) == Signed(sign, part, DftSum(m, x, base, window, freq, part, n))
  {
    if n > 0 {
      CorrelateIsDft(m, x, base, w, row, window, sign, freq, part, n - 1);
      TermSigned(m, x[base + n - 1], window, sign, freq, part, n - 1);
      assert w[row + (n - 1)] == Coefficient(m, window, sign, freq, part, n - 1);
      SignedSum(sign, part, DftSum(m, x, base, window, freq, part, n - 1),
                DftSum(m, x, base, window, freq, part, n) - DftSum(m, x, base, window, freq, part, n - 1));
    }
  }

  lemma SignedSum(sign: real, part: nat, u: real, v: real)
    ensures Signed(sign, part, u) + Signed(sign, part, v) == Signed(sign, part, u + v)
  {
  }

  /** A row of the kernel tensor holds the coefficients of its frequency and part. */
  lemma KernelRow(m: Interp, window: seq<real>, bins: nat, sign: real, layout: Layout, freq: nat, part: nat, n: nat)
    requires freq < bins && part < 2 && n < |window|
    ensures var row := Row(layout, bins, freq, part);
      && row * |window| + n < |Kernels(m, window, bins, sign, layout).data|
      && Kernels(m, window, bins, sign, layout).data[row * |window| + n] == Coefficient(m, window, sign, freq, part, n)
  {
    var w := Kernels(m, window, bins, sign, layout);
    var row := Row(layout, bins, freq, part);
    RowDecodes(layout, bins, freq, part);
    Flatten3(bins * 2, 1, |window|, row, 0, n);
    UnflattenFlatten(w.dims, [row, 0, n]);
  }

  lemma ConvTensorAt(x: Tensor<real>, w: Tensor<real>, stride: nat, idx: seq<nat>)
    requires ConvShapes(x, w, stride) && InBounds(ConvDims(x, w, stride), idx)
    ensures At(ConvTensor(x, w, stride), idx) == ConvAt(x, w, stride, idx)
  {
    UnflattenFlatten(ConvDims(x, w, stride), idx);
  }

  lemma StftTensorAt(m: Interp, x: Tensor<real>, window: seq<real>, step: nat, onesided: bool, idx: seq<nat>)
    requires StftShapes(x, window, step) && InBounds(StftDims(x, window, step, onesided), idx)
    ensures At(StftTensor(m, x, window, step, onesided), idx) == StftAt(m, x, window, step, onesided, idx)
  {
    UnflattenFlatten(StftDims(x, window, step, onesided), idx);
  }

  lemma TransposeTensorAt(perm: seq<nat>, t: Tensor<real>, idx: seq<nat>)
    requires t.Valid() && |perm| == |t.dims| && IsPermutation(perm) && InBounds(PermuteDims(perm, t.dims), idx)
    ensures At(TransposeTensor(perm, t), idx) == TransposeAt(perm, t, idx)
  {
    UnflattenFlatten(PermuteDims(perm, t.dims), idx);
  }

  function FrameStart(x: Tensor<real>, step: nat, b: nat, f: nat): nat
    requires |x.dims| == 2
  {
    b * x.dims[1] + f * step
  }

  function RowStart(length: nat, row: nat): nat {
    row * length
  }

  /** One row of the kernel bank correlated with one frame. */
  lemma RowIsDft(m: Interp, x: seq<real>, base: nat, window: seq<real>, bins: nat, sign: real, layout: Layout,
                 freq: nat, part: nat)
    requires base + |window| <= |x| && freq < bins && part < 2
    ensures var w, row := Kernels(m, window, bins, sign, layout), Row(layout, bins, freq, part);
      && RowStart(|window|, row) + |window| <= |w.data|
      && Correlate(x, base, w.data, RowStart(|window|, row), |window|)
         == Signed(sign, part, DftSum(m, x, base, window, freq, part, |window|))
  {
    var w, row := Kernels(m, window, bins, sign, layout), Row(layout, bins, freq, part);
    RowDecodes(layout, bins, freq, part);
    RowFits(bins * 2, |window|, row);
    Product3(w.dims);
    forall n | 0 <= n < |window| ensures w.data[row * |window| + n] == Coefficient(m, window, sign, freq, part, n) {
      KernelRow(m, window, bins, sign, layout, freq, part, n);
    }
    CorrelateIsDft(m, x, base, w.data, row * |window|, window, sign, freq, part, |window|);
  }

  lemma StftAtIs(m: Interp, x: Tensor<real>, window: seq<real>, step: nat, onesided: bool, idx: seq<nat>)
    requires StftShapes(x, window, step) && InBounds(StftDims(x, window, step, onesided), idx)
    ensures FrameStart(x, step, idx[0], idx[1]) + |window| <= |x.data|
    ensures idx[0] < x.dims[0] && idx[1] < Frames(x.dims[1], |window|, step)
    ensures idx[2] < FreqBins(|window|, onesided) && idx[3] < 2
    ensures StftAt(m, x, window, step, onesided, idx)
            == DftSum(m, x.data, FrameStart(x, step, idx[0], idx[1]), window, idx[2], idx[3], |window|)
  {
    var dims := StftDims(x, window, step, onesided);
    assert idx[0] < dims[0] && idx[1] < dims[1] && idx[2] < dims[2] && idx[3] < dims[3];
    RowFits(x.dims[0], x.dims[1], idx[0]);
    FrameFits(x.dims[1], |window|, step, idx[1]);
    Product2(x.dims);
  }

  /** Where a frame and a kernel row end. */
  lemma Extents(x: Tensor<real>, w: Tensor<real>, length: nat, step: nat, b: nat, row: nat, f: nat)
    requires x.Valid() && |x.dims| == 2 && w.Valid() && |w.dims| == 3 && w.dims[1] == 1 && w.dims[2] == length
    requires step > 0 && length <= x.dims[1] && b < x.dims[0] && row < w.dims[0] && f < Frames(x.dims[1], length, step)
    ensures FrameStart(x, step, b, f) + length <= |x.data| && RowStart(length, row) + length <= |w.data|
  {
    RowFits(x.dims[0], x.dims[1], b);
    FrameFits(x.dims[1], length, step, f);
    RowFits(w.dims[0], length, row);
    Product2(x.dims);
    Product3(w.dims);
  }

  lemma ConvolvedIs(m: Interp, x: Tensor<real>, window: seq<real>, step: nat, bins: nat, sign: real, layout: Layout,
                    b: nat, row: nat, f: nat, base: nat, start: nat)
    requires StftShapes(x, window, step) && b < x.dims[0] && row < bins * 2 && f < Frames(x.dims[1], |window|, step)
    requires base == FrameStart(x, step, b, f) && base + |window| <= |x.data|
    requires start == RowStart(|window|, row) && start + |window| <= |Kernels(m, window, bins, sign, layout).data|
    ensures var c := Convolved(m, x, window, step, bins, sign, layout);
      && InBounds(c.dims, [b, row, f])
      && At(c, [b, row, f]) == Correlate(x.data, base, Kernels(m, window, bins, sign, layout).data, start, |window|)
  {
    var u := Tensor(UnsqueezeDims(x.dims, 1), x.data);
    Product2(x.dims);
    Product3(u.dims);
    ConvTensorAt(u, Kernels(m, window, bins, sign, layout), step, [b, row, f]);
  }

  /** The convolution result in the channel of (frequency, part) is the signed DFT of the frame. */
  lemma ConvolvedAt(m: Interp, x: Tensor<real>, window: seq<real>, step: nat, onesided: bool, sign: real,
                    layout: Layout, idx: seq<nat>)
    requires StftShapes(x, window, step) && InBounds(StftDims(x, window, step, onesided), idx)
    ensures var bins := FreqBins(|window|, onesided);
      var c := Convolved(m, x, window, step, bins, sign, layout);
      && InBounds(c.dims, [idx[0], Row(layout, bins, idx[2], idx[3]), idx[1]])
      && At(c, [idx[0], Row(layout, bins, idx[2], idx[3]), idx[1]])
         == Signed(sign, idx[3], StftAt(m, x, window, step, onesided, idx))
  {
    var bins := FreqBins(|window|, onesided);
    var w, row := Kernels(m, window, bins, sign, layout), Row(layout, bins, idx[2], idx[3]);
    StftAtIs(m, x, window, step, onesided, idx);
    RowDecodes(layout, bins, idx[2], idx[3]);
    Extents(x, w, |window|, step, idx[0], row, idx[1]);
    var base, start := FrameStart(x, step, idx[0], idx[1]), RowStart(|window|, row);
    ConvolvedIs(m, x, window, step, bins, sign, layout, idx[0], row, idx[1], base, start);
    RowIsDft(m, x.data, base, window, bins, sign, layout, idx[2], idx[3]);
  }

  lemma ByConvDims(m: Interp, x: Tensor<real>, window: seq<real>, step: nat, onesided: bool, sign: real, layout: Layout)
    requires StftShapes(x, window, step)
    ensures ByConv(m, x, window, step, onesided, sign, layout).dims == StftDims(x, window, step, onesided)
  {
  }

  lemma PermuteFour(perm: seq<nat>, dims: seq<nat>)
    requires |perm| == 4 && |dims| == 4 && IsPermutation(perm)
    ensures forall i :: 0 <= i < 4 ==> perm[i] < 4
    ensures PermuteDims(perm, dims) == [dims[perm[0]], dims[perm[1]], dims[perm[2]], dims[perm[3]]]
  {
  }

  lemma ChannelDimsPermute(layout: Layout, batch: nat, bins: nat, frames: nat)
    ensures IsPermutation(Perm(layout))
    ensures PermuteDims(Perm(layout), ChannelDims(layout, batch, bins, frames)) == [batch, frames, bins, 2]
  {
    PermOk(layout);
    PermuteFour(Perm(layout), ChannelDims(layout, batch, bins, frames));
  }

  /** The reshaped result, transposed. */
  function Transposed(layout: Layout, c: Tensor<real>, batch: nat, bins: nat, frames: nat): (t: Tensor<real>)
    requires c.Valid() && c.dims == [batch, bins * 2, frames]
    ensures t.Valid() && t.dims == [batch, frames, bins, 2]
  {
    ChannelsMerge(layout, batch, bins, frames);
    ChannelDimsPermute(layout, batch, bins, frames);
    TransposeTensor(Perm(layout), Tensor(ChannelDims(layout, batch, bins, frames), c.data))
  }

  /** Transposing the reshaped data reads, for (batch, frame, frequency, part), the channel of (frequency, part). */
  lemma ChannelAt(layout: Layout, c: Tensor<real>, batch: nat, bins: nat, frames: nat, b: nat, f: nat, k: nat, p: nat)
    requires c.Valid() && c.dims == [batch, bins * 2, frames]
    requires b < batch && f < frames && k < bins && p < 2
    ensures InBounds(c.dims, [b, Row(layout, bins, k, p), f])
    ensures At(Transposed(layout, c, batch, bins, frames), [b, f, k, p]) == At(c, [b, Row(layout, bins, k, p), f])
  {
    var r := Tensor(ChannelDims(layout, batch, bins, frames), c.data);
    ChannelsMerge(layout, batch, bins, frames);
    ChannelDimsPermute(layout, batch, bins, frames);
    assert InBounds([batch, frames, bins, 2], [b, f, k, p]);
    TransposeTensorAt(Perm(layout), r, [b, f, k, p]);
    SourceIs(layout, b, f, k, p);
    ChannelFlat(layout, batch, bins, frames, b, f, k, p);
  }

  lemma ByConvAt(m: Interp, x: Tensor<real>, window: seq<real>, step: nat, onesided: bool, sign: real, layout: Layout,
                 idx: seq<nat>)
    requires StftShapes(x, window, step) && InBounds(StftDims(x, window, step, onesided), idx)
    ensures ByConv(m, x, window, step, onesided, sign, layout).dims == StftDims(x, window, step, onesided)
    ensures At(ByConv(m, x, window, step, onesided, sign, layout), idx)
            == Signed(sign, idx[3], StftAt(m, x, window, step, onesided, idx))
  {
    var bins, frames := FreqBins(|window|, onesided), Frames(x.dims[1], |window|, step);
    ByConvDims(m, x, window, step, onesided, sign, layout);
    StftAtIs(m, x, window, step, onesided, idx);
    assert idx == [idx[0], idx[1], idx[2], idx[3]];
    ChannelAt(layout, Convolved(m, x, window, step, bins, sign, layout), x.dims[0], bins, frames, idx[0], idx[1],
              idx[2], idx[3]);
    ConvolvedAt(m, x, window, step, onesided, sign, layout, idx);
  }

  /** Every imaginary component of the transform is zero. */
  ghost predicate AllReal(m: Interp, x: Tensor<real>, window: seq<real>, step: nat, onesided: bool)
    requires StftShapes(x, window, step)
  {
    forall idx :: InBounds(StftDims(x, window, step, onesided), idx) && idx[3] == 1 ==>
      StftAt(m, x, window, step, onesided, idx) == 0.0
  }

  lemma SignedSame(m: Interp, x: Tensor<real>, window: seq<real>, step: nat, onesided: bool, sign: real,
                   layout: Layout, idx: seq<nat>)
    requires StftShapes(x, window, step) && InBounds(StftDims(x, window, step, onesided), idx)
    ensures ByConv(m, x, window, step, onesided, sign, layout).dims == StftDims(x, window, step, onesided)
    ensures At(ByConv(m, x, window, step, onesided, sign, layout), idx)
            == At(StftTensor(m, x, window, step, onesided), idx)
      <==> idx[3] == 0 || sign == -1.0 || StftAt(m, x, window, step, onesided, idx) == 0.0
  {
    ByConvAt(m, x, window, step, onesided, sign, layout, idx);
    StftTensorAt(m, x, window, step, onesided, idx);
    SignedFixed(sign, idx[3], StftAt(m, x, window, step, onesided, idx));
  }

  lemma NonZeroProduct(a: real, b: real)
    requires a != 0.0 && b != 0.0
    ensures a * b != 0.0
  {
  }

  lemma SignedFixed(sign: real, part: nat, v: real)
    ensures Signed(sign, part, v) == v <==> part == 0 || sign == -1.0 || v == 0.0
  {
    assert -sign * v == v - (sign + 1.0) * v;
    if v != 0.0 && sign != -1.0 {
      NonZeroProduct(sign + 1.0, v);
    }
  }

  /**
    The rewritten operators compute the STFT exactly when the imaginary sign is -1 or every
    imaginary component is zero, in either channel layout.
  */
  lemma ConvIsStft(m: Interp, x: Tensor<real>, window: seq<real>, step: nat, onesided: bool, sign: real, layout: Layout)
    requires StftShapes(x, window, step)
    ensures ByConv(m, x, window, step, onesided, sign, layout) == StftTensor(m, x, window, step, onesided)
      <==> sign == -1.0 || AllReal(m, x, window, step, onesided)
  {
    var t, s := ByConv(m, x, window, step, onesided, sign, layout), StftTensor(m, x, window, step, onesided);
    ByConvDims(m, x, window, step, onesided, sign, layout);
    forall idx | InBounds(t.dims, idx)
      ensures At(t, idx) == At(s, idx)
              <==> idx[3] == 0 || sign == -1.0 || StftAt(m, x, window, step, onesided, idx) == 0.0
    {
      SignedSame(m, x, window, step, onesided, sign, layout, idx);
    }
    if sign == -1.0 || AllReal(m, x, window, step, onesided) {
      forall idx | InBounds(t.dims, idx) ensures At(t, idx) == At(s, idx) {
        assert idx[3] < t.dims[3];
      }
      TensorExt(t, s);
    }
  }

  /** The two layouts give the same tensor, whatever the sign. */
  lemma LayoutsAgree(m: Interp, x: Tensor<real>, window: seq<real>, step: nat, onesided: bool, sign: real)
    requires StftShapes(x, window, step)
    ensures ByConv(m, x, window, step, onesided, sign, Interleaved)
            == ByConv(m, x, window, step, onesided, sign, Blocked)
  {
    var a := ByConv(m, x, window, step, onesided, sign, Interleaved);
    var b := ByConv(m, x, window, step, onesided, sign, Blocked);
    ByConvDims(m, x, window, step, onesided, sign, Interleaved);
    ByConvDims(m, x, window, step, onesided, sign, Blocked);
    forall idx | InBounds(StftDims(x, window, step, onesided), idx) ensures At(a, idx) == At(b, idx) {
      ByConvAt(m, x, window, step, onesided, sign, Interleaved, idx);
      ByConvAt(m, x, window, step, onesided, sign, Blocked, idx);
    }
    TensorExt(a, b);
  }

  // Over all signals

  /** A signal of one frame with a single sample. */
  function Impulse(length: nat, at: nat): (x: Tensor<real>)
    ensures x.Valid() && x.dims == [1, length]
  {
    Product2([1, length]);
    Tensor([1, length], seq(length, i => if i == at then 1.0 else 0.0))
  }

  /** The transform of an impulse is the coefficient of its sample. */
  lemma {:induction false} ImpulseDft(m: Interp, window: seq<real>, at: nat, freq: nat, n: nat)
    requires at < |window| && n <= |window|
    ensures DftSum(m, Impulse(|window|, at).data, 0, window, freq, 1, n)
            == if at < n then -(window[at] * m.sine(Angle(m, freq, at, |window|))) else 0.0
  {
    if n > 0 {
      ImpulseDft(m, window, at, freq, n - 1);
      var x := Impulse(|window|, at).data[n - 1];
      var w, s := window[n - 1], m.sine(Angle(m, freq, n - 1, |window|));
      if n - 1 == at {
        assert (x * w) * (-s) == -(w * s);
      } else {
        assert (x * w) * (-s) == 0.0;
      }
    }
  }

  /** Every imaginary coefficient of the windowed transform is zero. */
  ghost predicate RealWindow(m: Interp, window: seq<real>, onesided: bool) {
    forall freq, n :: 0 <= freq < FreqBins(|window|, onesided) && 0 <= n < |window| ==>
      window[n] * m.sine(Angle(m, freq, n, |window|)) == 0.0
  }

  lemma {:induction false} RealWindowSum(m: Interp, x: seq<real>, base: nat, window: seq<real>, onesided: bool,
                                         freq: nat, n: nat)
    requires n <= |window| && base + n <= |x| && freq < FreqBins(|window|, onesided) && RealWindow(m, window, onesided)
    ensures DftSum(m, x, base, window, freq, 1, n) == 0.0
  {
    if n > 0 {
      RealWindowSum(m, x, base, window, onesided, freq, n - 1);
      var v, w, s := x[base + n - 1], window[n - 1], m.sine(Angle(m, freq, n - 1, |window|));
      assert (v * w) * (-s) == -(v * (w * s));
    }
  }

  lemma RealWindowReal(m: Interp, x: Tensor<real>, window: seq<real>, step: nat, onesided: bool)
    requires StftShapes(x, window, step) && RealWindow(m, window, onesided)
    ensures AllReal(m, x, window, step, onesided)
  {
    forall idx | InBounds(StftDims(x, window, step, onesided), idx) && idx[3] == 1
      ensures StftAt(m, x, window, step, onesided, idx) == 0.0
    {
      StftAtIs(m, x, window, step, onesided, idx);
      RealWindowSum(m, x.data, FrameStart(x, step, idx[0], idx[1]), window, onesided, idx[2], |window|);
    }
  }

  /** The imaginary part of an impulse's transform at one frequency. */
  lemma ImpulseAt(m: Interp, window: seq<real>, step: nat, onesided: bool, at: nat, freq: nat)
    requires step > 0 && at < |window| && freq < FreqBins(|window|, onesided)
    ensures var x := Impulse(|window|, at);
      && StftShapes(x, window, step) && InBounds(StftDims(x, window, step, onesided), [0, 0, freq, 1])
      && StftAt(m, x, window, step, onesided, [0, 0, freq, 1]) == -(window[at] * m.sine(Angle(m, freq, at, |window|)))
  {
    var x, idx := Impulse(|window|, at), [0, 0, freq, 1];
    assert StftDims(x, window, step, onesided) == [1, 1, FreqBins(|window|, onesided), 2];
    StftAtIs(m, x, window, step, onesided, idx);
    ImpulseDft(m, window, at, freq, |window|);
  }

  /** An impulse shows every nonzero imaginary coefficient. */
  lemma ImpulseDiffers(m: Interp, window: seq<real>, step: nat, onesided: bool, sign: real, layout: Layout, at: nat,
                       freq: nat)
    requires step > 0 && at < |window| && freq < FreqBins(|window|, onesided) && sign != -1.0
    requires window[at] * m.sine(Angle(m, freq, at, |window|)) != 0.0
    ensures var x := Impulse(|window|, at);
      && StftShapes(x, window, step)
      && ByConv(m, x, window, step, onesided, sign, layout) != StftTensor(m, x, window, step, onesided)
  {
    var x := Impulse(|window|, at);
    assert StftShapes(x, window, step) && !AllReal(m, x, window, step, onesided) by {
      ImpulseAt(m, window, step, onesided, at, freq);
      NotReal(m, x, window, step, onesided, [0, 0, freq, 1]);
    }
    ConvIsStft(m, x, window, step, onesided, sign, layout);
  }

  lemma NotReal(m: Interp, x: Tensor<real>, window: seq<real>, step: nat, onesided: bool, idx: seq<nat>)
    requires StftShapes(x, window, step) && InBounds(StftDims(x, window, step, onesided), idx) && idx[3] == 1
    requires StftAt(m, x, window, step, onesided, idx) != 0.0
    ensures !AllReal(m, x, window, step, onesided)
  {
  }

  /**
    For a given window the rewritten operators compute the STFT of every signal exactly when the
    imaginary sign is -1 or every product of a window sample and a sine of its row is zero.
  */
  lemma ConvIsStftForAll(m: Interp, window: seq<real>, step: nat, onesided: bool, sign: real, layout: Layout)
    requires step > 0 && |window| > 0
    ensures (forall x :: StftShapes(x, window, step) ==>
               ByConv(m, x, window, step, onesided, sign, layout) == StftTensor(m, x, window, step, onesided))
            <==> sign == -1.0 || RealWindow(m, window, onesided)
  {
    if sign == -1.0 || RealWindow(m, window, onesided) {
      forall x | StftShapes(x, window, step)
        ensures ByConv(m, x, window, step, onesided, sign, layout) == StftTensor(m, x, window, step, onesided)
      {
        if RealWindow(m, window, onesided) { RealWindowReal(m, x, window, step, onesided); }
        ConvIsStft(m, x, window, step, onesided, sign, layout);
      }
    } else {
      var freq, at :| 0 <= freq < FreqBins(|window|, onesided) && 0 <= at < |window|
                      && window[at] * m.sine(Angle(m, freq, at, |window|)) != 0.0;
      ImpulseDiffers(m, window, step, onesided, sign, layout, at, freq);
    }
  }

  /**
    A failing input: with sign 1 and a window of four ones, the impulse at sample 1, if the sine of its angle
    is not zero.
  */
  lemma WrongSign(m: Interp, step: nat, layout: Layout)
    requires step > 0 && m.sine(Angle(m, 1, 1, 4)) != 0.0
    ensures var window := [1.0, 1.0, 1.0, 1.0];
      && StftShapes(Impulse(4, 1), window, step)
      && ByConv(m, Impulse(4, 1), window, step, true, 1.0, layout) != StftTensor(m, Impulse(4, 1), window, step, true)
  {
    ImpulseDiffers(m, [1.0, 1.0, 1.0, 1.0], step, true, 1.0, layout, 1, 1);
  }
}
