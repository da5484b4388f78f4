/**
  Values and operators of ONNX graphs.

  The operators that the graph surgeries insert or remove are interpreted on the argument
  shapes for which the surgeries use them; every other operator, and every other argument
  shape, has an arbitrary meaning given by `Interp.other`.
*/
module Onnx {
  import opened Tensors
  import opened Wrappers

  datatype Value =
    | Ints(ints: Tensor<int>)
    | Floats(floats: Tensor<real>)
    | Opaque(id: int)

  datatype Op =
    | Range
    | Slice
    | CastInt64
    | CastFloat
    | Unsqueeze
    | Div
    | Shape
    | RandomNormalLike
    | Stft(onesided: bool)
    | Conv(stride: int)
    | Reshape
    | Transpose(perm: seq<nat>)
    | Other(kind: string)

  type Arg = Option<Value>

  /** The uninterpreted part: all other operators, and the trigonometry of the DFT. */
  datatype Interp = Interp(
    other: (Op, seq<Arg>, nat) -> Value,
    cosine: real -> real,
    sine: real -> real,
    pi: real)

  /** Value of output number `k` of `op` applied to `args`. */
  function Sem(m: Interp, op: Op, args: seq<Arg>, k: nat): Value {
    var known := if k != 0 then None else
      match op
      case Range => RangeOp(args)
      case Slice => SliceOp(args)
      case CastInt64 => CastInt64Op(args)
      case CastFloat => CastFloatOp(args)
      case Unsqueeze => UnsqueezeOp(args)
      case Div => DivOp(args)
      case Shape => ShapeOp(args)
      case RandomNormalLike => None
      case Stft(onesided) => StftOp(m, onesided, args)
      case Conv(stride) => ConvOp(stride, args)
      case Reshape => ReshapeOp(args)
      case Transpose(perm) => TransposeOp(perm, args)
      case Other(_) => None;
    match known
    case Some(v) => v
    case None => m.other(op, args, k)
  }

  // Literals

  function IntScalar(i: int): Value {
    Ints(Tensor([], [i]))
  }

  function FloatScalar(r: real): Value {
    Floats(Tensor([], [r]))
  }

  function IntVec(xs: seq<int>): Value {
    Ints(Tensor([|xs|], xs))
  }

  function Const(n: nat, x: int): seq<int> {
    seq(n, _ => x)
  }

  function Iota(n: nat): seq<int> {
    seq(n, i => i)
  }

  predicate HasInts(a: Arg, rank: nat) {
    a.Some? && a.value.Ints? && |a.value.ints.dims| == rank && a.value.ints.Valid()
  }

  predicate HasFloats(a: Arg, rank: nat) {
    a.Some? && a.value.Floats? && |a.value.floats.dims| == rank && a.value.floats.Valid()
  }

  // Rounding

  function Ceil(r: real): int {
    -((-r).Floor)
  }

  /** Cast from float to int64 truncates toward zero. */
  function Trunc(r: real): int {
    if r >= 0.0 then r.Floor else Ceil(r)
  }

  function AtLeast0(i: int): nat {
    if i < 0 then 0 else i
  }

  // Range(0, limit, 1)

  function RangeOp(args: seq<Arg>): Arg {
    if |args| != 3 then None
    else if HasInts(args[1], 0) && args[0] == Some(IntScalar(0)) && args[2] == Some(IntScalar(1)) then
      Some(IntVec(Iota(AtLeast0(args[1].value.ints.data[0]))))
    else if HasFloats(args[1], 0) && args[0] == Some(FloatScalar(0.0)) && args[2] == Some(FloatScalar(1.0)) then
      var n := AtLeast0(Ceil(args[1].value.floats.data[0]));
      Some(Floats(ToFloats(Tensor([n], Iota(n)))))
    else None
  }

  // Slice from the origin over all axes with unit steps

  /** A negative end counts from the back; then the end is clamped to the axis. */
  function SliceEnd(end: int, dim: nat): nat {
    var e := if end < 0 then end + dim else end;
    if e < 0 then 0 else if e > dim then dim else e
  }

  function BlockDims(dims: seq<nat>, ends: seq<int>): seq<nat>
    requires |ends| == |dims|
  {
    seq(|dims|, i requires 0 <= i < |dims| => SliceEnd(ends[i], dims[i]))
  }

  function Block<T>(t: Tensor<T>, ends: seq<int>): Tensor<T>
    requires t.Valid() && |ends| == |t.dims|
  {
    Build(BlockDims(t.dims, ends), idx requires InBounds(t.dims, idx) => At(t, idx))
  }

  function SliceOp(args: seq<Arg>): Arg {
    if |args| != 5 || !HasInts(args[2], 1) then None
    else
      var ends := args[2].value.ints.data;
      var r := |ends|;
      if args[1] != Some(IntVec(Const(r, 0))) || args[3] != Some(IntVec(Iota(r)))
          || args[4] != Some(IntVec(Const(r, 1)))
      then None
      else if HasInts(args[0], r) then Some(Ints(Block(args[0].value.ints, ends)))
      else if HasFloats(args[0], r) then Some(Floats(Block(args[0].value.floats, ends)))
      else None
  }

  // Elementwise operators

  function ToFloats(t: Tensor<int>): Tensor<real> {
    Tensor(t.dims, seq(|t.data|, i requires 0 <= i < |t.data| => t.data[i] as real))
  }

  function ToInts(t: Tensor<real>): Tensor<int> {
    Tensor(t.dims, seq(|t.data|, i requires 0 <= i < |t.data| => Trunc(t.data[i])))
  }

  function CastInt64Op(args: seq<Arg>): Arg {
    if |args| != 1 || !args[0].Some? then None
    else match args[0].value
      case Ints(t) => Some(Ints(t))
      case Floats(t) => Some(Ints(ToInts(t)))
      case Opaque(_) => None
  }

  function CastFloatOp(args: seq<Arg>): Arg {
    if |args| != 1 || !args[0].Some? then None
    else match args[0].value
      case Ints(t) => Some(Floats(ToFloats(t)))
      case Floats(t) => Some(Floats(t))
      case Opaque(_) => None
  }

  /** Division by a one-element vector; broadcasting turns a scalar into a one-element vector. */
  function DivOp(args: seq<Arg>): Arg {
    if |args| != 2 || !args[0].Some? || !args[0].value.Floats? || !HasFloats(args[1], 1)
        || |args[1].value.floats.data| != 1
    then None
    else
      var t := args[0].value.floats;
      var c := args[1].value.floats.data[0];
      if c == 0.0 then None
      else Some(Floats(Tensor(if t.dims == [] then [1] else t.dims,
                              seq(|t.data|, i requires 0 <= i < |t.data| => t.data[i] / c))))
  }

  // Shape manipulation

  function UnsqueezeDims(dims: seq<nat>, axis: nat): seq<nat>
    requires axis <= |dims|
  {
    dims[..axis] + [1] + dims[axis..]
  }

  function UnsqueezeOp(args: seq<Arg>): Arg {
    if |args| != 2 || !args[0].Some? || !HasInts(args[1], 1) || |args[1].value.ints.data| != 1 then None
    else
      var a := args[1].value.ints.data[0];
      match args[0].value
      case Ints(t) => if 0 <= a <= |t.dims| then Some(Ints(Tensor(UnsqueezeDims(t.dims, a), t.data))) else None
      case Floats(t) => if 0 <= a <= |t.dims| then Some(Floats(Tensor(UnsqueezeDims(t.dims, a), t.data))) else None
      case Opaque(_) => None
  }

  function ShapeOp(args: seq<Arg>): Arg {
    if |args| != 1 || !args[0].Some? then None
    else match args[0].value
      case Ints(t) => Some(IntVec(t.dims))
      case Floats(t) => Some(IntVec(t.dims))
      case Opaque(_) => None
  }

  /** Reshape of a float tensor to [0, a, b, -1]: copy the first dimension, infer the last. */
  function ReshapeOp(args: seq<Arg>): Arg {
    if |args| != 2 || !args[0].Some? || !args[0].value.Floats? || !HasInts(args[1], 1) then None
    else
      var t := args[0].value.floats;
      var shape := args[1].value.ints.data;
      if |shape| != 4 || shape[0] != 0 || shape[1] <= 0 || shape[2] <= 0 || shape[3] != -1 || t.dims == []
          || t.dims[0] == 0
      then None
      else
        var head := t.dims[0] * (shape[1] * shape[2]);
        if head <= 0 || |t.data| % head != 0 then None
        else Some(Floats(Tensor([t.dims[0], shape[1], shape[2], |t.data| / head], t.data)))
  }

  predicate IsPermutation(perm: seq<nat>) {
    forall a :: 0 <= a < |perm| ==> a in perm && perm[a] < |perm|
  }

  function IndexOf(xs: seq<nat>, x: nat): (i: nat)
    requires x in xs
    ensures i < |xs| && xs[i] == x
  {
    if xs[0] == x then 0 else 1 + IndexOf(xs[1..], x)
  }

  /** Axis i of the result is axis perm[i] of the argument. */
  function SourceIndex(perm: seq<nat>, idx: seq<nat>): seq<nat>
    requires |idx| == |perm| && IsPermutation(perm)
  {
    seq(|perm|, a requires 0 <= a < |perm| => idx[IndexOf(perm, a)])
  }

  function PermuteDims(perm: seq<nat>, dims: seq<nat>): seq<nat>
    requires |perm| == |dims| && IsPermutation(perm)
  {
    seq(|perm|, i requires 0 <= i < |perm| => dims[perm[i]])
  }

  lemma PermuteInBounds(perm: seq<nat>, dims: seq<nat>, idx: seq<nat>)
    requires |perm| == |dims| && IsPermutation(perm)
    requires InBounds(PermuteDims(perm, dims), idx)
    ensures InBounds(dims, SourceIndex(perm, idx))
  {
  }

  function TransposeAt(perm: seq<nat>, t: Tensor<real>, idx: seq<nat>): real
    requires t.Valid() && |perm| == |t.dims| && IsPermutation(perm)
    requires InBounds(PermuteDims(perm, t.dims), idx)
  {
    PermuteInBounds(perm, t.dims, idx);
    At(t, SourceIndex(perm, idx))
  }

  function TransposeTensor(perm: seq<nat>, t: Tensor<real>): Tensor<real>
    requires t.Valid() && |perm| == |t.dims| && IsPermutation(perm)
  {
    var dims := PermuteDims(perm, t.dims);
    Build(dims, idx requires InBounds(dims, idx) => TransposeAt(perm, t, idx))
  }

  function TransposeOp(perm: seq<nat>, args: seq<Arg>): Arg {
    if |args| != 1 || !HasFloats(args[0], |perm|) || !IsPermutation(perm) then None
    else Some(Floats(TransposeTensor(perm, args[0].value.floats)))
  }

  // Convolution and short-time Fourier transform

  function Frames(length: nat, window: nat, stride: nat): nat
    requires stride > 0 && window <= length
  {
    (length - window) / stride + 1
  }

  /** Sum over the first n samples of signal[base + i] * kernel[row + i]. */
  function Correlate(signal: seq<real>, base: nat, kernel: seq<real>, row: nat, n: nat): real
    requires base + n <= |signal| && row + n <= |kernel|
  {
    if n == 0 then 0.0
    else Correlate(signal, base, kernel, row, n - 1) + signal[base + n - 1] * kernel[row + n - 1]
  }

  lemma FrameFits(length: nat, window: nat, stride: nat, t: nat)
    requires stride > 0 && window <= length && t < Frames(length, window, stride)
    ensures t * stride + window <= length
  {
    MulMono(t, (length - window) / stride, stride);
  }

  lemma RowFits(rows: nat, cols: nat, r: nat)
    requires r < rows
    ensures r * cols + cols <= rows * cols
  {
    MulMono(r + 1, rows, cols);
  }

  predicate ConvShapes(x: Tensor<real>, w: Tensor<real>, stride: nat) {
    && x.Valid() && |x.dims| == 3 && x.dims[1] == 1
    && w.Valid() && |w.dims| == 3 && w.dims[1] == 1
    && stride > 0 && w.dims[2] <= x.dims[2]
  }

  function ConvDims(x: Tensor<real>, w: Tensor<real>, stride: nat): seq<nat>
    requires ConvShapes(x, w, stride)
  {
    [x.dims[0], w.dims[0], Frames(x.dims[2], w.dims[2], stride)]
  }

  function ConvAt(x: Tensor<real>, w: Tensor<real>, stride: nat, idx: seq<nat>): real
    requires ConvShapes(x, w, stride) && InBounds(ConvDims(x, w, stride), idx)
  {
    var s, k := x.dims[2], w.dims[2];
    RowFits(x.dims[0], s, idx[0]);
    RowFits(w.dims[0], k, idx[1]);
    FrameFits(s, k, stride, idx[2]);
    Product3(x.dims);
    Product3(w.dims);
    Correlate(x.data, idx[0] * s + idx[2] * stride, w.data, idx[1] * k, k)
  }

  /** One-channel, unpadded convolution: signal [B, 1, S], kernels [M, 1, K], result [B, M, frames]. */
  function ConvTensor(x: Tensor<real>, w: Tensor<real>, stride: nat): Tensor<real>
    requires ConvShapes(x, w, stride)
  {
    var dims := ConvDims(x, w, stride);
    Build(dims, idx requires InBounds(dims, idx) => ConvAt(x, w, stride, idx))
  }

  function ConvOp(stride: int, args: seq<Arg>): Arg {
    if |args| != 2 || !HasFloats(args[0], 3) || !HasFloats(args[1], 3) then None
    else
      var x, w := args[0].value.floats, args[1].value.floats;
      if stride <= 0 || !ConvShapes(x, w, stride) then None
      else Some(Floats(ConvTensor(x, w, stride)))
  }

  function Angle(m: Interp, freq: nat, n: nat, length: nat): real
    requires length > 0
  {
    2.0 * m.pi * (freq as real) * (n as real) / (length as real)
  }

  function FreqBins(length: nat, onesided: bool): nat {
    if onesided then length / 2 + 1 else length
  }

  /** Real (part 0) or imaginary (part 1) component of the DFT of the first n windowed samples of a frame. */
  function DftSum(m: Interp, x: seq<real>, base: nat, window: seq<real>, freq: nat, part: nat, n: nat): real
    requires n <= |window| && base + n <= |x|
  {
    if n == 0 then 0.0
    else
      var a := Angle(m, freq, n - 1, |window|);
      DftSum(m, x, base, window, freq, part, n - 1)
        + (x[base + n - 1] * window[n - 1]) * (if part == 0 then m.cosine(a) else -m.sine(a))
  }

  predicate StftShapes(x: Tensor<real>, window: seq<real>, step: nat) {
    x.Valid() && |x.dims| == 2 && step > 0 && 0 < |window| <= x.dims[1]
  }

  function StftDims(x: Tensor<real>, window: seq<real>, step: nat, onesided: bool): seq<nat>
    requires StftShapes(x, window, step)
  {
    [x.dims[0], Frames(x.dims[1], |window|, step), FreqBins(|window|, onesided), 2]
  }

  function StftAt(m: Interp, x: Tensor<real>, window: seq<real>, step: nat, onesided: bool, idx: seq<nat>): real
    requires StftShapes(x, window, step) && InBounds(StftDims(x, window, step, onesided), idx)
  {
    RowFits(x.dims[0], x.dims[1], idx[0]);
    FrameFits(x.dims[1], |window|, step, idx[1]);
    Product2(x.dims);
    DftSum(m, x.data, idx[0] * x.dims[1] + idx[1] * step, window, idx[2], idx[3], |window|)
  }

  /** STFT (opset 17) of a real signal [B, S]: result [B, frames, bins, 2]. */
  function StftTensor(m: Interp, x: Tensor<real>, window: seq<real>, step: nat, onesided: bool): Tensor<real>
    requires StftShapes(x, window, step)
  {
    var dims := StftDims(x, window, step, onesided);
    Build(dims, idx requires InBounds(dims, idx) => StftAt(m, x, window, step, onesided, idx))
  }

  function StftOp(m: Interp, onesided: bool, args: seq<Arg>): Arg {
    if |args| != 4 || !HasFloats(args[0], 2) || !HasInts(args[1], 0) || !HasFloats(args[2], 1) || !HasInts(args[3], 0)
    then None
    else
      var x := args[0].value.floats;
      var step := args[1].value.ints.data[0];
      var window := args[2].value.floats.data;
      if step <= 0 || |window| != args[3].value.ints.data[0] || !StftShapes(x, window, step) then None
      else Some(Floats(StftTensor(m, x, window, step, onesided)))
  }
}
