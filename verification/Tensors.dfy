/** Dense tensors in row-major order. */
module Tensors {

  function Product(dims: seq<nat>): nat {
    if dims == [] then 1 else dims[0] * Product(dims[1..])
  }

  predicate InBounds(dims: seq<nat>, idx: seq<nat>) {
    |idx| == |dims| && forall i :: 0 <= i < |dims| ==> idx[i] < dims[i]
  }

  /** Position of a multi-index in row-major order. */
  function Flatten(dims: seq<nat>, idx: seq<nat>): nat
    requires InBounds(dims, idx)
  {
    if dims == [] then 0 else idx[0] * Product(dims[1..]) + Flatten(dims[1..], idx[1..])
  }

  function Unflatten(dims: seq<nat>, k: nat): seq<nat>
    requires k < Product(dims)
  {
    if dims == [] then []
    else
      var p := Product(dims[1..]);
      assert p > 0;
      [k / p] + Unflatten(dims[1..], k % p)
  }

  datatype Tensor<T> = Tensor(dims: seq<nat>, data: seq<T>) {
    predicate Valid() {
      |data| == Product(dims)
    }
  }

  lemma MulMono(a: nat, b: nat, p: nat)
    requires a <= b
    ensures a * p <= b * p
  {
    assert (b - a) * p >= 0;
    assert b * p == a * p + (b - a) * p;
  }

  lemma {:induction false} FlattenBound(dims: seq<nat>, idx: seq<nat>)
    requires InBounds(dims, idx)
    ensures Flatten(dims, idx) < Product(dims)
  {
    if dims == [] {
    } else {
      FlattenBound(dims[1..], idx[1..]);
      MulMono(idx[0] + 1, dims[0], Product(dims[1..]));
    }
  }

  lemma DivModUnique(q: nat, r: nat, p: nat)
    requires r < p
    ensures (q * p + r) / p == q && (q * p + r) % p == r
  {
    var x := q * p + r;
    var d := x / p;
    assert x == d * p + x % p;
    MulMono(if d < q then d + 1 else q + 1, if d < q then q else if d > q then d else q + 1, p);
  }

  lemma {:induction false} UnflattenFlatten(dims: seq<nat>, idx: seq<nat>)
    requires InBounds(dims, idx)
    ensures Flatten(dims, idx) < Product(dims) && Unflatten(dims, Flatten(dims, idx)) == idx
  {
    FlattenBound(dims, idx);
    if dims == [] {
    } else {
      FlattenBound(dims[1..], idx[1..]);
      UnflattenFlatten(dims[1..], idx[1..]);
      DivModUnique(idx[0], Flatten(dims[1..], idx[1..]), Product(dims[1..]));
      assert idx == [idx[0]] + idx[1..];
    }
  }

  lemma {:induction false} FlattenUnflatten(dims: seq<nat>, k: nat)
    requires k < Product(dims)
    ensures InBounds(dims, Unflatten(dims, k)) && Flatten(dims, Unflatten(dims, k)) == k
  {
    if dims == [] {
    } else {
      var p := Product(dims[1..]);
      FlattenUnflatten(dims[1..], k % p);
      var idx := Unflatten(dims, k);
      assert idx[1..] == Unflatten(dims[1..], k % p);
      assert k == (k / p) * p + k % p;
      if k / p >= dims[0] {
        MulMono(dims[0], k / p, p);
        assert false;
      }
    }
  }

  /** The tensor whose element at each multi-index is given by `f`. */
  function Build<T>(dims: seq<nat>, f: seq<nat> --> T): (t: Tensor<T>)
    requires forall idx :: InBounds(dims, idx) ==> f.requires(idx)
    ensures t.Valid() && t.dims == dims
  {
    Tensor(dims, seq(Product(dims), k requires 0 <= k < Product(dims) =>
      FlattenUnflatten(dims, k);
      f(Unflatten(dims, k))))
  }

  function At<T>(t: Tensor<T>, idx: seq<nat>): T
    requires t.Valid() && InBounds(t.dims, idx)
  {
    FlattenBound(t.dims, idx);
    t.data[Flatten(t.dims, idx)]
  }

  /** Two tensors of one shape that agree at every multi-index are equal. */
  lemma TensorExt<T>(a: Tensor<T>, b: Tensor<T>)
    requires a.Valid() && b.Valid() && a.dims == b.dims
    requires forall idx :: InBounds(a.dims, idx) ==> At(a, idx) == At(b, idx)
    ensures a == b
  {
    forall k | 0 <= k < |a.data| ensures a.data[k] == b.data[k] {
      FlattenUnflatten(a.dims, k);
      assert At(a, Unflatten(a.dims, k)) == At(b, Unflatten(a.dims, k));
    }
  }

  lemma Product3(dims: seq<nat>)
    requires |dims| == 3 && dims[1] == 1
    ensures Product(dims) == dims[0] * dims[2]
  {
    Product1(dims[2..]);
    assert dims[1..][1..] == dims[2..];
  }

  lemma Product2(dims: seq<nat>)
    requires |dims| == 2
    ensures Product(dims) == dims[0] * dims[1]
  {
    Product1(dims[1..]);
  }

  lemma Product1(dims: seq<nat>)
    requires |dims| == 1
    ensures Product(dims) == dims[0]
  {
  }
}
