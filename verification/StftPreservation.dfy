/** The STFT rewrite keeps the graph well-formed and preserves the value of every tensor. */
module StftPreservation {
  import opened Graphs
  import opened Onnx
  import opened Rewriting
  import opened StftEquivalence
  import opened StftKernels
  import opened StftRewrite
  import opened Tensors
  import opened Wrappers

  // The four operators, one after the other

  function Unsqueezed(x: Tensor<real>): Tensor<real>
    requires |x.dims| >= 1
  {
    Tensor(UnsqueezeDims(x.dims, 1), x.data)
  }

  function Reshaped(m: Interp, x: Tensor<real>, window: seq<real>, step: nat, onesided: bool, sign: real,
                    layout: Layout): (r: Tensor<real>)
    requires StftShapes(x, window, step)
    ensures r.Valid() && |r.dims| == 4
  {
    var bins, frames := FreqBins(|window|, onesided), Frames(x.dims[1], |window|, step);
    ChannelsMerge(layout, x.dims[0], bins, frames);
    Tensor(ChannelDims(layout, x.dims[0], bins, frames), Convolved(m, x, window, step, bins, sign, layout).data)
  }

  lemma UnsqueezeSem(m: Interp, x: Tensor<real>)
    requires |x.dims| >= 1
    ensures Sem(m, Unsqueeze, [Some(Floats(x)), Some(IntVec([1]))], 0) == Floats(Unsqueezed(x))
  {
  }

  lemma ConvSem(m: Interp, x: Tensor<real>, window: seq<real>, step: nat, bins: nat, sign: real, layout: Layout)
    requires StftShapes(x, window, step)
    ensures Sem(m, Conv(step), [Some(Floats(Unsqueezed(x))), Some(Floats(Kernels(m, window, bins, sign, layout)))], 0)
            == Floats(Convolved(m, x, window, step, bins, sign, layout))
  {
    Product2(x.dims);
    Product3(Unsqueezed(x).dims);
  }

  /** The inferred last dimension of [0, a, b, -1]. */
  lemma InferredDim(batch: nat, a: nat, b: nat, frames: nat, total: nat)
    requires batch > 0 && a > 0 && b > 0 && total == batch * ((a * b) * frames)
    ensures batch * (a * b) > 0 && total % (batch * (a * b)) == 0 && total / (batch * (a * b)) == frames
  {
    Positive(a, b);
    Positive(batch, a * b);
    assert batch * ((a * b) * frames) == frames * (batch * (a * b));
    DivModUnique(frames, 0, batch * (a * b));
  }

  lemma Positive(a: nat, b: nat)
    requires a > 0 && b > 0
    ensures a * b > 0
  {
  }

  lemma ReshapeSem(m: Interp, layout: Layout, batch: nat, bins: nat, frames: nat, c: Tensor<real>)
    requires c.Valid() && c.dims == [batch, bins * 2, frames] && batch > 0 && bins > 0
    ensures Sem(m, Reshape, [Some(Floats(c)), Some(IntVec(ReshapeTarget(layout, bins)))], 0)
            == Floats(Tensor(ChannelDims(layout, batch, bins, frames), c.data))
  {
    var t := ReshapeTarget(layout, bins);
    Product1([4]);
    ProductMore(batch, bins * 2, frames);
    InferredDim(batch, t[1], t[2], frames, |c.data|);
  }

  lemma TransposeTensorSem(m: Interp, perm: seq<nat>, t: Tensor<real>)
    requires t.Valid() && |t.dims| == |perm| && IsPermutation(perm)
    ensures Sem(m, Transpose(perm), [Some(Floats(t))], 0) == Floats(TransposeTensor(perm, t))
  {
  }

  lemma ByConvIs(m: Interp, x: Tensor<real>, window: seq<real>, step: nat, onesided: bool, sign: real, layout: Layout)
    requires StftShapes(x, window, step)
    ensures IsPermutation(Perm(layout))
    ensures ByConv(m, x, window, step, onesided, sign, layout)
            == TransposeTensor(Perm(layout), Reshaped(m, x, window, step, onesided, sign, layout))
  {
    PermOk(layout);
  }

  lemma TransposeSem(m: Interp, x: Tensor<real>, window: seq<real>, step: nat, onesided: bool, sign: real,
                     layout: Layout)
    requires StftShapes(x, window, step)
    ensures Sem(m, Transpose(Perm(layout)), [Some(Floats(Reshaped(m, x, window, step, onesided, sign, layout)))], 0)
            == Floats(ByConv(m, x, window, step, onesided, sign, layout))
  {
    ByConvIs(m, x, window, step, onesided, sign, layout);
    TransposeTensorSem(m, Perm(layout), Reshaped(m, x, window, step, onesided, sign, layout));
  }

  // One node

  /** Operands that the rewrite takes from the initializers have those values in e: no input overrides them. */
  ghost predicate Constants(inits: Env, n: Node, e: Env) {
    forall i :: 1 <= i <= 3 && i < |n.inputs| && n.inputs[i] in inits ==> Args(n, e)[i] == Some(inits[n.inputs[i]])
  }

  /** An STFT node on a float signal [B, S], B > 0, with one output and operands the operator accepts in e. */
  ghost predicate StftOk(m: Interp, inits: Env, n: Node, e: Env) {
    n.op.Stft? ==>
      && |n.outputs| == 1 && n.outputs[0] != ABSENT
      && StftOp(m, n.op.onesided, Args(n, e)).Some?
      && Args(n, e)[0].value.floats.dims[0] > 0
      && Constants(inits, n, e)
  }

  function Signal(n: Node, e: Env): Tensor<real>
    requires |n.inputs| == 4 && HasFloats(Args(n, e)[0], 2)
  {
    Args(n, e)[0].value.floats
  }

  function Window(n: Node, e: Env): seq<real>
    requires |n.inputs| == 4 && HasFloats(Args(n, e)[2], 1)
  {
    Args(n, e)[2].value.floats.data
  }

  function Step(n: Node, e: Env): int
    requires |n.inputs| == 4 && HasInts(Args(n, e)[1], 0)
  {
    Args(n, e)[1].value.ints.data[0]
  }

  ghost predicate Typed(n: Node, e: Env) {
    && n.op.Stft? && |n.inputs| == 4 && HasFloats(Args(n, e)[0], 2) && HasInts(Args(n, e)[1], 0)
       && HasFloats(Args(n, e)[2], 1)
    && HasInts(Args(n, e)[3], 0) && Step(n, e) > 0 && StftShapes(Signal(n, e), Window(n, e), Step(n, e))
    && Args(n, e)[3].value.ints.data[0] == |Window(n, e)|
  }

  lemma OkIsTyped(m: Interp, inits: Env, n: Node, e: Env)
    requires n.op.Stft? && StftOk(m, inits, n, e)
    ensures Typed(n, e) && Signal(n, e).dims[0] > 0
    ensures Sem(m, n.op, Args(n, e), 0) == Floats(StftTensor(m, Signal(n, e), Window(n, e), Step(n, e), n.op.onesided))
  {
  }

  /** A replacement that does not fail uses the node's actual operands. */
  lemma ExpandUses(m: Interp, inits: Env, n: Node, o: Options, e: Env)
    requires Constants(inits, n, e) && Typed(n, e) && HasKey(n) && Expand(m, inits, n, o).Success?
    ensures var nm, bins := o.names(Key(n)), FreqBins(|Window(n, e)|, n.op.onesided);
      Expand(m, inits, n, o).value
      == Expansion(StftBlock(n, nm, Step(n, e), o.layout),
                   StftInits(nm, Kernels(m, Window(n, e), bins, o.sign, o.layout), bins, o.layout))
  {
    assert Args(n, e)[1] == Some(inits[n.inputs[1]]);
    assert Args(n, e)[2] == Some(inits[n.inputs[2]]);
    assert Args(n, e)[3] == Some(inits[n.inputs[3]]);
  }

  // The inserted block

  function Generated(nm: StftNames): seq<Name> {
    [nm.axes, nm.weight, nm.shape, nm.unsqueezed, nm.conv, nm.reshaped]
  }

  predicate NoRepeat(xs: seq<Name>) {
    ABSENT !in xs && forall i, j :: 0 <= i < j < |xs| ==> xs[i] != xs[j]
  }

  function NameSet(xs: seq<Name>): set<Name> {
    set x | x in xs
  }

  function Locals(nm: StftNames): set<Name> {
    {nm.unsqueezed, nm.conv, nm.reshaped}
  }

  function Consts(nm: StftNames): set<Name> {
    {nm.axes, nm.weight, nm.shape}
  }

  lemma GeneratedAre(nm: StftNames)
    requires NoRepeat(Generated(nm))
    ensures NameSet(Generated(nm)) == Locals(nm) + Consts(nm) && Locals(nm) !! Consts(nm)
    ensures ABSENT !in Locals(nm) + Consts(nm)
    ensures nm.unsqueezed != nm.conv && nm.conv != nm.reshaped && nm.unsqueezed != nm.reshaped
    ensures nm.axes != nm.weight && nm.weight != nm.shape && nm.axes != nm.shape
  {
    var g := Generated(nm);
    assert g[0] == nm.axes && g[1] == nm.weight && g[2] == nm.shape && g[3] == nm.unsqueezed && g[4] == nm.conv
           && g[5] == nm.reshaped;
  }

  ghost predicate Placed(n: Node, nm: StftNames, b: Env) {
    && Typed(n, b) && Signal(n, b).dims[0] > 0 && Reads(n) <= b.Keys
    && |n.outputs| == 1 && n.outputs[0] != ABSENT
    && NoRepeat(Generated(nm)) && n.outputs[0] !in Locals(nm)
    && Consts(nm) <= b.Keys && b.Keys !! Locals(nm) + {n.outputs[0]}
  }

  function Bins(n: Node, b: Env): nat
    requires Typed(n, b)
  {
    FreqBins(|Window(n, b)|, n.op.onesided)
  }

  function BlockValues(m: Interp, n: Node, nm: StftNames, b: Env, o: Options): Env
    requires Typed(n, b) && |n.outputs| == 1
  {
    var x, w, s := Signal(n, b), Window(n, b), Step(n, b);
    map[nm.unsqueezed := Floats(Unsqueezed(x)),
        nm.conv := Floats(Convolved(m, x, w, s, Bins(n, b), o.sign, o.layout)),
        nm.reshaped := Floats(Reshaped(m, x, w, s, n.op.onesided, o.sign, o.layout)),
        n.outputs[0] := Floats(ByConv(m, x, w, s, n.op.onesided, o.sign, o.layout))]
  }

  ghost predicate HasConsts(m: Interp, n: Node, nm: StftNames, b: Env, o: Options)
    requires Typed(n, b)
  {
    SubMap(StftInits(nm, Kernels(m, Window(n, b), Bins(n, b), o.sign, o.layout), Bins(n, b), o.layout), b)
  }

  lemma PlacedLookups(m: Interp, n: Node, nm: StftNames, b: Env, o: Options)
    requires Placed(n, nm, b) && HasConsts(m, n, nm, b, o)
    ensures var e, v := b + BlockValues(m, n, nm, b, o), BlockValues(m, n, nm, b, o);
      && Lookup(e, n.inputs[0]) == Some(Floats(Signal(n, b)))
      && Lookup(e, nm.axes) == Some(IntVec([1]))
      && Lookup(e, nm.weight) == Some(Floats(Kernels(m, Window(n, b), Bins(n, b), o.sign, o.layout)))
      && Lookup(e, nm.shape) == Some(IntVec(ReshapeTarget(o.layout, Bins(n, b))))
      && e[nm.unsqueezed] == v[nm.unsqueezed] && e[nm.conv] == v[nm.conv]
      && e[nm.reshaped] == v[nm.reshaped] && e[n.outputs[0]] == v[n.outputs[0]]
      && nm.unsqueezed != ABSENT && nm.conv != ABSENT && nm.reshaped != ABSENT
  {
    GeneratedAre(nm);
    var c := StftInits(nm, Kernels(m, Window(n, b), Bins(n, b), o.sign, o.layout), Bins(n, b), o.layout);
    assert nm.axes in c && nm.weight in c && nm.shape in c;
    assert n.inputs[0] in Reads(n);
  }

  lemma BlockValuesAre(m: Interp, n: Node, nm: StftNames, b: Env, o: Options)
    requires Placed(n, nm, b)
    ensures var v, x, w, s := BlockValues(m, n, nm, b, o), Signal(n, b), Window(n, b), Step(n, b);
      && v[nm.unsqueezed] == Floats(Unsqueezed(x))
      && v[nm.conv] == Floats(Convolved(m, x, w, s, Bins(n, b), o.sign, o.layout))
      && v[nm.reshaped] == Floats(Reshaped(m, x, w, s, n.op.onesided, o.sign, o.layout))
      && v[n.outputs[0]] == Floats(ByConv(m, x, w, s, n.op.onesided, o.sign, o.layout))
  {
    GeneratedAre(nm);
  }

  lemma BlockSolvesFirst(m: Interp, n: Node, nm: StftNames, b: Env, o: Options)
    requires Placed(n, nm, b) && HasConsts(m, n, nm, b, o)
    ensures var block, e := StftBlock(n, nm, Step(n, b), o.layout), b + BlockValues(m, n, nm, b, o);
      Solves(m, block[0], e) && Solves(m, block[1], e)
  {
    var e, block := b + BlockValues(m, n, nm, b, o), StftBlock(n, nm, Step(n, b), o.layout);
    PlacedLookups(m, n, nm, b, o);
    BlockValuesAre(m, n, nm, b, o);
    SolvesUnsqueeze(m, block[0], e, Signal(n, b));
    SolvesConv(m, block[1], e, Signal(n, b), Window(n, b), Step(n, b), Bins(n, b), o.sign, o.layout);
  }

  lemma BlockSolvesLast(m: Interp, n: Node, nm: StftNames, b: Env, o: Options)
    requires Placed(n, nm, b) && HasConsts(m, n, nm, b, o)
    ensures var block, e := StftBlock(n, nm, Step(n, b), o.layout), b + BlockValues(m, n, nm, b, o);
      Solves(m, block[2], e) && Solves(m, block[3], e)
  {
    var e, block := b + BlockValues(m, n, nm, b, o), StftBlock(n, nm, Step(n, b), o.layout);
    PlacedLookups(m, n, nm, b, o);
    BlockValuesAre(m, n, nm, b, o);
    SolvesReshape(m, block[2], e, Signal(n, b), Window(n, b), Step(n, b), n.op.onesided, o.sign, o.layout);
    SolvesTranspose(m, block[3], e, Signal(n, b), Window(n, b), Step(n, b), n.op.onesided, o.sign, o.layout);
  }

  lemma SolvesUnsqueeze(m: Interp, k: Node, e: Env, x: Tensor<real>)
    requires k.op == Unsqueeze && |k.inputs| == 2 && |x.dims| >= 1
    requires Lookup(e, k.inputs[0]) == Some(Floats(x)) && Lookup(e, k.inputs[1]) == Some(IntVec([1]))
    requires |k.outputs| == 1 && k.outputs[0] != ABSENT && k.outputs[0] in e && e[k.outputs[0]] == Floats(Unsqueezed(x))
    ensures Solves(m, k, e)
  {
    assert Args(k, e) == [Some(Floats(x)), Some(IntVec([1]))];
    UnsqueezeSem(m, x);
    SolvesOne(m, k, e, Floats(Unsqueezed(x)));
  }

  lemma SolvesConv(m: Interp, k: Node, e: Env, x: Tensor<real>, window: seq<real>, step: nat, bins: nat, sign: real,
                   layout: Layout)
    requires StftShapes(x, window, step) && k.op == Conv(step) && |k.inputs| == 2
    requires Lookup(e, k.inputs[0]) == Some(Floats(Unsqueezed(x)))
    requires Lookup(e, k.inputs[1]) == Some(Floats(Kernels(m, window, bins, sign, layout)))
    requires |k.outputs| == 1 && k.outputs[0] != ABSENT && k.outputs[0] in e
    requires e[k.outputs[0]] == Floats(Convolved(m, x, window, step, bins, sign, layout))
    ensures Solves(m, k, e)
  {
    assert Args(k, e) == [Some(Floats(Unsqueezed(x))), Some(Floats(Kernels(m, window, bins, sign, layout)))];
    ConvSem(m, x, window, step, bins, sign, layout);
    SolvesOne(m, k, e, Floats(Convolved(m, x, window, step, bins, sign, layout)));
  }

  lemma SolvesReshape(m: Interp, k: Node, e: Env, x: Tensor<real>, window: seq<real>, step: nat, onesided: bool,
                      sign: real, layout: Layout)
    requires StftShapes(x, window, step) && x.dims[0] > 0 && k.op == Reshape && |k.inputs| == 2
    requires Lookup(e, k.inputs[0])
             == Some(Floats(Convolved(m, x, window, step, FreqBins(|window|, onesided), sign, layout)))
    requires Lookup(e, k.inputs[1]) == Some(IntVec(ReshapeTarget(layout, FreqBins(|window|, onesided))))
    requires |k.outputs| == 1 && k.outputs[0] != ABSENT && k.outputs[0] in e
    requires e[k.outputs[0]] == Floats(Reshaped(m, x, window, step, onesided, sign, layout))
    ensures Solves(m, k, e)
  {
    var bins := FreqBins(|window|, onesided);
    var c := Convolved(m, x, window, step, bins, sign, layout);
    assert Args(k, e) == [Some(Floats(c)), Some(IntVec(ReshapeTarget(layout, bins)))];
    ReshapeSem(m, layout, x.dims[0], bins, Frames(x.dims[1], |window|, step), c);
    SolvesOne(m, k, e, Floats(Reshaped(m, x, window, step, onesided, sign, layout)));
  }

  lemma SolvesTranspose(m: Interp, k: Node, e: Env, x: Tensor<real>, window: seq<real>, step: nat, onesided: bool,
                        sign: real, layout: Layout)
    requires StftShapes(x, window, step) && k.op == Transpose(Perm(layout)) && |k.inputs| == 1
    requires Lookup(e, k.inputs[0]) == Some(Floats(Reshaped(m, x, window, step, onesided, sign, layout)))
    requires |k.outputs| == 1 && k.outputs[0] != ABSENT && k.outputs[0] in e
    requires e[k.outputs[0]] == Floats(ByConv(m, x, window, step, onesided, sign, layout))
    ensures Solves(m, k, e)
  {
    assert Args(k, e) == [Some(Floats(Reshaped(m, x, window, step, onesided, sign, layout)))];
    TransposeSem(m, x, window, step, onesided, sign, layout);
    SolvesOne(m, k, e, Floats(ByConv(m, x, window, step, onesided, sign, layout)));
  }

  lemma BlockFits(n: Node, nm: StftNames, b: Env, step: int, layout: Layout)
    requires Placed(n, nm, b)
    ensures var block := StftBlock(n, nm, step, layout);
      WellFormed(block, b.Keys) && AllOuts(block) == Locals(nm) + {n.outputs[0]}
  {
    var block := StftBlock(n, nm, step, layout);
    GeneratedAre(nm);
    assert n.inputs[0] in Reads(n);
    OutsOne(block[0]);
    OutsOne(block[1]);
    OutsOne(block[2]);
    OutsOne(block[3]);
    var head, tail := block[..2], block[2..];
    var mid := b.Keys + {nm.unsqueezed} + {nm.conv};
    ChainOf2(head, b.Keys);
    ChainOf2(tail, mid);
    assert block == head + tail;
    WellFormedConcat(head, tail, b.Keys);
    AllOutsConcat(head, tail);
    assert b.Keys + AllOuts(head) == mid;
  }

  lemma BlockSolves(m: Interp, n: Node, nm: StftNames, b: Env, o: Options)
    requires Placed(n, nm, b) && HasConsts(m, n, nm, b, o)
    ensures var block := StftBlock(n, nm, Step(n, b), o.layout);
      && BlockValues(m, n, nm, b, o).Keys == Locals(nm) + {n.outputs[0]}
      && forall i :: 0 <= i < |block| ==> Solves(m, block[i], b + BlockValues(m, n, nm, b, o))
  {
    var block := StftBlock(n, nm, Step(n, b), o.layout);
    BlockSolvesFirst(m, n, nm, b, o);
    BlockSolvesLast(m, n, nm, b, o);
    forall i | 0 <= i < |block| ensures Solves(m, block[i], b + BlockValues(m, n, nm, b, o)) {
      assert i == 0 || i == 1 || i == 2 || i == 3;
    }
  }

  /** A well-formed block evaluates to any extension of the environment by its outputs that solves its nodes. */
  lemma EvalIs(m: Interp, block: seq<Node>, b: Env, v: Env)
    requires WellFormed(block, b.Keys) && v.Keys == AllOuts(block)
    requires forall i :: 0 <= i < |block| ==> Solves(m, block[i], b + v)
    ensures Eval(m, block, b) == b + v
  {
    DisjointFromOuts(block, b.Keys);
    WellFormedReads(block, b.Keys);
    assert SubMap(b, b + v);
    SubEval(m, block, b, b + v);
    assert Eval(m, block, b).Keys == (b + v).Keys;
  }

  /** Running the block gives the intermediate tensors and the STFT result. */
  lemma BlockEval(m: Interp, n: Node, nm: StftNames, b: Env, o: Options)
    requires Placed(n, nm, b) && HasConsts(m, n, nm, b, o)
    ensures var block := StftBlock(n, nm, Step(n, b), o.layout);
      WellFormed(block, b.Keys) && Eval(m, block, b) == b + BlockValues(m, n, nm, b, o)
  {
    var block := StftBlock(n, nm, Step(n, b), o.layout);
    BlockFits(n, nm, b, Step(n, b), o.layout);
    BlockSolves(m, n, nm, b, o);
    EvalIs(m, block, b, BlockValues(m, n, nm, b, o));
  }

  // The whole list

  /** Names generated for the STFT nodes are distinct from `used` and from each other. */
  predicate Unclashing(nodes: seq<Node>, o: Options, used: set<Name>) {
    nodes == [] ||
    if nodes[0].op.Stft? && HasKey(nodes[0]) then
      var g := Generated(o.names(Key(nodes[0])));
      NoRepeat(g) && NameSet(g) !! used && Unclashing(nodes[1..], o, used + NameSet(g))
    else Unclashing(nodes[1..], o, used)
  }

  lemma {:induction false} AddedFresh(m: Interp, inits: Env, nodes: seq<Node>, o: Options, used: set<Name>)
    requires Unclashing(nodes, o, used)
    ensures After(m, inits, nodes, o).inits.Keys !! used
  {
    if nodes != [] {
      var n := nodes[0];
      AfterFirst(m, inits, nodes, o);
      if n.op.Stft? && HasKey(n) {
        GeneratedAre(o.names(Key(n)));
        AddedFresh(m, inits, nodes[1..], o, used + NameSet(Generated(o.names(Key(n)))));
        if Expand(m, inits, n, o).Success? { ExpandKeys(m, inits, n, o); }
      } else {
        AddedFresh(m, inits, nodes[1..], o, used);
      }
    }
  }

  lemma ExpandKeys(m: Interp, inits: Env, n: Node, o: Options)
    requires n.op.Stft? && Expand(m, inits, n, o).Success?
    ensures HasKey(n) && Expand(m, inits, n, o).value.inits.Keys == Consts(o.names(Key(n)))
  {
  }

  lemma {:induction false} EvalConcat(m: Interp, a: seq<Node>, b: seq<Node>, env: Env)
    ensures Eval(m, a + b, env) == Eval(m, b, Eval(m, a, env))
  {
    if a == [] {
      assert a + b == b;
    } else {
      assert (a + b)[1..] == a[1..] + b;
      EvalConcat(m, a[1..], b, Exec(m, a[0], env));
    }
  }

  /** Old environment a, new environment b: b extends a, holds the constants still needed, and leaves names free. */
  ghost predicate Alongside(m: Interp, inits: Env, nodes: seq<Node>, o: Options, a: Env, b: Env, used: set<Name>) {
    && WellFormed(nodes, a.Keys) && SubMap(a, b)
    && SubMap(After(m, inits, nodes, o).inits, b)
    && Unclashing(nodes, o, used) && a.Keys + AllOuts(nodes) <= used
    && b.Keys <= used + After(m, inits, nodes, o).inits.Keys
    && AllOuts(nodes) !! b.Keys
  }

  lemma CopyStep(m: Interp, n: Node, a: Env, b: Env)
    requires NodeOk(n, a.Keys) && SubMap(a, b) && Outs(n) !! b.Keys
    ensures NodeOk(n, b.Keys) && SubMap(Exec(m, n, a), Exec(m, n, b))
    ensures Exec(m, n, a).Keys == a.Keys + Outs(n) && Exec(m, n, b).Keys == b.Keys + Outs(n)
  {
    ArgsAgree(n, a, b);
  }

  /** The imaginary sign is right for the node: -1, or its transform has no imaginary part. */
  ghost predicate SignOk(m: Interp, n: Node, e: Env, sign: real)
    requires Typed(n, e)
  {
    sign == -1.0 || AllReal(m, Signal(n, e), Window(n, e), Step(n, e), n.op.onesided)
  }

  lemma StftStep(m: Interp, inits: Env, n: Node, nm: StftNames, a: Env, b: Env, o: Options)
    requires SubMap(a, b) && NodeOk(n, a.Keys) && Placed(n, nm, b) && HasConsts(m, n, nm, b, o)
    requires n.op.Stft? && StftOk(m, inits, n, a) && SignOk(m, n, b, o.sign)
    ensures var v := BlockValues(m, n, nm, b, o);
      SubMap(Exec(m, n, a), b + v) && Exec(m, n, a).Keys == a.Keys + {n.outputs[0]}
          && v.Keys == Locals(nm) + {n.outputs[0]}
  {
    ArgsAgree(n, a, b);
    OutsOne(n);
    OkIsTyped(m, inits, n, a);
    BlockValuesAre(m, n, nm, b, o);
    ConvIsStft(m, Signal(n, b), Window(n, b), Step(n, b), n.op.onesided, o.sign, o.layout);
    assert Exec(m, n, a)[n.outputs[0]] == BlockValues(m, n, nm, b, o)[n.outputs[0]];
  }

  lemma StftOkHere(m: Interp, inits: Env, nodes: seq<Node>, a: Env, b: Env)
    requires nodes != [] && WellFormed(nodes, a.Keys) && SubMap(a, b) && StftOk(m, inits, nodes[0], Eval(m, nodes, a))
    ensures StftOk(m, inits, nodes[0], a) && StftOk(m, inits, nodes[0], b)
  {
    EvalSolves(m, nodes, a);
    ArgsAgree(nodes[0], a, Eval(m, nodes, a));
    ArgsAgree(nodes[0], a, b);
  }

  /** What the premises say about a leading STFT node. */
  lemma HeadPlaced(m: Interp, inits: Env, nodes: seq<Node>, o: Options, a: Env, b: Env, used: set<Name>)
    requires Alongside(m, inits, nodes, o, a, b, used) && nodes != [] && nodes[0].op.Stft?
    requires After(m, inits, nodes, o).error == None && StftOk(m, inits, nodes[0], Eval(m, nodes, a))
    ensures HasKey(nodes[0]) && Expand(m, inits, nodes[0], o).Success? && StftOk(m, inits, nodes[0], a)
    ensures var nm := o.names(Key(nodes[0]));
      Placed(nodes[0], nm, b) && HasConsts(m, nodes[0], nm, b, o)
    ensures var nm := o.names(Key(nodes[0]));
      Expand(m, inits, nodes[0], o).value.block == StftBlock(nodes[0], nm, Step(nodes[0], b), o.layout)
  {
    var n := nodes[0];
    StftOkHere(m, inits, nodes, a, b);
    OkIsTyped(m, inits, n, b);
    var nm := o.names(Key(n));
    GeneratedAre(nm);
    AllOutsCons(nodes);
    OutsOne(n);
    ExpandUses(m, inits, n, o, b);
    HeadInits(m, inits, nodes, o, used);
    assert Consts(nm) <= b.Keys;
    LocalsFree(m, inits, nodes, o, b, used);
  }

  /** The constants of the head are among those added for the whole list. */
  lemma HeadInits(m: Interp, inits: Env, nodes: seq<Node>, o: Options, used: set<Name>)
    requires Unclashing(nodes, o, used) && nodes != [] && nodes[0].op.Stft? && Expand(m, inits, nodes[0], o).Success?
    ensures var all, rest := After(m, inits, nodes, o).inits, After(m, inits, nodes[1..], o).inits;
      && HasKey(nodes[0])
      && SubMap(Expand(m, inits, nodes[0], o).value.inits, all) && SubMap(rest, all)
      && all.Keys == Consts(o.names(Key(nodes[0]))) + rest.Keys
      && rest.Keys !! used + Locals(o.names(Key(nodes[0]))) + Consts(o.names(Key(nodes[0])))
  {
    ExpandKeys(m, inits, nodes[0], o);
    var nm := o.names(Key(nodes[0]));
    GeneratedAre(nm);
    AddedFresh(m, inits, nodes[1..], o, used + NameSet(Generated(nm)));
  }

  lemma LocalsFree(m: Interp, inits: Env, nodes: seq<Node>, o: Options, b: Env, used: set<Name>)
    requires Unclashing(nodes, o, used) && nodes != [] && nodes[0].op.Stft? && Expand(m, inits, nodes[0], o).Success?
    requires b.Keys <= used + After(m, inits, nodes, o).inits.Keys
    ensures HasKey(nodes[0]) && b.Keys !! Locals(o.names(Key(nodes[0])))
  {
    HeadInits(m, inits, nodes, o, used);
    GeneratedAre(o.names(Key(nodes[0])));
  }

  lemma StftNext(m: Interp, inits: Env, nodes: seq<Node>, o: Options, a: Env, b: Env, used: set<Name>, v: Env)
    requires Alongside(m, inits, nodes, o, a, b, used) && nodes != [] && nodes[0].op.Stft? && HasKey(nodes[0])
    requires Expand(m, inits, nodes[0], o).Success? && SubMap(Exec(m, nodes[0], a), b + v)
    requires Exec(m, nodes[0], a).Keys == a.Keys + Outs(nodes[0])
    requires v.Keys == Locals(o.names(Key(nodes[0]))) + Outs(nodes[0]) && v.Keys !! b.Keys
    ensures Alongside(m, inits, nodes[1..], o, Exec(m, nodes[0], a), b + v,
                      used + NameSet(Generated(o.names(Key(nodes[0])))))
  {
    var nm := o.names(Key(nodes[0]));
    GeneratedAre(nm);
    AllOutsCons(nodes);
    HeadInits(m, inits, nodes, o, used);
    DisjointFromOuts(nodes[1..], a.Keys + Outs(nodes[0]));
    assert SubMap(After(m, inits, nodes[1..], o).inits, b + v);
  }

  lemma CopyNext(m: Interp, inits: Env, nodes: seq<Node>, o: Options, a: Env, b: Env, used: set<Name>)
    requires Alongside(m, inits, nodes, o, a, b, used) && nodes != [] && !nodes[0].op.Stft?
    ensures NodeOk(nodes[0], b.Keys) && Exec(m, nodes[0], b).Keys == b.Keys + Outs(nodes[0])
    ensures Alongside(m, inits, nodes[1..], o, Exec(m, nodes[0], a), Exec(m, nodes[0], b), used)
  {
    AllOutsCons(nodes);
    CopyStep(m, nodes[0], a, b);
    DisjointFromOuts(nodes[1..], a.Keys + Outs(nodes[0]));
  }

  ghost predicate AllOk(m: Interp, inits: Env, nodes: seq<Node>, e: Env) {
    forall n :: n in nodes ==> StftOk(m, inits, n, e)
  }

  /** The sign is right for every STFT node. */
  ghost predicate AllSigned(m: Interp, nodes: seq<Node>, e: Env, sign: real) {
    forall n :: n in nodes && n.op.Stft? && Typed(n, e) ==> SignOk(m, n, e, sign)
  }

  lemma AllOkTail(m: Interp, inits: Env, nodes: seq<Node>, a: Env, sign: real)
    requires nodes != [] && AllOk(m, inits, nodes, Eval(m, nodes, a)) && AllSigned(m, nodes, Eval(m, nodes, a), sign)
    ensures StftOk(m, inits, nodes[0], Eval(m, nodes, a))
    ensures AllOk(m, inits, nodes[1..], Eval(m, nodes[1..], Exec(m, nodes[0], a)))
    ensures AllSigned(m, nodes[1..], Eval(m, nodes[1..], Exec(m, nodes[0], a)), sign)
  {
  }

  /** The head's sign is right in the environment it runs in. */
  lemma SignHere(m: Interp, inits: Env, nodes: seq<Node>, a: Env, b: Env, sign: real)
    requires nodes != [] && nodes[0].op.Stft? && WellFormed(nodes, a.Keys) && SubMap(a, b)
    requires StftOk(m, inits, nodes[0], Eval(m, nodes, a)) && AllSigned(m, nodes, Eval(m, nodes, a), sign)
    ensures Typed(nodes[0], b) && SignOk(m, nodes[0], b, sign)
  {
    EvalSolves(m, nodes, a);
    ArgsAgree(nodes[0], a, Eval(m, nodes, a));
    ArgsAgree(nodes[0], a, b);
    OkIsTyped(m, inits, nodes[0], Eval(m, nodes, a));
  }

  /**
    After a rewrite without error the new list is well-formed and, with the right sign, every old tensor keeps
    its value.
  */
  lemma {:induction false} Simulates(m: Interp, inits: Env, nodes: seq<Node>, o: Options, a: Env, b: Env,
                                     used: set<Name>)
    requires Alongside(m, inits, nodes, o, a, b, used) && AllSigned(m, nodes, Eval(m, nodes, a), o.sign)
    requires After(m, inits, nodes, o).error == None && AllOk(m, inits, nodes, Eval(m, nodes, a))
    ensures var nodes' := After(m, inits, nodes, o).nodes;
      WellFormed(nodes', b.Keys) && SubMap(Eval(m, nodes, a), Eval(m, nodes', b))
  {
    if nodes == [] {
    } else if !nodes[0].op.Stft? {
      CopyNext(m, inits, nodes, o, a, b, used);
      AllOkTail(m, inits, nodes, a, o.sign);
      Simulates(m, inits, nodes[1..], o, Exec(m, nodes[0], a), Exec(m, nodes[0], b), used);
    } else {
      AllOkTail(m, inits, nodes, a, o.sign);
      HeadPlaced(m, inits, nodes, o, a, b, used);
      SignHere(m, inits, nodes, a, b, o.sign);
      var nm := o.names(Key(nodes[0]));
      var v := BlockValues(m, nodes[0], nm, b, o);
      Advance(m, inits, nodes, o, a, b, used);
      Simulates(m, inits, nodes[1..], o, Exec(m, nodes[0], a), b + v, used + NameSet(Generated(nm)));
      Assemble(m, Expand(m, inits, nodes[0], o).value.block, After(m, inits, nodes[1..], o).nodes, b, v);
      AfterFirst(m, inits, nodes, o);
    }
  }

  lemma Advance(m: Interp, inits: Env, nodes: seq<Node>, o: Options, a: Env, b: Env, used: set<Name>)
    requires Alongside(m, inits, nodes, o, a, b, used) && nodes != [] && nodes[0].op.Stft?
    requires HasKey(nodes[0]) && Expand(m, inits, nodes[0], o).Success? && StftOk(m, inits, nodes[0], a)
    requires var nm := o.names(Key(nodes[0]));
      && Placed(nodes[0], nm, b) && HasConsts(m, nodes[0], nm, b, o) && SignOk(m, nodes[0], b, o.sign)
      && Expand(m, inits, nodes[0], o).value.block == StftBlock(nodes[0], nm, Step(nodes[0], b), o.layout)
    ensures var nm := o.names(Key(nodes[0]));
      var block, v := Expand(m, inits, nodes[0], o).value.block, BlockValues(m, nodes[0], nm, b, o);
      && Alongside(m, inits, nodes[1..], o, Exec(m, nodes[0], a), b + v, used + NameSet(Generated(nm)))
      && WellFormed(block, b.Keys) && Eval(m, block, b) == b + v && AllOuts(block) == v.Keys
  {
    var n, nm := nodes[0], o.names(Key(nodes[0]));
    var v := BlockValues(m, n, nm, b, o);
    OutsOne(n);
    StftStep(m, inits, n, nm, a, b, o);
    BlockEval(m, n, nm, b, o);
    BlockFits(n, nm, b, Step(n, b), o.layout);
    StftNext(m, inits, nodes, o, a, b, used, v);
  }

  lemma Assemble(m: Interp, block: seq<Node>, rest: seq<Node>, b: Env, v: Env)
    requires WellFormed(block, b.Keys) && Eval(m, block, b) == b + v && AllOuts(block) == v.Keys
    requires WellFormed(rest, (b + v).Keys)
    ensures WellFormed(block + rest, b.Keys) && Eval(m, block + rest, b) == Eval(m, rest, b + v)
  {
    assert b.Keys + AllOuts(block) == (b + v).Keys;
    WellFormedConcat(block, rest, b.Keys);
    EvalConcat(m, block, rest, b);
  }

  /** A graph, its constants and what it is fed, on which the rewrite succeeds with names that clash with nothing. */
  ghost predicate Rewritable(m: Interp, inits: Env, feed: Env, nodes: seq<Node>, o: Options) {
    && WellFormed(nodes, (inits + feed).Keys)
    && After(m, inits, nodes, o).error == None
    && Unclashing(nodes, o, (inits + feed).Keys + AllOuts(nodes))
    && AllOk(m, inits, nodes, Eval(m, nodes, inits + feed))
  }

  lemma SignedPreserves(m: Interp, inits: Env, feed: Env, nodes: seq<Node>, o: Options)
    requires Rewritable(m, inits, feed, nodes, o) && AllSigned(m, nodes, Eval(m, nodes, inits + feed), o.sign)
    ensures var out := After(m, inits, nodes, o);
      && WellFormed(out.nodes, (inits + out.inits + feed).Keys)
      && SubMap(Eval(m, nodes, inits + feed), Eval(m, out.nodes, inits + out.inits + feed))
  {
    var added, a := After(m, inits, nodes, o).inits, inits + feed;
    AddedFresh(m, inits, nodes, o, a.Keys + AllOuts(nodes));
    DisjointFromOuts(nodes, a.Keys);
    Simulates(m, inits, nodes, o, a, inits + added + feed, a.Keys + AllOuts(nodes));
  }

  // The sign is needed

  /** The sign affects only the values of the kernel constants. */
  lemma {:induction false} SignFree(m: Interp, inits: Env, nodes: seq<Node>, o: Options, sign: real)
    ensures var x, y := After(m, inits, nodes, o), After(m, inits, nodes, o.(sign := sign));
      x.nodes == y.nodes && x.error == y.error && x.inits.Keys == y.inits.Keys
  {
    if nodes != [] {
      SignFree(m, inits, nodes[1..], o, sign);
    }
  }

  lemma {:induction false} UnclashingSign(nodes: seq<Node>, o: Options, sign: real, used: set<Name>)
    requires Unclashing(nodes, o, used)
    ensures Unclashing(nodes, o.(sign := sign), used)
  {
    if nodes != [] {
      if nodes[0].op.Stft? && HasKey(nodes[0]) {
        UnclashingSign(nodes[1..], o, sign, used + NameSet(Generated(o.names(Key(nodes[0])))));
      } else {
        UnclashingSign(nodes[1..], o, sign, used);
      }
    }
  }

  /** Whatever the sign, the new list is well-formed. */
  lemma RewriteWellFormed(m: Interp, inits: Env, feed: Env, nodes: seq<Node>, o: Options)
    requires Rewritable(m, inits, feed, nodes, o)
    ensures var out := After(m, inits, nodes, o);
      WellFormed(out.nodes, (inits + out.inits + feed).Keys)
  {
    SignFree(m, inits, nodes, o, -1.0);
    UnclashingSign(nodes, o, -1.0, (inits + feed).Keys + AllOuts(nodes));
    SignedPreserves(m, inits, feed, nodes, o.(sign := -1.0));
  }

  /** The block and the constants of each STFT node are part of the result. */
  lemma {:induction false} BlockWithin(m: Interp, inits: Env, nodes: seq<Node>, o: Options, used: set<Name>, n: Node)
    requires Unclashing(nodes, o, used) && After(m, inits, nodes, o).error == None && n in nodes && n.op.Stft?
    ensures Expand(m, inits, n, o).Success?
    ensures var x, out := Expand(m, inits, n, o).value, After(m, inits, nodes, o);
      SubMap(x.inits, out.inits) && forall k :: k in x.block ==> k in out.nodes
  {
    AfterFirst(m, inits, nodes, o);
    if n == nodes[0] {
      HeadInits(m, inits, nodes, o, used);
    } else if nodes[0].op.Stft? {
      HeadInits(m, inits, nodes, o, used);
      BlockWithin(m, inits, nodes[1..], o, used + NameSet(Generated(o.names(Key(nodes[0])))), n);
    } else {
      BlockWithin(m, inits, nodes[1..], o, used, n);
    }
  }

  /** A solved node with one output determines it. */
  lemma OutputIs(m: Interp, n: Node, e: Env)
    requires Solves(m, n, e) && |n.outputs| == 1 && n.outputs[0] != ABSENT
    ensures n.outputs[0] in e && e[n.outputs[0]] == Sem(m, n.op, Args(n, e), 0)
  {
    assert n.outputs[0] in Outs(n);
  }

  lemma ConstLookups(nm: StftNames, basis: Tensor<real>, bins: nat, layout: Layout, e: Env)
    requires NoRepeat(Generated(nm)) && SubMap(StftInits(nm, basis, bins, layout), e)
    ensures Lookup(e, nm.axes) == Some(IntVec([1])) && Lookup(e, nm.weight) == Some(Floats(basis))
    ensures Lookup(e, nm.shape) == Some(IntVec(ReshapeTarget(layout, bins)))
    ensures nm.unsqueezed != ABSENT && nm.conv != ABSENT && nm.reshaped != ABSENT
  {
    GeneratedAre(nm);
    var c := StftInits(nm, basis, bins, layout);
    assert nm.axes in c && nm.weight in c && nm.shape in c;
  }

  /** An environment that solves the block, with its constants, gives the output the value of the four operators. */
  lemma BlockForces(m: Interp, n: Node, nm: StftNames, e: Env, o: Options)
    requires Typed(n, e) && Signal(n, e).dims[0] > 0 && |n.outputs| == 1 && n.outputs[0] != ABSENT
    requires NoRepeat(Generated(nm)) && HasConsts(m, n, nm, e, o)
    requires forall k :: k in StftBlock(n, nm, Step(n, e), o.layout) ==> Solves(m, k, e)
    ensures n.outputs[0] in e
    ensures e[n.outputs[0]]
            == Floats(ByConv(m, Signal(n, e), Window(n, e), Step(n, e), n.op.onesided, o.sign, o.layout))
  {
    var block := StftBlock(n, nm, Step(n, e), o.layout);
    var x, w, s, bins := Signal(n, e), Window(n, e), Step(n, e), Bins(n, e);
    ConstLookups(nm, Kernels(m, w, bins, o.sign, o.layout), bins, o.layout, e);
    ForcedConvolution(m, block[0], block[1], e, x, w, s, bins, o.sign, o.layout);
    ForcedTranspose(m, block[2], block[3], e, x, w, s, n.op.onesided, o.sign, o.layout);
  }

  lemma ForcedConvolution(m: Interp, u: Node, k: Node, e: Env, x: Tensor<real>, window: seq<real>, step: nat, bins: nat,
                          sign: real, layout: Layout)
    requires Solves(m, u, e) && Solves(m, k, e) && StftShapes(x, window, step)
    requires u.op == Unsqueeze && |u.inputs| == 2 && |u.outputs| == 1 && u.outputs[0] != ABSENT
    requires Lookup(e, u.inputs[0]) == Some(Floats(x)) && Lookup(e, u.inputs[1]) == Some(IntVec([1]))
    requires k.op == Conv(step) && |k.inputs| == 2 && |k.outputs| == 1 && k.outputs[0] != ABSENT
    requires k.inputs[0] == u.outputs[0]
             && Lookup(e, k.inputs[1]) == Some(Floats(Kernels(m, window, bins, sign, layout)))
    ensures Lookup(e, k.outputs[0]) == Some(Floats(Convolved(m, x, window, step, bins, sign, layout)))
  {
    assert Args(u, e) == [Some(Floats(x)), Some(IntVec([1]))];
    UnsqueezeSem(m, x);
    OutputIs(m, u, e);
    assert Args(k, e) == [Some(Floats(Unsqueezed(x))), Some(Floats(Kernels(m, window, bins, sign, layout)))];
    ConvSem(m, x, window, step, bins, sign, layout);
    OutputIs(m, k, e);
  }

  lemma ForcedTranspose(m: Interp, r: Node, t: Node, e: Env, x: Tensor<real>, window: seq<real>, step: nat,
                        onesided: bool, sign: real, layout: Layout)
    requires Solves(m, r, e) && Solves(m, t, e) && StftShapes(x, window, step) && x.dims[0] > 0
    requires r.op == Reshape && |r.inputs| == 2 && |r.outputs| == 1 && r.outputs[0] != ABSENT
    requires Lookup(e, r.inputs[0])
             == Some(Floats(Convolved(m, x, window, step, FreqBins(|window|, onesided), sign, layout)))
    requires Lookup(e, r.inputs[1]) == Some(IntVec(ReshapeTarget(layout, FreqBins(|window|, onesided))))
    requires t.op == Transpose(Perm(layout)) && t.inputs == r.outputs && |t.outputs| == 1 && t.outputs[0] != ABSENT
    ensures t.outputs[0] in e && e[t.outputs[0]] == Floats(ByConv(m, x, window, step, onesided, sign, layout))
  {
    var bins := FreqBins(|window|, onesided);
    var c := Convolved(m, x, window, step, bins, sign, layout);
    assert Args(r, e) == [Some(Floats(c)), Some(IntVec(ReshapeTarget(layout, bins)))];
    ReshapeSem(m, layout, x.dims[0], bins, Frames(x.dims[1], |window|, step), c);
    OutputIs(m, r, e);
    assert Args(t, e) == [Some(Floats(Reshaped(m, x, window, step, onesided, sign, layout)))];
    TransposeSem(m, x, window, step, onesided, sign, layout);
    OutputIs(m, t, e);
  }

  lemma {:induction false} NamesApart(nodes: seq<Node>, o: Options, used: set<Name>, n: Node)
    requires Unclashing(nodes, o, used) && n in nodes && n.op.Stft? && HasKey(n)
    ensures NoRepeat(Generated(o.names(Key(n))))
  {
    if n != nodes[0] {
      if nodes[0].op.Stft? && HasKey(nodes[0]) {
        NamesApart(nodes[1..], o, used + NameSet(Generated(o.names(Key(nodes[0])))), n);
      } else {
        NamesApart(nodes[1..], o, used, n);
      }
    }
  }

  /** If every old tensor keeps its value, the sign is right for each STFT node. */
  lemma PreservedSigned(m: Interp, inits: Env, feed: Env, nodes: seq<Node>, o: Options, n: Node)
    requires Rewritable(m, inits, feed, nodes, o) && n in nodes && n.op.Stft?
    requires var out := After(m, inits, nodes, o);
      SubMap(Eval(m, nodes, inits + feed), Eval(m, out.nodes, inits + out.inits + feed))
    ensures var e := Eval(m, nodes, inits + feed); Typed(n, e) && SignOk(m, n, e, o.sign)
  {
    var out, a := After(m, inits, nodes, o), inits + feed;
    var e, e' := Eval(m, nodes, a), Eval(m, out.nodes, inits + out.inits + feed);
    EvalSolves(m, nodes, a);
    RewriteWellFormed(m, inits, feed, nodes, o);
    EvalSolves(m, out.nodes, inits + out.inits + feed);
    AddedFresh(m, inits, nodes, o, a.Keys + AllOuts(nodes));
    BlockWithin(m, inits, nodes, o, a.Keys + AllOuts(nodes), n);
    ExpandKeys(m, inits, n, o);
    NamesApart(nodes, o, a.Keys + AllOuts(nodes), n);
    OkIsTyped(m, inits, n, e);
    ReadsOf(nodes, a.Keys, n);
    ArgsAgree(n, e, e');
    ExpandUses(m, inits, n, o, e');
    assert SubMap(out.inits, e');
    BlockForces(m, n, o.names(Key(n)), e', o);
    OutputIs(m, n, e);
    ConvIsStft(m, Signal(n, e), Window(n, e), Step(n, e), n.op.onesided, o.sign, o.layout);
  }

  lemma ReadsOf(nodes: seq<Node>, avail: set<Name>, n: Node)
    requires WellFormed(nodes, avail) && n in nodes
    ensures Reads(n) <= avail + AllOuts(nodes)
  {
    var i :| 0 <= i < |nodes| && nodes[i] == n;
    ReadsEvaluated(nodes, avail, i);
  }

  /**
    The rewritten list is well-formed, and run with the added constants it gives every tensor of the
    old graph the value it had exactly when for each STFT node the imaginary sign is -1 or the
    transform of its signal has no imaginary part.
  */
  lemma RewritePreserves(m: Interp, inits: Env, feed: Env, nodes: seq<Node>, o: Options)
    requires Rewritable(m, inits, feed, nodes, o)
    ensures var out := After(m, inits, nodes, o);
      var e := Eval(m, nodes, inits + feed);
      && WellFormed(out.nodes, (inits + out.inits + feed).Keys)
      && (SubMap(e, Eval(m, out.nodes, inits + out.inits + feed)) <==> AllSigned(m, nodes, e, o.sign))
  {
    var out, e := After(m, inits, nodes, o), Eval(m, nodes, inits + feed);
    RewriteWellFormed(m, inits, feed, nodes, o);
    if AllSigned(m, nodes, e, o.sign) {
      SignedPreserves(m, inits, feed, nodes, o);
    }
    if SubMap(e, Eval(m, out.nodes, inits + out.inits + feed)) {
      forall n | n in nodes && n.op.Stft? && Typed(n, e) ensures SignOk(m, n, e, o.sign) {
        PreservedSigned(m, inits, feed, nodes, o, n);
      }
    }
  }
}
