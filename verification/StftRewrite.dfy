/**
  scripts/rewrite_onnx_stft_to_conv.py, rewrite: each STFT node becomes Unsqueeze, Conv with
  a bank of DFT kernels, Reshape and Transpose.
*/
module StftRewrite {
  import opened Graphs
  import opened Onnx
  import opened OnnxModels
  import opened StftEquivalence
  import opened StftKernels
  import opened Tensors
  import opened Wrappers

  /** Tensor and node names derived from one STFT node. */
  datatype StftNames = StftNames(
    axes: Name, weight: Name, shape: Name,
    unsqueezed: Name, conv: Name, reshaped: Name,
    unsqueezeNode: Name, convNode: Name, reshapeNode: Name, transposeNode: Name)

  /** The command-line options, and the names derived from a node's name or first output. */
  datatype Options = Options(sign: real, layout: Layout, names: Name -> StftNames)

  // Constant operands

  function ConstScalar(inits: Env, x: Name): Result<int, StftError> {
    if x !in inits then Failure(NotConstant(x))
    else match inits[x]
      case Ints(t) => if t.dims == [] && |t.data| == 1 then Success(t.data[0]) else Failure(NotScalar(x))
      case Floats(t) => if t.dims == [] && |t.data| == 1 then Success(Trunc(t.data[0])) else Failure(NotScalar(x))
      case Opaque(_) => Failure(NotScalar(x))
  }

  function ConstVector(inits: Env, x: Name): Result<seq<real>, StftError> {
    if x !in inits then Failure(NotConstant(x))
    else match inits[x]
      case Ints(t) => if |t.dims| == 1 then Success(ToFloats(t).data) else Failure(NotVector(x))
      case Floats(t) => if |t.dims| == 1 then Success(t.data) else Failure(NotVector(x))
      case Opaque(_) => Failure(NotVector(x))
  }

  // The replacement of one node

  datatype Expansion = Expansion(block: seq<Node>, inits: Env)

  function ReshapeTarget(layout: Layout, bins: nat): seq<int> {
    if layout == Interleaved then [0, bins as int, 2, -1] else [0, 2, bins as int, -1]
  }

  function StftBlock(n: Node, nm: StftNames, step: int, layout: Layout): seq<Node>
    requires |n.inputs| > 0
  {
    [Node(nm.unsqueezeNode, Unsqueeze, [n.inputs[0], nm.axes], [nm.unsqueezed]),
     Node(nm.convNode, Conv(step), [nm.unsqueezed, nm.weight], [nm.conv]),
     Node(nm.reshapeNode, Reshape, [nm.conv, nm.shape], [nm.reshaped]),
     Node(nm.transposeNode, Transpose(Perm(layout)), [nm.reshaped], n.outputs)]
  }

  function StftInits(nm: StftNames, basis: Tensor<real>, bins: nat, layout: Layout): Env {
    map[nm.axes := IntVec([1]), nm.weight := Floats(basis), nm.shape := IntVec(ReshapeTarget(layout, bins))]
  }

  /** The node's name, or its first output when it has none. */
  predicate HasKey(n: Node) {
    n.name != ABSENT || n.outputs != []
  }

  function Key(n: Node): Name
    requires HasKey(n)
  {
    if n.name != ABSENT then n.name else n.outputs[0]
  }

  function Expand(m: Interp, inits: Env, n: Node, o: Options): Result<Expansion, StftError>
    requires n.op.Stft?
  {
    if |n.inputs| < 4 then Failure(TooFewInputs)
    else
      match ConstScalar(inits, n.inputs[1])
      case Failure(e) => Failure(e)
      case Success(step) =>
        match ConstVector(inits, n.inputs[2])
        case Failure(e) => Failure(e)
        case Success(window) =>
          match ConstScalar(inits, n.inputs[3])
          case Failure(e) => Failure(e)
          case Success(length) =>
            match Basis(m, window, length, n.op.onesided, o.sign, o.layout)
            case Failure(e) => Failure(e)
            case Success(basis) =>
              if !HasKey(n) then Failure(NoName)
              else
                var nm := o.names(Key(n));
                Success(Expansion(StftBlock(n, nm, step, o.layout),
                                  StftInits(nm, basis, FreqBins(|window|, n.op.onesided), o.layout)))
  }

  // The whole list

  /** Nodes and initializers produced before the first error, if any. */
  datatype Outcome = Outcome(nodes: seq<Node>, inits: Env, count: nat, error: Option<StftError>)

  function After(m: Interp, inits: Env, nodes: seq<Node>, o: Options): Outcome {
    if nodes == [] then Outcome([], map[], 0, None)
    else if !nodes[0].op.Stft? then
      var rest := After(m, inits, nodes[1..], o);
      rest.(nodes := [nodes[0]] + rest.nodes)
    else
      match Expand(m, inits, nodes[0], o)
      case Failure(e) => Outcome([], map[], 0, Some(e))
      case Success(x) =>
        var rest := After(m, inits, nodes[1..], o);
        Outcome(x.block + rest.nodes, x.inits + rest.inits, 1 + rest.count, rest.error)
  }

  method ExpandNode(m: Interp, inits: Env, n: Node, o: Options) returns (r: Result<Expansion, StftError>)
    requires n.op.Stft?
    ensures r == Expand(m, inits, n, o)
  {
    if |n.inputs| < 4 {
      return Failure(TooFewInputs);
    }
    var step := ConstScalar(inits, n.inputs[1]);
    if step.Failure? {
      return Failure(step.error);
    }
    var window := ConstVector(inits, n.inputs[2]);
    if window.Failure? {
      return Failure(window.error);
    }
    var length := ConstScalar(inits, n.inputs[3]);
    if length.Failure? {
      return Failure(length.error);
    }
    var basis := MakeBasis(m, window.value, length.value, n.op.onesided, o.sign, o.layout);
    if basis.Failure? {
      return Failure(basis.error);
    }
    if !HasKey(n) {
      return Failure(NoName);
    }
    var nm := o.names(Key(n));
    var bins := basis.value.dims[0] / 2;
    return Success(Expansion(StftBlock(n, nm, step.value, o.layout), StftInits(nm, basis.value, bins, o.layout)));
  }

  /** What the first part of the list produced, then the rest. */
  function Join(a: Outcome, b: Outcome): Outcome {
    Outcome(a.nodes + b.nodes, a.inits + b.inits, a.count + b.count, b.error)
  }

  lemma JoinAssoc(a: Outcome, b: Outcome, c: Outcome)
    ensures Join(Join(a, b), c) == Join(a, Join(b, c))
  {
  }

  lemma MapAssoc(a: Env, b: Env, c: Env)
    ensures a + b + c == a + (b + c)
  {
  }

  /** What one node produces. */
  function One(m: Interp, inits: Env, n: Node, o: Options): Outcome {
    if !n.op.Stft? then Outcome([n], map[], 0, None)
    else
      match Expand(m, inits, n, o)
      case Failure(e) => Outcome([], map[], 0, Some(e))
      case Success(x) => Outcome(x.block, x.inits, 1, None)
  }

  lemma AfterFirst(m: Interp, inits: Env, nodes: seq<Node>, o: Options)
    requires nodes != []
    ensures var one := One(m, inits, nodes[0], o);
      After(m, inits, nodes, o) == if one.error.Some? then one else Join(one, After(m, inits, nodes[1..], o))
  {
  }

  /** What the first k nodes produce; nothing more after an error. */
  function UpTo(m: Interp, inits: Env, nodes: seq<Node>, o: Options, k: nat): Outcome
    requires k <= |nodes|
  {
    if k == 0 then Outcome([], map[], 0, None)
    else
      var before := UpTo(m, inits, nodes, o, k - 1);
      if before.error.Some? then before else Join(before, One(m, inits, nodes[k - 1], o))
  }

  lemma JoinNothing(a: Outcome)
    ensures Join(Outcome([], map[], 0, None), a) == a
    ensures a.error == None ==> Join(a, Outcome([], map[], 0, None)) == a
  {
  }

  /** The first k nodes, then the rest. */
  lemma {:induction false} UpToThenAfter(m: Interp, inits: Env, nodes: seq<Node>, o: Options, k: nat)
    requires k <= |nodes|
    ensures var done := UpTo(m, inits, nodes, o, k);
      After(m, inits, nodes, o) == if done.error.Some? then done else Join(done, After(m, inits, nodes[k..], o))
  {
    if k == 0 {
      assert nodes[0..] == nodes;
      JoinNothing(After(m, inits, nodes, o));
    } else {
      UpToThenAfter(m, inits, nodes, o, k - 1);
      var t := nodes[k - 1..];
      assert t[0] == nodes[k - 1] && t[1..] == nodes[k..];
      AfterFirst(m, inits, t, o);
      JoinAssoc(UpTo(m, inits, nodes, o, k - 1), One(m, inits, nodes[k - 1], o), After(m, inits, nodes[k..], o));
    }
  }

  lemma UpToAll(m: Interp, inits: Env, nodes: seq<Node>, o: Options, k: nat)
    requires k <= |nodes| && (k == |nodes| || UpTo(m, inits, nodes, o, k).error.Some?)
    ensures UpTo(m, inits, nodes, o, k) == After(m, inits, nodes, o)
  {
    UpToThenAfter(m, inits, nodes, o, k);
    if UpTo(m, inits, nodes, o, k).error == None {
      JoinNothing(UpTo(m, inits, nodes, o, k));
    }
  }

  /** The loop: collects the new nodes, and extends the model's initializers as it goes. */
  method RewriteNodes(m: Interp, model: Model, inits: Env, nodes: seq<Node>, o: Options) returns (done: Outcome)
    requires model.inits == inits
    modifies model`inits
    ensures done == After(m, inits, nodes, o) && model.inits == inits + done.inits
  {
    done := Outcome([], map[], 0, None);
    var k := 0;
    while k < |nodes| && done.error == None
      invariant 0 <= k <= |nodes| && done == UpTo(m, inits, nodes, o, k)
      invariant model.inits == inits + done.inits
    {
      var x := RewriteOne(m, inits, nodes[k], o);
      model.inits := model.inits + x.inits;
      MapAssoc(inits, done.inits, x.inits);
      done := Join(done, x);
      k := k + 1;
    }
    UpToAll(m, inits, nodes, o, k);
  }

  /** On an error the node list is left alone, but initializers of earlier replacements stay. */
  method Rewrite(m: Interp, model: Model, o: Options) returns (r: Result<nat, StftError>)
    modifies model`nodes, model`inits
    ensures var a := After(m, old(model.inits), old(model.nodes), o);
      && model.inits == old(model.inits) + a.inits
      && (if r.Success? then a.error == None && model.nodes == a.nodes && r.value == a.count
          else a.error == Some(r.error) && model.nodes == old(model.nodes))
  {
    var done := RewriteNodes(m, model, model.inits, model.nodes, o);
    if done.error.Some? {
      return Failure(done.error.value);
    }
    model.nodes := done.nodes;
    return Success(done.count);
  }

  /** One round of the loop. */
  method RewriteOne(m: Interp, inits: Env, n: Node, o: Options) returns (x: Outcome)
    ensures x == One(m, inits, n, o)
  {
    if !n.op.Stft? {
      return Outcome([n], map[], 0, None);
    }
    var e := ExpandNode(m, inits, n, o);
    match e
    case Failure(error) => return Outcome([], map[], 0, Some(error));
    case Success(value) => return Outcome(value.block, value.inits, 1, None);
  }
}
