/**
  scripts/surgery_matcha_acoustic.py, fix_random_normal_like: the first RandomNormalLike node
  is replaced by a slice, of the same shape, of an external noise input.
*/
module MatchaNoise {
  import opened Graphs
  import opened Onnx
  import opened OnnxModels
  import opened Rewriting
  import opened Tensors
  import opened Wrappers

  /** Node and tensor names generated for the replaced node, and the name of the new input. */
  datatype NoiseNames = NoiseNames(
    shapeName: Name, shapeOut: Name, castName: Name, castOut: Name, sliceName: Name, sliceOut: Name,
    starts: Name, axes: Name, steps: Name, noise: Name)

  datatype NoiseError = NoConsumer | MissingOperand | ConsumerGone

  function NoiseBlock(nm: NoiseNames, ref: Name): seq<Node> {
    [Node(nm.shapeName, Shape, [ref], [nm.shapeOut]),
     Node(nm.castName, CastInt64, [nm.shapeOut], [nm.castOut]),
     Node(nm.sliceName, Slice, [nm.noise, nm.starts, nm.castOut, nm.axes, nm.steps], [nm.sliceOut])]
  }

  function NoiseInits(nm: NoiseNames): Env {
    map[nm.starts := IntVec([0, 0, 0]), nm.axes := IntVec([0, 1, 2]), nm.steps := IntVec([1, 1, 1])]
  }

  function FirstRandom(nodes: seq<Node>): (k: nat)
    ensures k <= |nodes| && (k < |nodes| ==> nodes[k].op == RandomNormalLike)
  {
    if nodes == [] || nodes[0].op == RandomNormalLike then 0 else 1 + FirstRandom(nodes[1..])
  }

  function FirstUse(inputs: seq<Name>, r: Name): (k: nat)
    ensures k <= |inputs| && (k < |inputs| <==> r in inputs) && (k < |inputs| ==> inputs[k] == r)
  {
    if inputs == [] || inputs[0] == r then 0 else 1 + FirstUse(inputs[1..], r)
  }

  /** The last node that reads r, or the length of the list. */
  function LastReader(nodes: seq<Node>, r: Name): (k: nat)
    ensures k <= |nodes| && (k < |nodes| ==> r in nodes[k].inputs)
    ensures k == |nodes| ==> forall n :: n in nodes ==> r !in n.inputs
  {
    if nodes == [] then 0
    else
      var n := |nodes| - 1;
      if r in nodes[n].inputs then n
      else
        var k := LastReader(nodes[..n], r);
        if k == n then |nodes| else k
  }

  /** Redirect one use of node q, then remove node p. */
  function Removed(nodes: seq<Node>, p: nat, q: nat, r: Name, f: Name): (s: seq<Node>)
    requires p < |nodes| && q < |nodes| && r in nodes[q].inputs
    ensures |s| == |nodes| - 1
  {
    var rewired := nodes[q := Redirected(nodes[q], r, f)];
    rewired[..p] + rewired[p + 1..]
  }

  function Redirected(n: Node, r: Name, f: Name): Node
    requires r in n.inputs
  {
    n.(inputs := n.inputs[FirstUse(n.inputs, r) := f])
  }

  /** Then insert the block before the redirected node. */
  function ReplaceNoise(nodes: seq<Node>, p: nat, q: nat, block: seq<Node>, r: Name, f: Name): seq<Node>
    requires p < |nodes| && q < |nodes| && p != q && r in nodes[q].inputs
  {
    var removed, pos := Removed(nodes, p, q, r, f), if p < q then q - 1 else q;
    removed[..pos] + block + removed[pos..]
  }

  /** The edited parts of a model. */
  datatype NoiseState = NoiseState(inputs: seq<Input>, inits: Env, nodes: seq<Node>)

  /** What the surgery leaves in the model, and the error it raises, if any. */
  datatype Outcome = Outcome(state: NoiseState, error: Option<NoiseError>)

  /**
    All errors but the last come before the first edit; that one is raised when the random node reads its own
    output.
  */
  function AfterNoise(s: NoiseState, nm: NoiseNames): Outcome {
    var p := FirstRandom(s.nodes);
    if p == |s.nodes| then Outcome(s, None)
    else if |s.nodes[p].inputs| < 1 || |s.nodes[p].outputs| < 1 then Outcome(s, Some(MissingOperand))
    else
      var ref, r := s.nodes[p].inputs[0], s.nodes[p].outputs[0];
      var q := LastReader(s.nodes, r);
      if q == |s.nodes| then Outcome(s, Some(NoConsumer))
      else if FirstUse(s.nodes[q].inputs, r) == 0 && |s.nodes[q].inputs| < 2 then Outcome(s, Some(MissingOperand))
      else if p == q then Outcome(s.(nodes := Removed(s.nodes, p, q, r, nm.sliceOut)), Some(ConsumerGone))
      else Outcome(NoiseState(s.inputs + [Input(nm.noise, FloatType)], s.inits + NoiseInits(nm),
                              ReplaceNoise(s.nodes, p, q, NoiseBlock(nm, ref), r, nm.sliceOut)), None)
  }

  /** The inner loop stops at the first use. */
  method FindUse(xs: seq<Name>, r: Name) returns (k: nat)
    ensures k == FirstUse(xs, r)
  {
    k := 0;
    while k < |xs| && xs[k] != r
      invariant k <= |xs| && FirstUse(xs, r) == k + FirstUse(xs[k..], r)
    {
      k := k + 1;
    }
  }

  lemma LastReaderNext(nodes: seq<Node>, r: Name, i: nat)
    requires i < |nodes|
    ensures var before := LastReader(nodes[..i], r);
      LastReader(nodes[..i + 1], r) == if r in nodes[i].inputs then i else if before == i then i + 1 else before
  {
    assert nodes[..i + 1][..i] == nodes[..i];
  }

  /** The outer loop goes on to the last reader. */
  method FindConsumer(nodes: seq<Node>, r: Name) returns (q: nat, idx: nat)
    ensures q == LastReader(nodes, r)
    ensures q < |nodes| ==> idx == FirstUse(nodes[q].inputs, r)
  {
    q, idx := |nodes|, 0;
    for i := 0 to |nodes|
      invariant q == if LastReader(nodes[..i], r) == i then |nodes| else LastReader(nodes[..i], r)
      invariant q < |nodes| ==> idx == FirstUse(nodes[q].inputs, r)
    {
      LastReaderNext(nodes, r, i);
      var k := FindUse(nodes[i].inputs, r);
      if k < |nodes[i].inputs| {
        q, idx := i, k;
      }
    }
    assert nodes[..|nodes|] == nodes;
  }

  method RewireAndRemove(model: Model, p: nat, q: nat, idx: nat, r: Name, f: Name)
    requires p < |model.nodes| && q < |model.nodes| && r in model.nodes[q].inputs
             && idx == FirstUse(model.nodes[q].inputs, r)
    modifies model`nodes
    ensures model.nodes == Removed(old(model.nodes), p, q, r, f)
  {
    var mul := model.nodes[q];
    model.nodes := model.nodes[q := mul.(inputs := mul.inputs[idx := f])];
    model.nodes := model.nodes[..p] + model.nodes[p + 1..];
  }

  method InsertBlock(model: Model, p: nat, q: nat, block: seq<Node>, ghost nodes: seq<Node>, ghost r: Name,
                     ghost f: Name)
    requires p < |nodes| && q < |nodes| && p != q && r in nodes[q].inputs && model.nodes == Removed(nodes, p, q, r, f)
    modifies model`nodes
    ensures model.nodes == ReplaceNoise(nodes, p, q, block, r, f)
  {
    var pos := if p < q then q - 1 else q;
    model.nodes := model.nodes[..pos] + block + model.nodes[pos..];
  }

  method FixRandomNormalLike(model: Model, nm: NoiseNames) returns (error: Option<NoiseError>)
    modifies model
    ensures Outcome(NoiseState(model.inputs, model.inits, model.nodes), error)
            == AfterNoise(NoiseState(old(model.inputs), old(model.inits), old(model.nodes)), nm)
  {
    var p := FirstRandom(model.nodes);
    if p == |model.nodes| {
      return None;
    }
    if |model.nodes[p].inputs| < 1 || |model.nodes[p].outputs| < 1 {
      return Some(MissingOperand);
    }
    var ref, r := model.nodes[p].inputs[0], model.nodes[p].outputs[0];
    var q, idx := FindConsumer(model.nodes, r);
    if q == |model.nodes| {
      return Some(NoConsumer);
    }
    if idx == 0 && |model.nodes[q].inputs| < 2 {
      return Some(MissingOperand);
    }
    RewireAndRemove(model, p, q, idx, r, nm.sliceOut);
    if p == q {
      return Some(ConsumerGone);
    }
    InsertBlock(model, p, q, NoiseBlock(nm, ref), old(model.nodes), r, nm.sliceOut);
    model.inits := model.inits + NoiseInits(nm);
    model.inputs := model.inputs + [Input(nm.noise, FloatType)];
    return None;
  }

  // The shape of the slice

  /** A leading block has the requested shape exactly when it fits the tensor. */
  lemma NoiseShape(dims: seq<nat>, wanted: seq<nat>)
    requires |dims| == |wanted|
    ensures BlockDims(dims, wanted) == wanted <==> forall i :: 0 <= i < |dims| ==> wanted[i] <= dims[i]
  {
    var b := BlockDims(dims, wanted);
    forall i | 0 <= i < |dims| ensures b[i] == wanted[i] <==> wanted[i] <= dims[i] {
      assert b[i] == SliceEnd(wanted[i], dims[i]);
    }
    if forall i :: 0 <= i < |dims| ==> wanted[i] <= dims[i] {
      assert b == wanted;
    }
  }

  // When the rewrite is sound

  /** Nothing but one input of one node reads r. */
  predicate SingleUse(nodes: seq<Node>, r: Name) {
    var q := LastReader(nodes, r);
    forall i, k :: 0 <= i < |nodes| && 0 <= k < |nodes[i].inputs| && nodes[i].inputs[k] == r ==>
      i == q && k == FirstUse(nodes[i].inputs, r)
  }

  lemma ReplaceNoiseForm(nodes: seq<Node>, p: nat, q: nat, block: seq<Node>, r: Name, f: Name)
    requires p < q < |nodes| && r in nodes[q].inputs
    ensures ReplaceNoise(nodes, p, q, block, r, f)
            == nodes[..p] + nodes[p + 1..q] + block + ([Redirected(nodes[q], r, f)] + nodes[q + 1..])
  {
  }

  /** No input of the list is r. */
  predicate Unused(xs: seq<Name>, r: Name) {
    forall k :: 0 <= k < |xs| ==> xs[k] != r
  }

  /** Node q reads r once, and no other node reads it. */
  predicate OnlyUse(nodes: seq<Node>, r: Name, q: nat) {
    && q < |nodes| && r in nodes[q].inputs
    && (forall i :: 0 <= i < |nodes| && i != q ==> Unused(nodes[i].inputs, r))
    && (forall k :: 0 <= k < |nodes[q].inputs| && nodes[q].inputs[k] == r ==> k == FirstUse(nodes[q].inputs, r))
  }

  lemma SingleUseIsOnly(nodes: seq<Node>, r: Name)
    requires SingleUse(nodes, r) && LastReader(nodes, r) < |nodes|
    ensures OnlyUse(nodes, r, LastReader(nodes, r))
  {
  }

  lemma RenameUnused(xs: seq<Name>, r: Name, f: Name)
    requires Unused(xs, r)
    ensures RenameInputs(xs, r, f) == xs
  {
  }

  lemma OnlyUseHere(xs: seq<Name>, r: Name, f: Name)
    requires r in xs && forall k :: 0 <= k < |xs| && xs[k] == r ==> k == FirstUse(xs, r)
    ensures xs[FirstUse(xs, r) := f] == RenameInputs(xs, r, f)
  {
  }

  /** With a single use, redirecting that use renames r everywhere. */
  lemma OnlyUseRename(nodes: seq<Node>, q: nat, r: Name, f: Name)
    requires OnlyUse(nodes, r, q)
    ensures [Redirected(nodes[q], r, f)] + nodes[q + 1..] == Rename(nodes[q..], r, f)
  {
    OnlyUseHere(nodes[q].inputs, r, f);
    forall i | q < i < |nodes| ensures nodes[i].(inputs := RenameInputs(nodes[i].inputs, r, f)) == nodes[i] {
      RenameUnused(nodes[i].inputs, r, f);
    }
    RenameTail(nodes, q, r, f, Redirected(nodes[q], r, f));
  }

  lemma RenameTail(nodes: seq<Node>, q: nat, r: Name, f: Name, h: Node)
    requires q < |nodes| && h == nodes[q].(inputs := RenameInputs(nodes[q].inputs, r, f))
    requires forall i :: q < i < |nodes| ==> nodes[i].(inputs := RenameInputs(nodes[i].inputs, r, f)) == nodes[i]
    ensures [h] + nodes[q + 1..] == Rename(nodes[q..], r, f)
  {
  }

  lemma OnlyUseUnread(nodes: seq<Node>, p: nat, q: nat, r: Name)
    requires OnlyUse(nodes, r, q) && p < q
    ensures r !in AllReads(nodes[p + 1..q])
  {
    var b := nodes[p + 1..q];
    forall x | x in AllReads(b) ensures x != r {
      var i :| 0 <= i < |b| && x in Reads(b[i]);
      assert b[i] == nodes[p + 1 + i] && Unused(nodes[p + 1 + i].inputs, r);
    }
  }

  lemma ReplacedForm(nodes: seq<Node>, p: nat, q: nat, block: seq<Node>, r: Name, f: Name)
    requires p < q < |nodes| && r in nodes[q].inputs
    requires [Redirected(nodes[q], r, f)] + nodes[q + 1..] == Rename(nodes[q..], r, f)
    ensures ReplaceNoise(nodes, p, q, block, r, f) == Replaced(nodes, p, q, block, r, f)
  {
    ReplaceNoiseForm(nodes, p, q, block, r, f);
  }

  lemma ReplaceNoiseIs(nodes: seq<Node>, p: nat, q: nat, block: seq<Node>, r: Name, f: Name)
    requires OnlyUse(nodes, r, q) && p < q
    ensures ReplaceNoise(nodes, p, q, block, r, f) == Replaced(nodes, p, q, block, r, f)
    ensures r !in AllReads(nodes[p + 1..q])
  {
    OnlyUseRename(nodes, q, r, f);
    ReplacedForm(nodes, p, q, block, r, f);
    OnlyUseUnread(nodes, p, q, r);
  }

  predicate NoiseFresh(nm: NoiseNames, used: set<Name>) {
    var g := [nm.shapeOut, nm.castOut, nm.sliceOut, nm.starts, nm.axes, nm.steps, nm.noise];
    && (forall i, j :: 0 <= i < j < |g| ==> g[i] != g[j])
    && (forall x :: x in g ==> x != ABSENT && x !in used)
  }

  lemma NoiseNamesAre(nm: NoiseNames, used: set<Name>)
    requires NoiseFresh(nm, used)
    ensures {nm.shapeOut, nm.castOut, nm.sliceOut} !! NoiseInits(nm).Keys + {nm.noise}
    ensures {nm.shapeOut, nm.castOut, nm.sliceOut} + NoiseInits(nm).Keys + {nm.noise} !! used + {ABSENT}
    ensures nm.shapeOut != nm.castOut && nm.castOut != nm.sliceOut && nm.shapeOut != nm.sliceOut
    ensures nm.noise !in NoiseInits(nm)
    ensures NoiseInits(nm)[nm.starts] == IntVec([0, 0, 0]) && NoiseInits(nm)[nm.axes] == IntVec([0, 1, 2])
    ensures NoiseInits(nm)[nm.steps] == IntVec([1, 1, 1])
  {
    var g := [nm.shapeOut, nm.castOut, nm.sliceOut, nm.starts, nm.axes, nm.steps, nm.noise];
    assert g[0] == nm.shapeOut && g[1] == nm.castOut && g[2] == nm.sliceOut && g[3] == nm.starts;
    assert g[4] == nm.axes && g[5] == nm.steps && g[6] == nm.noise;
  }

  lemma ChainOf3(b: seq<Node>, avail: set<Name>)
    requires |b| == 3 && NodeOk(b[0], avail) && NodeOk(b[1], avail + Outs(b[0]))
             && NodeOk(b[2], avail + Outs(b[0]) + Outs(b[1]))
    ensures WellFormed(b, avail) && AllOuts(b) == Outs(b[0]) + Outs(b[1]) + Outs(b[2])
  {
    ChainOf2(b[..2], avail);
    Singleton(b[2], avail + AllOuts(b[..2]));
    assert b == b[..2] + [b[2]];
    assert avail + AllOuts(b[..2]) == avail + Outs(b[0]) + Outs(b[1]);
    WellFormedConcat(b[..2], [b[2]], avail);
    AllOutsConcat(b[..2], [b[2]]);
  }

  lemma NoiseBlockFits(nm: NoiseNames, ref: Name, used: set<Name>, read: set<Name>)
    requires NoiseFresh(nm, used) && ref in read && ref != ABSENT && read <= used
    ensures var b := NoiseBlock(nm, ref);
      WellFormed(b, read + (NoiseInits(nm).Keys + {nm.noise})) && AllOuts(b) == {nm.shapeOut, nm.castOut, nm.sliceOut}
  {
    var b := NoiseBlock(nm, ref);
    NoiseNamesAre(nm, used);
    OutsOne(b[0]);
    OutsOne(b[1]);
    OutsOne(b[2]);
    ChainOf3(b, read + (NoiseInits(nm).Keys + {nm.noise}));
  }

  /** The shape of an integer or float value. */
  predicate HasDims(v: Value, dims: seq<nat>) {
    match v
    case Ints(t) => t.dims == dims
    case Floats(t) => t.dims == dims
    case Opaque(_) => false
  }

  function NoiseValues(nm: NoiseNames, noise: Tensor<real>, dims: seq<nat>): Env
    requires noise.Valid() && |dims| == |noise.dims|
  {
    map[nm.shapeOut := IntVec(dims), nm.castOut := IntVec(dims), nm.sliceOut := Floats(Block(noise, dims))]
  }

  lemma SliceNoise(m: Interp, noise: Tensor<real>, dims: seq<nat>)
    requires noise.Valid() && |noise.dims| == 3 && |dims| == 3
    ensures Sem(m, Slice, [Some(Floats(noise)), Some(IntVec([0, 0, 0])), Some(IntVec(dims)),
                           Some(IntVec([0, 1, 2])), Some(IntVec([1, 1, 1]))], 0) == Floats(Block(noise, dims))
  {
    Product1([3]);
    assert Const(3, 0) == [0, 0, 0] && Iota(3) == [0, 1, 2] && Const(3, 1) == [1, 1, 1];
  }

  lemma NoiseSolves(m: Interp, nm: NoiseNames, ref: Name, noise: Tensor<real>, dims: seq<nat>, e: Env)
    requires NoiseFresh(nm, {}) && ref != ABSENT && ref in e && HasDims(e[ref], dims)
    requires noise.Valid() && |noise.dims| == 3 && |dims| == 3
    requires SubMap(NoiseInits(nm), e) && nm.noise in e && e[nm.noise] == Floats(noise)
    requires SubMap(NoiseValues(nm, noise, dims), e)
    ensures forall n :: n in NoiseBlock(nm, ref) ==> Solves(m, n, e)
  {
    NoiseNamesAre(nm, {});
    var b := NoiseBlock(nm, ref);
    var values := NoiseValues(nm, noise, dims);
    assert nm.shapeOut in values && nm.castOut in values && nm.sliceOut in values;
    assert nm.starts in NoiseInits(nm) && nm.axes in NoiseInits(nm) && nm.steps in NoiseInits(nm);
    assert Args(b[0], e) == [Some(e[ref])];
    SolvesOne(m, b[0], e, IntVec(dims));
    assert Args(b[1], e) == [Some(IntVec(dims))];
    SolvesOne(m, b[1], e, IntVec(dims));
    assert Args(b[2], e) == [Some(Floats(noise)), Some(IntVec([0, 0, 0])), Some(IntVec(dims)),
                             Some(IntVec([0, 1, 2])), Some(IntVec([1, 1, 1]))];
    SliceNoise(m, noise, dims);
    SolvesOne(m, b[2], e, Floats(Block(noise, dims)));
  }

  /** The random node p of a well-formed list, its reference tensor of rank 3, and a rank-3 noise tensor. */
  ghost predicate NoiseSetup(m: Interp, nodes: seq<Node>, env: Env, p: nat, nm: NoiseNames, noise: Tensor<real>,
                             dims: seq<nat>) {
    && WellFormed(nodes, env.Keys) && p < |nodes| && NoiseFresh(nm, env.Keys + AllOuts(nodes))
    && |nodes[p].inputs| >= 1 && nodes[p].inputs[0] != ABSENT && |nodes[p].outputs| == 1
       && nodes[p].outputs[0] != ABSENT
    && nodes[p].inputs[0] in Eval(m, nodes, env) && HasDims(Eval(m, nodes, env)[nodes[p].inputs[0]], dims)
    && noise.Valid() && |noise.dims| == 3 && |dims| == 3
  }

  /** Layers with different keys are all visible. */
  lemma Layered(e: Env, added: Env, values: Env)
    requires added.Keys !! e.Keys && values.Keys !! e.Keys && added.Keys !! values.Keys
    ensures SubMap(e, e + added + values) && SubMap(added, e + added + values) && SubMap(values, e + added + values)
  {
  }

  /** The old values, the added inputs and the block's values are disjoint layers. */
  lemma NoiseLayers(nm: NoiseNames, e: Env, env: Env, noise: Tensor<real>, dims: seq<nat>)
    requires NoiseFresh(nm, e.Keys) && SubMap(env, e) && noise.Valid() && |dims| == |noise.dims|
    ensures var added, values := NoiseInits(nm)[nm.noise := Floats(noise)], NoiseValues(nm, noise, dims);
      var e' := e + added + values;
      && SubMap(e, e') && SubMap(added, e') && SubMap(values, e') && SubMap(NoiseInits(nm), e')
         && SubMap(env + added, e')
      && nm.noise in e' && e'[nm.noise] == Floats(noise)
      && nm.sliceOut in e' && e'[nm.sliceOut] == Floats(Block(noise, dims))
  {
    var added, values := NoiseInits(nm)[nm.noise := Floats(noise)], NoiseValues(nm, noise, dims);
    NoiseNamesAre(nm, e.Keys);
    assert added.Keys == NoiseInits(nm).Keys + {nm.noise} && values.Keys == {nm.shapeOut, nm.castOut, nm.sliceOut};
    Layered(e, added, values);
    assert SubMap(NoiseInits(nm), added);
    assert nm.sliceOut in values && nm.noise in added;
  }

  lemma NoiseExtends(m: Interp, nodes: seq<Node>, env: Env, p: nat, nm: NoiseNames, noise: Tensor<real>, dims: seq<nat>)
    requires NoiseSetup(m, nodes, env, p, nm, noise, dims)
    requires nodes[p].outputs[0] in Eval(m, nodes, env)
    requires Eval(m, nodes, env)[nodes[p].outputs[0]] == Floats(Block(noise, dims))
    ensures
      var e := Eval(m, nodes, env);
      var e' := e + NoiseInits(nm)[nm.noise := Floats(noise)] + NoiseValues(nm, noise, dims);
      && SubMap(env + NoiseInits(nm)[nm.noise := Floats(noise)], e')
      && Extends(m, nodes, env, nodes[p].outputs[0], nm.sliceOut, NoiseBlock(nm, nodes[p].inputs[0]), e')
  {
    var e := Eval(m, nodes, env);
    var added, values := NoiseInits(nm)[nm.noise := Floats(noise)], NoiseValues(nm, noise, dims);
    var e' := e + added + values;
    EvalSolves(m, nodes, env);
    NoiseLayers(nm, e, env, noise, dims);
    NoiseSolves(m, nm, nodes[p].inputs[0], noise, dims, e');
  }

  /**
    If the random output has a single use, feeding noise whose leading block is the random
    tensor keeps the value of every other tensor.
  */
  lemma NoisePreserves(m: Interp, nodes: seq<Node>, env: Env, p: nat, nm: NoiseNames, noise: Tensor<real>,
                       dims: seq<nat>)
    requires NoiseSetup(m, nodes, env, p, nm, noise, dims)
    requires nodes[p].outputs[0] in Eval(m, nodes, env)
    requires Eval(m, nodes, env)[nodes[p].outputs[0]] == Floats(Block(noise, dims))
    requires SingleUse(nodes, nodes[p].outputs[0]) && LastReader(nodes, nodes[p].outputs[0]) < |nodes|
    ensures p < LastReader(nodes, nodes[p].outputs[0])
    ensures
      var r := nodes[p].outputs[0];
      var nodes' := ReplaceNoise(nodes, p, LastReader(nodes, r), NoiseBlock(nm, nodes[p].inputs[0]), r, nm.sliceOut);
      var env' := env + NoiseInits(nm)[nm.noise := Floats(noise)];
      var e, e' := Eval(m, nodes, env), Eval(m, nodes', env');
      && WellFormed(nodes', env'.Keys)
      && forall x :: x in e && x != r ==> x in e' && e'[x] == e[x]
  {
    var r, ref := nodes[p].outputs[0], nodes[p].inputs[0];
    var q := LastReader(nodes, r);
    var block := NoiseBlock(nm, ref);
    var added := NoiseInits(nm)[nm.noise := Floats(noise)];
    NoisePlaced(nodes, env.Keys, p, nm);
    SingleUseIsOnly(nodes, r);
    ReplaceNoiseIs(nodes, p, q, block, r, nm.sliceOut);
    NoiseExtends(m, nodes, env, p, nm, noise, dims);
    assert (env + added).Keys - env.Keys == added.Keys == NoiseInits(nm).Keys + {nm.noise};
    ReplacedPreserves(m, nodes, env, env + added, p, q, block, r, nm.sliceOut,
                      Eval(m, nodes, env) + added + NoiseValues(nm, noise, dims));
  }

  lemma NoisePlaced(nodes: seq<Node>, avail: set<Name>, p: nat, nm: NoiseNames)
    requires WellFormed(nodes, avail) && p < |nodes| && NoiseFresh(nm, avail + AllOuts(nodes))
    requires |nodes[p].inputs| >= 1 && nodes[p].inputs[0] != ABSENT && |nodes[p].outputs| == 1
             && nodes[p].outputs[0] != ABSENT
    requires LastReader(nodes, nodes[p].outputs[0]) < |nodes|
    ensures
      var r, added, block := nodes[p].outputs[0], NoiseInits(nm).Keys + {nm.noise}, NoiseBlock(nm, nodes[p].inputs[0]);
      && p < LastReader(nodes, r) && Outs(nodes[p]) == {r}
      && added !! avail + AllOuts(nodes) && AllOuts(block) == {nm.shapeOut, nm.castOut, nm.sliceOut}
      && AllOuts(block) !! avail + AllOuts(nodes) && nm.sliceOut != ABSENT
      && WellFormed(block, Reads(nodes[p]) + added)
  {
    var r := nodes[p].outputs[0];
    var q := LastReader(nodes, r);
    OutsOne(nodes[p]);
    UnreadBefore(nodes, avail, p, r);
    var a := nodes[..p];
    assert r in Reads(nodes[q]);
    assert forall i :: 0 <= i < p ==> a[i] == nodes[i];
    assert nodes[p].inputs[0] in Reads(nodes[p]);
    ReadsEvaluated(nodes, avail, p);
    NoiseNamesAre(nm, avail + AllOuts(nodes));
    NoiseBlockFits(nm, nodes[p].inputs[0], avail + AllOuts(nodes), Reads(nodes[p]));
  }

  /** The random node p has a reference input and one output, which is read. */
  predicate NoisePlace(nodes: seq<Node>, avail: set<Name>, p: nat, nm: NoiseNames) {
    && WellFormed(nodes, avail) && p < |nodes| && NoiseFresh(nm, avail + AllOuts(nodes))
    && |nodes[p].inputs| >= 1 && nodes[p].inputs[0] != ABSENT && |nodes[p].outputs| == 1
       && nodes[p].outputs[0] != ABSENT
    && LastReader(nodes, nodes[p].outputs[0]) < |nodes|
  }

  /** The node list after the rewrite of node p. */
  function NoNoise(nodes: seq<Node>, p: nat, nm: NoiseNames): seq<Node>
    requires p < |nodes| && |nodes[p].inputs| >= 1 && |nodes[p].outputs| >= 1
    requires LastReader(nodes, nodes[p].outputs[0]) < |nodes| && LastReader(nodes, nodes[p].outputs[0]) != p
  {
    var r := nodes[p].outputs[0];
    ReplaceNoise(nodes, p, LastReader(nodes, r), NoiseBlock(nm, nodes[p].inputs[0]), r, nm.sliceOut)
  }

  /** The rewritten list is well-formed exactly when the random output had a single use. */
  lemma NoiseWellFormed(nodes: seq<Node>, avail: set<Name>, p: nat, nm: NoiseNames)
    requires NoisePlace(nodes, avail, p, nm)
    ensures p < LastReader(nodes, nodes[p].outputs[0])
    ensures WellFormed(NoNoise(nodes, p, nm), avail + (NoiseInits(nm).Keys + {nm.noise}))
            <==> SingleUse(nodes, nodes[p].outputs[0])
  {
    NoisePlaced(nodes, avail, p, nm);
    if SingleUse(nodes, nodes[p].outputs[0]) {
      SingleUseWellFormed(nodes, avail, p, nm);
    } else {
      DanglingRead(nodes, avail, p, LastReader(nodes, nodes[p].outputs[0]), NoiseBlock(nm, nodes[p].inputs[0]),
                   nodes[p].outputs[0], nm.sliceOut, NoiseInits(nm).Keys + {nm.noise});
    }
  }

  /** A random node, and two nodes that read its output. */
  function TwoReaders(x: Name, r: Name, a: Name, b: Name): seq<Node> {
    [Node(r, RandomNormalLike, [x], [r]), Node(a, Other("Mul"), [r], [a]), Node(b, Other("Mul"), [r], [b])]
  }

  /** With a second reader the first one is left reading the removed output. */
  lemma TwoReadersDangle(x: Name, r: Name, a: Name, b: Name, nm: NoiseNames)
    requires ABSENT !in [x, r, a, b] && x != r && x != a && x != b && r != a && r != b && a != b
    requires NoiseFresh(nm, {x, r, a, b})
    ensures var nodes := TwoReaders(x, r, a, b);
      && FirstRandom(nodes) == 0 && NoisePlace(nodes, {x}, 0, nm) && LastReader(nodes, r) == 2
      && !WellFormed(NoNoise(nodes, 0, nm), {x} + (NoiseInits(nm).Keys + {nm.noise}))
  {
    var nodes := TwoReaders(x, r, a, b);
    TwoReadersWellFormed(x, r, a, b);
    assert nodes[2].inputs[0] == r && nodes[..2][1] == nodes[1];
    assert nodes[1].inputs[0] == r;
    assert !SingleUse(nodes, r);
    NoiseWellFormed(nodes, {x}, 0, nm);
  }

  lemma TwoReadersWellFormed(x: Name, r: Name, a: Name, b: Name)
    requires ABSENT !in [x, r, a, b] && x != r && x != a && x != b && r != a && r != b && a != b
    ensures var nodes := TwoReaders(x, r, a, b);
      WellFormed(nodes, {x}) && AllOuts(nodes) == {r, a, b}
  {
    var nodes := TwoReaders(x, r, a, b);
    var names := [x, r, a, b];
    assert names[0] == x && names[1] == r && names[2] == a && names[3] == b;
    OutsOne(nodes[0]);
    OutsOne(nodes[1]);
    OutsOne(nodes[2]);
    ChainOf3(nodes, {x});
  }

  lemma SingleUseWellFormed(nodes: seq<Node>, avail: set<Name>, p: nat, nm: NoiseNames)
    requires NoisePlace(nodes, avail, p, nm) && p < LastReader(nodes, nodes[p].outputs[0])
    requires SingleUse(nodes, nodes[p].outputs[0])
    ensures WellFormed(NoNoise(nodes, p, nm), avail + (NoiseInits(nm).Keys + {nm.noise}))
  {
    var r, added := nodes[p].outputs[0], NoiseInits(nm).Keys + {nm.noise};
    var q, block := LastReader(nodes, r), NoiseBlock(nm, nodes[p].inputs[0]);
    NoisePlaced(nodes, avail, p, nm);
    SingleUseIsOnly(nodes, r);
    ReplaceNoiseIs(nodes, p, q, block, r, nm.sliceOut);
    ReplacedWellFormed(nodes, avail, p, q, block, r, nm.sliceOut, added);
  }

  lemma DanglingRead(nodes: seq<Node>, avail: set<Name>, p: nat, q: nat, block: seq<Node>, r: Name, f: Name,
                     added: set<Name>)
    requires WellFormed(nodes, avail) && p < q < |nodes| && q == LastReader(nodes, r) && !SingleUse(nodes, r)
    requires r != ABSENT && Outs(nodes[p]) == {r} && r !in AllOuts(block) + added
    ensures !WellFormed(ReplaceNoise(nodes, p, q, block, r, f), avail + added)
  {
    var nodes' := ReplaceNoise(nodes, p, q, block, r, f);
    if WellFormed(nodes', avail + added) {
      assert r in Outs(nodes[p]);
      UnreadBefore(nodes, avail, p, r);
      OtherUseRemains(nodes, p, q, block, r, f);
      RemovedOutput(nodes, avail, p, q, block, r, f);
      var j :| 0 <= j < |nodes'| && r in Reads(nodes'[j]);
      ReadsEvaluated(nodes', avail + added, j);
      assert false;
    }
  }

  /** Where node i stands after the rewrite. */
  ghost function Moved(nodes: seq<Node>, p: nat, q: nat, block: seq<Node>, r: Name, f: Name, i: nat): (j: nat)
    requires p < q < |nodes| && r in nodes[q].inputs && i < |nodes| && i != p
    ensures j < |ReplaceNoise(nodes, p, q, block, r, f)|
    ensures ReplaceNoise(nodes, p, q, block, r, f)[j] == if i == q then Redirected(nodes[q], r, f) else nodes[i]
  {
    ReplaceNoiseForm(nodes, p, q, block, r, f);
    if i < p then i else if i < q then i - 1 else i - 1 + |block|
  }

  lemma OtherUseRemains(nodes: seq<Node>, p: nat, q: nat, block: seq<Node>, r: Name, f: Name)
    requires p < q < |nodes| && q == LastReader(nodes, r) && !SingleUse(nodes, r)
    requires r != ABSENT && r !in Reads(nodes[p])
    ensures var nodes' := ReplaceNoise(nodes, p, q, block, r, f);
      exists j :: 0 <= j < |nodes'| && r in Reads(nodes'[j])
  {
    var i, k :| 0 <= i < |nodes| && 0 <= k < |nodes[i].inputs| && nodes[i].inputs[k] == r
                && !(i == q && k == FirstUse(nodes[i].inputs, r));
    assert r in Reads(nodes[i]);
    var j := Moved(nodes, p, q, block, r, f, i);
    assert ReplaceNoise(nodes, p, q, block, r, f)[j].inputs[k] == r;
    assert r in Reads(ReplaceNoise(nodes, p, q, block, r, f)[j]);
  }

  lemma RemovedOutput(nodes: seq<Node>, avail: set<Name>, p: nat, q: nat, block: seq<Node>, r: Name, f: Name)
    requires WellFormed(nodes, avail) && p < q < |nodes| && r in Outs(nodes[p]) && r in nodes[q].inputs
    requires r !in AllOuts(block)
    ensures r !in avail + AllOuts(ReplaceNoise(nodes, p, q, block, r, f))
  {
    ReplaceNoiseForm(nodes, p, q, block, r, f);
    var a, b, c := nodes[..p], nodes[p + 1..q], nodes[q..];
    var c' := [Redirected(nodes[q], r, f)] + nodes[q + 1..];
    SplitAround(nodes, avail, p, q);
    assert Outs(nodes[p]) !! avail + AllOuts(a);
    DisjointFromOuts(b, avail + AllOuts(a) + Outs(nodes[p]));
    DisjointFromOuts(c, avail + AllOuts(a) + Outs(nodes[p]) + AllOuts(b));
    SameOuts(c, c');
    AllOutsConcat(a + b + block, c');
    AllOutsConcat(a + b, block);
    AllOutsConcat(a, b);
  }

  lemma SameOuts(a: seq<Node>, b: seq<Node>)
    requires |a| == |b| && forall i :: 0 <= i < |a| ==> a[i].outputs == b[i].outputs
    ensures AllOuts(a) == AllOuts(b)
  {
    assert forall i :: 0 <= i < |a| ==> Outs(a[i]) == Outs(b[i]);
  }
}
