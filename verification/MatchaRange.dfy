/**
  scripts/surgery_matcha_acoustic.py, fix_range_nodes: each named Range(0, N, 1) becomes a
  slice [0:N] of a constant that holds 0 .. max - 1.
*/
module MatchaRange {
  import opened Graphs
  import opened Onnx
  import opened OnnxModels
  import opened Rewriting
  import opened Tensors
  import opened Wrappers

  /** Node and tensor names generated for one Range node. */
  datatype Names = Names(
    castName: Name, castOut: Name, unsqName: Name, unsqOut: Name,
    sliceName: Name, sliceOut: Name, backName: Name, backOut: Name,
    table: Name, starts: Name, axes: Name, steps: Name, unsqAxes: Name)

  function Generated(nm: Names): seq<Name> {
    [nm.castOut, nm.unsqOut, nm.sliceOut, nm.backOut, nm.table, nm.starts, nm.axes, nm.steps, nm.unsqAxes]
  }

  predicate Distinct(nm: Names) {
    var g := Generated(nm);
    ABSENT !in g && forall i, j :: 0 <= i < j < |g| ==> g[i] != g[j]
  }

  // The rewrite of one Range node

  function FinalOut(nm: Names, isFloat: bool): Name {
    if isFloat then nm.backOut else nm.sliceOut
  }

  function SliceNode(nm: Names): Node {
    Node(nm.sliceName, Slice, [nm.table, nm.starts, nm.unsqOut, nm.axes, nm.steps], [nm.sliceOut])
  }

  function UnsqueezeNode(nm: Names, end: Name): Node {
    Node(nm.unsqName, Unsqueeze, [end, nm.unsqAxes], [nm.unsqOut])
  }

  function RangeBlock(nm: Names, limit: Name, isFloat: bool): seq<Node> {
    if isFloat then
      [Node(nm.castName, CastInt64, [limit], [nm.castOut]), UnsqueezeNode(nm, nm.castOut), SliceNode(nm),
       Node(nm.backName, CastFloat, [nm.sliceOut], [nm.backOut])]
    else
      [UnsqueezeNode(nm, limit), SliceNode(nm)]
  }

  function RangeInits(nm: Names, max: nat): Env {
    map[nm.table := IntVec(Iota(max)), nm.starts := IntVec([0]), nm.axes := IntVec([0]),
        nm.steps := IntVec([1]), nm.unsqAxes := IntVec([0])]
  }

  function FirstReader(nodes: seq<Node>, x: Name): (k: nat)
    ensures k <= |nodes| && (k < |nodes| ==> x in nodes[k].inputs)
    ensures forall i :: 0 <= i < k ==> x !in nodes[i].inputs
  {
    if nodes == [] || x in nodes[0].inputs then 0 else 1 + FirstReader(nodes[1..], x)
  }

  /** Redirect the readers of `r`, insert the block before the first of them, remove node `p`. */
  function ReplaceRange(nodes: seq<Node>, p: nat, block: seq<Node>, r: Name, f: Name): seq<Node>
    requires p < |nodes|
  {
    var renamed := Rename(nodes, r, f);
    var pos := FirstReader(renamed, f);
    var inserted := renamed[..pos] + block + renamed[pos..];
    var q := if p < pos then p else p + |block|;
    inserted[..q] + inserted[q + 1..]
  }

  function FindByName(nodes: seq<Node>, name: Name): (k: nat)
    ensures k <= |nodes| && (k < |nodes| ==> nodes[k].name == name)
  {
    if nodes == [] || nodes[0].name == name then 0 else 1 + FindByName(nodes[1..], name)
  }

  function FindProducer(nodes: seq<Node>, x: Name): (k: nat)
    ensures k <= |nodes| && (k < |nodes| ==> x in nodes[k].outputs)
  {
    if nodes == [] || x in nodes[0].outputs then 0 else 1 + FindProducer(nodes[1..], x)
  }

  /** The script's test for a float limit: produced by a cast to float, or a float graph input. */
  predicate LimitIsFloat(nodes: seq<Node>, inputs: seq<Input>, limit: Name) {
    var k := FindProducer(nodes, limit);
    (k < |nodes| && nodes[k].op == CastFloat) || Input(limit, FloatType) in inputs
  }

  /** One entry of the script's table: a node name, the table size, and the names generated from the node name. */
  datatype Config = Config(name: Name, max: nat, names: Names)

  datatype State = State(nodes: seq<Node>, inits: Env)

  datatype RangeError = MissingOperand

  /** What the edits so far left in the model, and the error that stopped them, if any. */
  datatype Outcome = Outcome(state: State, error: Option<RangeError>)

  /** One configured replacement; a missing node is skipped, a node without limit or output raises. */
  function AfterRange(s: State, inputs: seq<Input>, cfg: Config): Outcome {
    var p := FindByName(s.nodes, cfg.name);
    if p == |s.nodes| then Outcome(s, None)
    else if |s.nodes[p].inputs| < 2 || |s.nodes[p].outputs| < 1 then Outcome(s, Some(MissingOperand))
    else Outcome(ReplaceAt(s, inputs, p, cfg), None)
  }

  function ReplaceAt(s: State, inputs: seq<Input>, p: nat, cfg: Config): State
    requires p < |s.nodes| && |s.nodes[p].inputs| >= 2 && |s.nodes[p].outputs| >= 1
  {
    var limit, r := s.nodes[p].inputs[1], s.nodes[p].outputs[0];
    var isFloat := LimitIsFloat(s.nodes, inputs, limit);
    State(ReplaceRange(s.nodes, p, RangeBlock(cfg.names, limit, isFloat), r, FinalOut(cfg.names, isFloat)),
          s.inits + RangeInits(cfg.names, cfg.max))
  }

  function AfterRanges(s: State, inputs: seq<Input>, cfgs: seq<Config>): Outcome
    decreases |cfgs|
  {
    if cfgs == [] then Outcome(s, None)
    else
      var o := AfterRange(s, inputs, cfgs[0]);
      if o.error.Some? then o else AfterRanges(o.state, inputs, cfgs[1..])
  }

  method RedirectReaders(model: Model, r: Name, f: Name)
    modifies model`nodes
    ensures model.nodes == Rename(old(model.nodes), r, f)
  {
    ghost var nodes := model.nodes;
    for k := 0 to |model.nodes|
      invariant |model.nodes| == |nodes|
      invariant forall i :: 0 <= i < |nodes| ==> model.nodes[i] == if i < k then Rename(nodes, r, f)[i] else nodes[i]
    {
      var n := model.nodes[k];
      model.nodes := model.nodes[k := n.(inputs := RenameInputs(n.inputs, r, f))];
    }
  }

  method InsertPosition(nodes: seq<Node>, f: Name) returns (pos: nat)
    ensures pos == FirstReader(nodes, f)
  {
    pos := |nodes|;
    for k := 0 to |nodes|
      invariant pos == if FirstReader(nodes, f) < k then FirstReader(nodes, f) else |nodes|
    {
      if f in nodes[k].inputs {
        pos := if k < pos then k else pos;
      }
    }
  }

  method ReplaceRangeNode(model: Model, p: nat, cfg: Config)
    requires p < |model.nodes| && |model.nodes[p].inputs| >= 2 && |model.nodes[p].outputs| >= 1
    modifies model`nodes, model`inits
    ensures State(model.nodes, model.inits)
            == ReplaceAt(State(old(model.nodes), old(model.inits)), model.inputs, p, cfg)
  {
    ghost var nodes := model.nodes;
    var rn, nm := model.nodes[p], cfg.names;
    var isFloat := LimitIsFloat(model.nodes, model.inputs, rn.inputs[1]);
    var block, f := RangeBlock(nm, rn.inputs[1], isFloat), FinalOut(nm, isFloat);
    model.inits := model.inits + RangeInits(nm, cfg.max);
    RedirectReaders(model, rn.outputs[0], f);
    var pos := InsertPosition(model.nodes, f);
    model.nodes := model.nodes[..pos] + block + model.nodes[pos..];
    var q := if p < pos then p else p + |block|;
    model.nodes := model.nodes[..q] + model.nodes[q + 1..];
    assert model.nodes == ReplaceRange(nodes, p, block, rn.outputs[0], f);
  }

  method FixRangeNodes(model: Model, cfgs: seq<Config>) returns (error: Option<RangeError>)
    modifies model`nodes, model`inits
    ensures Outcome(State(model.nodes, model.inits), error)
            == AfterRanges(State(old(model.nodes), old(model.inits)), model.inputs, cfgs)
  {
    ghost var goal := AfterRanges(State(model.nodes, model.inits), model.inputs, cfgs);
    for k := 0 to |cfgs|
      invariant AfterRanges(State(model.nodes, model.inits), model.inputs, cfgs[k..]) == goal
    {
      var cfg := cfgs[k];
      assert cfgs[k..][1..] == cfgs[k + 1..];
      var p := FindByName(model.nodes, cfg.name);
      if p == |model.nodes| {
        continue;
      }
      if |model.nodes[p].inputs| < 2 || |model.nodes[p].outputs| < 1 {
        return Some(MissingOperand);
      }
      ReplaceRangeNode(model, p, cfg);
    }
    return None;
  }

  // Range(0, N, 1) against the slice of the table

  /** The slice of the table that the new nodes compute for an integer end. */
  function TableSlice(max: nat, end: int): Tensor<int> {
    var t: Tensor<int> := Tensor([max], Iota(max));
    assert t.Valid() by { Product1(t.dims); }
    Block(t, [end])
  }

  lemma TableSliceIs(max: nat, end: int)
    ensures TableSlice(max, end) == Tensor([SliceEnd(end, max)], Iota(SliceEnd(end, max)))
  {
    var t: Tensor<int> := Tensor([max], Iota(max));
    var e := SliceEnd(end, max);
    Product1([max]);
    Product1([e]);
    assert BlockDims(t.dims, [end]) == [e];
    var b := Block(t, [end]);
    forall k | 0 <= k < e ensures b.data[k] == k {
      Unflatten1(e, k);
      Unflatten1(max, k);
      assert At(t, [k]) == t.data[k];
    }
    assert b.data == Iota(e);
  }

  lemma Unflatten1(d: nat, k: nat)
    requires k < d
    ensures Product([d]) == d && Unflatten([d], k) == [k] && Flatten([d], [k]) == k
  {
  }

  /**
    For an integer limit the slice is the range exactly when the limit fits the table, or cuts it all off from
    the back.
  */
  lemma IntegerRangeIsSlice(max: nat, limit: int)
    ensures Ints(TableSlice(max, limit)) == IntVec(Iota(AtLeast0(limit))) <==> 0 <= limit <= max || limit + max <= 0
  {
    TableSliceIs(max, limit);
    assert |Iota(SliceEnd(limit, max))| == SliceEnd(limit, max);
    assert |Iota(AtLeast0(limit))| == AtLeast0(limit);
  }

  /** For a float limit: exactly when it is an integer that fits, or rounds to zero elements on both sides. */
  lemma FloatRangeIsSlice(max: nat, limit: real)
    ensures ToFloats(TableSlice(max, Trunc(limit)))
            == ToFloats(Tensor([AtLeast0(Ceil(limit))], Iota(AtLeast0(Ceil(limit)))))
            <==> (limit == limit.Floor as real && 0.0 <= limit <= max as real)
                 || -1.0 < limit <= 0.0 || (limit <= 0.0 && Trunc(limit) + max <= 0)
  {
    var n := AtLeast0(Ceil(limit));
    var e := SliceEnd(Trunc(limit), max);
    TableSliceIs(max, Trunc(limit));
    assert |ToFloats(TableSlice(max, Trunc(limit))).data| == e && |ToFloats(Tensor([n], Iota(n))).data| == n;
    if limit > 0.0 {
      assert limit != limit.Floor as real ==> Ceil(limit) == limit.Floor + 1;
      assert limit == limit.Floor as real ==> Ceil(limit) == limit.Floor;
    } else {
      assert n == 0;
    }
  }

  // One replacement keeps the list well-formed and all other values

  ghost predicate IntLimitFits(v: Value, max: nat) {
    exists limit: int :: v == IntScalar(limit) && (0 <= limit <= max || limit + max <= 0)
  }

  ghost predicate FloatLimitFits(v: Value, max: nat) {
    exists limit :: v == FloatScalar(limit)
      && ((limit == limit.Floor as real && 0.0 <= limit <= max as real)
          || -1.0 < limit <= 0.0 || (limit <= 0.0 && Trunc(limit) + max <= 0))
  }

  /** A Range from 0 in steps of 1 whose limit has the type the script detects and fits the table. */
  ghost predicate RangeFits(e: Env, n: Node, isFloat: bool, max: nat) {
    && n.op == Range && |n.inputs| == 3 && n.inputs[0] != ABSENT && n.inputs[1] != ABSENT && n.inputs[2] != ABSENT
    && |n.outputs| == 1 && n.outputs[0] != ABSENT
    && n.inputs[0] in e && n.inputs[1] in e && n.inputs[2] in e
    && e[n.inputs[0]] == (if isFloat then FloatScalar(0.0) else IntScalar(0))
    && e[n.inputs[2]] == (if isFloat then FloatScalar(1.0) else IntScalar(1))
    && if isFloat then FloatLimitFits(e[n.inputs[1]], max) else IntLimitFits(e[n.inputs[1]], max)
  }

  lemma BlockWellFormed(nm: Names, limit: Name, isFloat: bool, avail: set<Name>)
    requires Distinct(nm) && limit != ABSENT && limit in avail
    requires forall x :: x in RangeInits(nm, 0) ==> x in avail
    requires nm.castOut !in avail && nm.unsqOut !in avail && nm.sliceOut !in avail && nm.backOut !in avail
    ensures WellFormed(RangeBlock(nm, limit, isFloat), avail)
    ensures FinalOut(nm, isFloat) in AllOuts(RangeBlock(nm, limit, isFloat))
    ensures AllOuts(RangeBlock(nm, limit, isFloat)) <= {nm.castOut, nm.unsqOut, nm.sliceOut, nm.backOut}
  {
    var b := RangeBlock(nm, limit, isFloat);
    var g := Generated(nm);
    assert g[0] == nm.castOut && g[1] == nm.unsqOut && g[2] == nm.sliceOut && g[3] == nm.backOut;
    if isFloat {
      OutsOne(b[0]);
      OutsOne(b[1]);
      OutsOne(b[2]);
      OutsOne(b[3]);
      ChainOf4(b, avail);
    } else {
      OutsOne(b[0]);
      OutsOne(b[1]);
      ChainOf2(b, avail);
    }
  }

  lemma ChainOf4(b: seq<Node>, avail: set<Name>)
    requires |b| == 4 && NodeOk(b[0], avail) && NodeOk(b[1], avail + Outs(b[0]))
    requires NodeOk(b[2], avail + Outs(b[0]) + Outs(b[1])) && NodeOk(b[3], avail + Outs(b[0]) + Outs(b[1]) + Outs(b[2]))
    ensures WellFormed(b, avail) && AllOuts(b) == Outs(b[0]) + Outs(b[1]) + Outs(b[2]) + Outs(b[3])
  {
    var avail' := avail + Outs(b[0]) + Outs(b[1]);
    ChainOf2(b[..2], avail);
    ChainOf2(b[2..], avail');
    assert b == b[..2] + b[2..];
    assert avail + AllOuts(b[..2]) == avail';
    WellFormedConcat(b[..2], b[2..], avail);
    AllOutsConcat(b[..2], b[2..]);
  }

  /** The values of the inserted tensors, given the limit. */
  function BlockValues(nm: Names, limit: Value, isFloat: bool, max: nat): Env {
    if isFloat then
      if limit.Floats? && |limit.floats.data| == 1 then
        var n := Trunc(limit.floats.data[0]);
        map[nm.castOut := IntScalar(n), nm.unsqOut := IntVec([n]), nm.sliceOut := Ints(TableSlice(max, n)),
            nm.backOut := Floats(ToFloats(TableSlice(max, n)))]
      else map[]
    else
      if limit.Ints? && |limit.ints.data| == 1 then
        var n := limit.ints.data[0];
        map[nm.unsqOut := IntVec([n]), nm.sliceOut := Ints(TableSlice(max, n))]
      else map[]
  }

  lemma SliceTable(m: Interp, max: nat, n: int)
    ensures Sem(m, Slice, [Some(IntVec(Iota(max))), Some(IntVec([0])), Some(IntVec([n])), Some(IntVec([0])),
                           Some(IntVec([1]))], 0)
            == Ints(TableSlice(max, n))
  {
    Product1([1]);
    Product1([max]);
    assert Const(1, 0) == [0] && Iota(1) == [0] && Const(1, 1) == [1];
  }

  lemma RangeValue(m: Interp, e: Env, n: Node, isFloat: bool, max: nat, nm: Names)
    requires Distinct(nm) && RangeFits(e, n, isFloat, max)
    ensures FinalOut(nm, isFloat) in BlockValues(nm, e[n.inputs[1]], isFloat, max)
    ensures Sem(m, Range, Args(n, e), 0) == BlockValues(nm, e[n.inputs[1]], isFloat, max)[FinalOut(nm, isFloat)]
  {
    var g := Generated(nm);
    assert g[0] == nm.castOut && g[1] == nm.unsqOut && g[2] == nm.sliceOut && g[3] == nm.backOut;
    var v := e[n.inputs[1]];
    assert Args(n, e) == [Some(e[n.inputs[0]]), Some(v), Some(e[n.inputs[2]])];
    assert Product([]) == 1;
    if isFloat {
      var limit :| v == FloatScalar(limit)
        && ((limit == limit.Floor as real && 0.0 <= limit <= max as real)
            || -1.0 < limit <= 0.0 || (limit <= 0.0 && Trunc(limit) + max <= 0));
      FloatRangeIsSlice(max, limit);
    } else {
      var limit: int :| v == IntScalar(limit) && (0 <= limit <= max || limit + max <= 0);
      IntegerRangeIsSlice(max, limit);
    }
  }

  lemma InitsAre(nm: Names, max: nat)
    requires Distinct(nm)
    ensures var i := RangeInits(nm, max);
      && i[nm.table] == IntVec(Iota(max)) && i[nm.starts] == IntVec([0]) && i[nm.axes] == IntVec([0])
      && i[nm.steps] == IntVec([1]) && i[nm.unsqAxes] == IntVec([0])
    ensures nm.table != ABSENT && nm.starts != ABSENT && nm.axes != ABSENT && nm.steps != ABSENT
            && nm.unsqAxes != ABSENT
    ensures nm.castOut != ABSENT && nm.unsqOut != ABSENT && nm.sliceOut != ABSENT && nm.backOut != ABSENT
  {
    var g := Generated(nm);
    assert g[0] == nm.castOut && g[1] == nm.unsqOut && g[2] == nm.sliceOut && g[3] == nm.backOut;
    assert g[4] == nm.table && g[5] == nm.starts && g[6] == nm.axes && g[7] == nm.steps && g[8] == nm.unsqAxes;
  }

  lemma UnsqueezeSolves(m: Interp, nm: Names, src: Name, n: int, e: Env)
    requires src != ABSENT && src in e && e[src] == IntScalar(n)
    requires nm.unsqAxes != ABSENT && nm.unsqAxes in e && e[nm.unsqAxes] == IntVec([0])
    requires nm.unsqOut != ABSENT && nm.unsqOut in e && e[nm.unsqOut] == IntVec([n])
    ensures Solves(m, UnsqueezeNode(nm, src), e)
  {
  }

  lemma SliceSolves(m: Interp, nm: Names, max: nat, n: int, e: Env)
    requires Distinct(nm) && SubMap(RangeInits(nm, max), e)
    requires nm.unsqOut in e && e[nm.unsqOut] == IntVec([n])
    requires nm.sliceOut in e && e[nm.sliceOut] == Ints(TableSlice(max, n))
    ensures Solves(m, SliceNode(nm), e)
  {
    InitsAre(nm, max);
    var node, inits := SliceNode(nm), RangeInits(nm, max);
    assert nm.table in inits && nm.starts in inits && nm.axes in inits && nm.steps in inits;
    assert Args(node, e) == [Some(IntVec(Iota(max))), Some(IntVec([0])), Some(IntVec([n])), Some(IntVec([0])),
                             Some(IntVec([1]))];
    SliceTable(m, max, n);
    SolvesOne(m, node, e, Ints(TableSlice(max, n)));
  }

  lemma CastsSolve(m: Interp, nm: Names, limit: Name, max: nat, e: Env)
    requires Distinct(nm) && limit != ABSENT && limit in e && FloatLimitFits(e[limit], max)
    requires SubMap(BlockValues(nm, e[limit], true, max), e)
    ensures var b := RangeBlock(nm, limit, true); Solves(m, b[0], e) && Solves(m, b[3], e)
    ensures var n := Trunc(e[limit].floats.data[0]);
      && nm.castOut in e && e[nm.castOut] == IntScalar(n) && nm.unsqOut in e && e[nm.unsqOut] == IntVec([n])
      && nm.sliceOut in e && e[nm.sliceOut] == Ints(TableSlice(max, n))
  {
    var b := RangeBlock(nm, limit, true);
    var n := Trunc(e[limit].floats.data[0]);
    InitsAre(nm, max);
    var values := BlockValues(nm, e[limit], true, max);
    ValuesAre(nm, e[limit], true, max);
    assert Args(b[0], e) == [Some(e[limit])];
    assert ToInts(e[limit].floats) == Tensor([], [n]);
    SolvesOne(m, b[0], e, IntScalar(n));
    assert Args(b[3], e) == [Some(Ints(TableSlice(max, n)))];
    SolvesOne(m, b[3], e, Floats(ToFloats(TableSlice(max, n))));
  }

  lemma ValuesAre(nm: Names, limit: Value, isFloat: bool, max: nat)
    requires Distinct(nm)
    requires if isFloat then FloatLimitFits(limit, max) else IntLimitFits(limit, max)
    ensures var values := BlockValues(nm, limit, isFloat, max);
      var n := if isFloat then Trunc(limit.floats.data[0]) else limit.ints.data[0];
      && nm.unsqOut in values && values[nm.unsqOut] == IntVec([n])
      && nm.sliceOut in values && values[nm.sliceOut] == Ints(TableSlice(max, n))
      && (isFloat ==> nm.castOut in values && values[nm.castOut] == IntScalar(n)
                      && nm.backOut in values && values[nm.backOut] == Floats(ToFloats(TableSlice(max, n))))
  {
    var g := Generated(nm);
    assert g[0] == nm.castOut && g[1] == nm.unsqOut && g[2] == nm.sliceOut && g[3] == nm.backOut;
  }

  lemma BlockSolves(m: Interp, nm: Names, limit: Name, isFloat: bool, max: nat, e: Env)
    requires Distinct(nm) && limit != ABSENT && limit in e
    requires if isFloat then FloatLimitFits(e[limit], max) else IntLimitFits(e[limit], max)
    requires SubMap(RangeInits(nm, max), e) && SubMap(BlockValues(nm, e[limit], isFloat, max), e)
    ensures forall n :: n in RangeBlock(nm, limit, isFloat) ==> Solves(m, n, e)
  {
    var n := if isFloat then Trunc(e[limit].floats.data[0]) else e[limit].ints.data[0];
    InitsAre(nm, max);
    ValuesAre(nm, e[limit], isFloat, max);
    assert nm.unsqAxes in RangeInits(nm, max);
    if isFloat {
      CastsSolve(m, nm, limit, max, e);
      UnsqueezeSolves(m, nm, nm.castOut, n, e);
    } else {
      UnsqueezeSolves(m, nm, limit, n, e);
    }
    SliceSolves(m, nm, max, n, e);
  }

  // The whole replacement

  lemma ReadersRename(nodes: seq<Node>, r: Name, f: Name)
    requires forall n :: n in nodes ==> f !in n.inputs
    ensures FirstReader(Rename(nodes, r, f), f) == FirstReader(nodes, r)
  {
    var renamed := Rename(nodes, r, f);
    forall i | 0 <= i < |nodes| ensures f in renamed[i].inputs <==> r in nodes[i].inputs {
      assert nodes[i] in nodes;
      if r in nodes[i].inputs {
        var j :| 0 <= j < |nodes[i].inputs| && nodes[i].inputs[j] == r;
        assert renamed[i].inputs[j] == f;
      }
      if f in renamed[i].inputs {
        var j :| 0 <= j < |renamed[i].inputs| && renamed[i].inputs[j] == f;
        assert nodes[i].inputs[j] in nodes[i].inputs;
      }
    }
    SameFirstReader(renamed, f, nodes, r);
  }

  lemma {:induction false} SameFirstReader(a: seq<Node>, f: Name, b: seq<Node>, r: Name)
    requires |a| == |b| && forall i :: 0 <= i < |a| ==> (f in a[i].inputs <==> r in b[i].inputs)
    ensures FirstReader(a, f) == FirstReader(b, r)
  {
  }

  lemma FirstReaderAfter(nodes: seq<Node>, avail: set<Name>, p: nat, r: Name)
    requires WellFormed(nodes, avail) && p < |nodes| && r in Outs(nodes[p])
    ensures p < FirstReader(nodes, r)
    ensures r !in AllReads(nodes[p + 1..FirstReader(nodes, r)])
  {
    UnreadBefore(nodes, avail, p, r);
    var a := nodes[..p];
    forall i | 0 <= i <= p ensures r !in nodes[i].inputs {
      assert r in nodes[i].inputs ==> r in Reads(nodes[i]);
      assert i < p ==> a[i] == nodes[i];
    }
  }

  /** In a well-formed list with fresh names, the edits amount to moving the production of `r` before its readers. */
  lemma ReplaceRangeIs(nodes: seq<Node>, avail: set<Name>, p: nat, block: seq<Node>, r: Name, f: Name)
    requires WellFormed(nodes, avail) && p < |nodes| && r in Outs(nodes[p])
    requires f != ABSENT && f !in avail + AllOuts(nodes)
    ensures p < FirstReader(nodes, r)
    ensures ReplaceRange(nodes, p, block, r, f) == Replaced(nodes, p, FirstReader(nodes, r), block, r, f)
  {
    forall n | n in nodes ensures f !in n.inputs {
      var i :| 0 <= i < |nodes| && nodes[i] == n;
      ReadsEvaluated(nodes, avail, i);
      assert f in n.inputs ==> f in Reads(n);
    }
    ReadersRename(nodes, r, f);
    FirstReaderAfter(nodes, avail, p, r);
    var pos := FirstReader(nodes, r);
    RenamedPrefix(nodes, r, f, pos);
    TakeOut(nodes[..pos], p, block, Rename(nodes, r, f)[pos..]);
  }

  /** Before the first reader renaming changes nothing, and renaming commutes with cutting the list. */
  lemma RenamedPrefix(nodes: seq<Node>, r: Name, f: Name, pos: nat)
    requires pos <= |nodes| && forall i :: 0 <= i < pos ==> r !in nodes[i].inputs
    ensures Rename(nodes, r, f)[..pos] == nodes[..pos]
    ensures Rename(nodes, r, f)[pos..] == Rename(nodes[pos..], r, f)
  {
    var renamed := Rename(nodes, r, f);
    forall i | 0 <= i < pos ensures renamed[i] == nodes[i] {
      assert RenameInputs(nodes[i].inputs, r, f) == nodes[i].inputs;
    }
  }

  /** Taking node p out of the first of three parts. */
  lemma TakeOut(a: seq<Node>, p: nat, block: seq<Node>, c: seq<Node>)
    requires p < |a|
    ensures var inserted := a + block + c;
      inserted[..p] + inserted[p + 1..] == a[..p] + a[p + 1..] + block + c
  {
  }

  /** Any block that computes the replaced value may take over, if its names are fresh. */
  lemma BlockTakesOver(m: Interp, nodes: seq<Node>, env: Env, p: nat, block: seq<Node>, r: Name, f: Name, inits: Env,
                       e': Env)
    requires WellFormed(nodes, env.Keys) && p < |nodes| && r != ABSENT && f != ABSENT && Outs(nodes[p]) == {r}
    requires inits.Keys + AllOuts(block) !! env.Keys + AllOuts(nodes) && f in AllOuts(block)
    requires WellFormed(block, Reads(nodes[p]) + inits.Keys)
    requires Extends(m, nodes, env, r, f, block, e') && SubMap(env + inits, e')
    ensures var e, e2 := Eval(m, nodes, env), Eval(m, ReplaceRange(nodes, p, block, r, f), env + inits);
      && WellFormed(ReplaceRange(nodes, p, block, r, f), (env + inits).Keys)
      && forall x :: x in e && x != r ==> x in e2 && e2[x] == e[x]
  {
    assert r in Outs(nodes[p]);
    ReplaceRangeIs(nodes, env.Keys, p, block, r, f);
    FirstReaderAfter(nodes, env.Keys, p, r);
    assert (env + inits).Keys - env.Keys == inits.Keys;
    ReplacedPreserves(m, nodes, env, env + inits, p, FirstReader(nodes, r), block, r, f, e');
  }

  /** The generated names are unused. */
  predicate FreshNames(nm: Names, used: set<Name>) {
    Distinct(nm) && forall x :: x in Generated(nm) ==> x !in used
  }

  /**
    Replacing a fitting Range node keeps the list sorted and single-assignment, and keeps the
    value of every tensor but the Range output, whose value the final output takes over.
  */
  lemma RangePreserves(m: Interp, nodes: seq<Node>, env: Env, p: nat, nm: Names, isFloat: bool, max: nat)
    requires WellFormed(nodes, env.Keys) && p < |nodes|
    requires FreshNames(nm, env.Keys + AllOuts(nodes))
    requires RangeFits(Eval(m, nodes, env), nodes[p], isFloat, max)
    ensures
      var n := nodes[p];
      var nodes' := ReplaceRange(nodes, p, RangeBlock(nm, n.inputs[1], isFloat), n.outputs[0], FinalOut(nm, isFloat));
      var env' := env + RangeInits(nm, max);
      var e, e' := Eval(m, nodes, env), Eval(m, nodes', env');
      && WellFormed(nodes', env'.Keys)
      && forall x :: x in e && x != n.outputs[0] ==> x in e' && e'[x] == e[x]
  {
    var n := nodes[p];
    var r, f := n.outputs[0], FinalOut(nm, isFloat);
    var block := RangeBlock(nm, n.inputs[1], isFloat);
    var e := Eval(m, nodes, env);
    var e' := e + RangeInits(nm, max) + BlockValues(nm, e[n.inputs[1]], isFloat, max);
    RangeBlockFits(nodes, env.Keys, p, nm, isFloat, max);
    RangeExtends(m, nodes, env, p, nm, isFloat, max);
    BlockTakesOver(m, nodes, env, p, block, r, f, RangeInits(nm, max), e');
  }

  lemma RangeBlockFits(nodes: seq<Node>, avail: set<Name>, p: nat, nm: Names, isFloat: bool, max: nat)
    requires WellFormed(nodes, avail) && p < |nodes| && FreshNames(nm, avail + AllOuts(nodes))
    requires |nodes[p].inputs| == 3 && nodes[p].inputs[1] != ABSENT && |nodes[p].outputs| == 1
             && nodes[p].outputs[0] != ABSENT
    ensures
      var n, block, inits := nodes[p], RangeBlock(nm, nodes[p].inputs[1], isFloat), RangeInits(nm, max).Keys;
      && Outs(n) == {n.outputs[0]} && FinalOut(nm, isFloat) != ABSENT && FinalOut(nm, isFloat) in AllOuts(block)
      && inits + AllOuts(block) !! avail + AllOuts(nodes)
      && WellFormed(block, Reads(n) + inits)
  {
    var n := nodes[p];
    OutsOne(n);
    GeneratedAre(nm, isFloat, max, IntScalar(0));
    ReadsEvaluated(nodes, avail, p);
    assert n.inputs[1] in Reads(n);
    BlockWellFormed(nm, n.inputs[1], isFloat, Reads(n) + RangeInits(nm, max).Keys);
  }

  lemma RangeExtends(m: Interp, nodes: seq<Node>, env: Env, p: nat, nm: Names, isFloat: bool, max: nat)
    requires WellFormed(nodes, env.Keys) && p < |nodes|
    requires FreshNames(nm, env.Keys + AllOuts(nodes))
    requires RangeFits(Eval(m, nodes, env), nodes[p], isFloat, max)
    ensures
      var n, e := nodes[p], Eval(m, nodes, env);
      var e' := e + RangeInits(nm, max) + BlockValues(nm, e[n.inputs[1]], isFloat, max);
      && SubMap(env + RangeInits(nm, max), e')
      && Extends(m, nodes, env, n.outputs[0], FinalOut(nm, isFloat), RangeBlock(nm, n.inputs[1], isFloat), e')
  {
    var n, e := nodes[p], Eval(m, nodes, env);
    var limit := n.inputs[1];
    var values := BlockValues(nm, e[limit], isFloat, max);
    var e' := e + RangeInits(nm, max) + values;
    EvalSolves(m, nodes, env);
    GeneratedAre(nm, isFloat, max, e[limit]);
    RangeValue(m, e, n, isFloat, max, nm);
    assert n.outputs[0] in Outs(n) && Solves(m, n, e);
    assert e'[limit] == e[limit] && SubMap(e, e');
    BlockSolves(m, nm, limit, isFloat, max, e');
  }

  lemma GeneratedAre(nm: Names, isFloat: bool, max: nat, limit: Value)
    requires Distinct(nm)
    ensures forall x :: x in RangeInits(nm, max) || x in BlockValues(nm, limit, isFloat, max) ==> x in Generated(nm)
    ensures RangeInits(nm, max).Keys !! BlockValues(nm, limit, isFloat, max).Keys
    ensures FinalOut(nm, isFloat) in Generated(nm) && FinalOut(nm, isFloat) != ABSENT
    ensures {nm.castOut, nm.unsqOut, nm.sliceOut, nm.backOut} !! RangeInits(nm, max).Keys
    ensures forall x :: x in {nm.castOut, nm.unsqOut, nm.sliceOut, nm.backOut} ==> x in Generated(nm)
  {
    var g := Generated(nm);
    assert g[0] == nm.castOut && g[1] == nm.unsqOut && g[2] == nm.sliceOut && g[3] == nm.backOut;
    assert g[4] == nm.table && g[5] == nm.starts && g[6] == nm.axes && g[7] == nm.steps && g[8] == nm.unsqAxes;
  }
}
