/**
  scripts/surgery_matcha_acoustic.py, fix_range_nodes: the whole pass over the configured nodes.
  What each replacement needs of the graph it works on follows from the original graph.
*/
module MatchaRangePass {
  import opened Graphs
  import opened MatchaRange
  import opened Onnx
  import opened OnnxModels
  import opened Rewriting
  import opened Tensors
  import opened Wrappers

  // The first node with a property

  function First(nodes: seq<Node>, p: Node -> bool): Option<Node> {
    if nodes == [] then None else if p(nodes[0]) then Some(nodes[0]) else First(nodes[1..], p)
  }

  lemma {:induction false} FirstConcat(a: seq<Node>, b: seq<Node>, p: Node -> bool)
    ensures First(a + b, p) == if First(a, p).Some? then First(a, p) else First(b, p)
  {
    if a == [] {
      assert a + b == b;
    } else {
      assert (a + b)[1..] == a[1..] + b;
      FirstConcat(a[1..], b, p);
    }
  }

  lemma {:induction false} FirstNone(nodes: seq<Node>, p: Node -> bool)
    requires forall n :: n in nodes ==> !p(n)
    ensures First(nodes, p) == None
  {
    if nodes != [] { FirstNone(nodes[1..], p); }
  }

  function RenamedNode(n: Node, r: Name, f: Name): Node {
    n.(inputs := RenameInputs(n.inputs, r, f))
  }

  function RenamedFirst(o: Option<Node>, r: Name, f: Name): Option<Node> {
    if o.None? then None else Some(RenamedNode(o.value, r, f))
  }

  /** The property does not look at a node's inputs. */
  ghost predicate InputFree(p: Node -> bool) {
    forall n: Node, xs: seq<Name> :: p(n.(inputs := xs)) == p(n)
  }

  lemma {:induction false} FirstRename(nodes: seq<Node>, r: Name, f: Name, p: Node -> bool)
    requires InputFree(p)
    ensures First(Rename(nodes, r, f), p) == RenamedFirst(First(nodes, p), r, f)
  {
    if nodes != [] {
      var t := Rename(nodes, r, f);
      assert t[0] == nodes[0].(inputs := RenameInputs(nodes[0].inputs, r, f));
      assert t[1..] == Rename(nodes[1..], r, f);
      FirstRename(nodes[1..], r, f, p);
    }
  }

  lemma {:induction false} FirstByName(nodes: seq<Node>, name: Name, p: Node -> bool)
    requires forall n :: p(n) <==> n.name == name
    ensures var k := FindByName(nodes, name); First(nodes, p) == if k == |nodes| then None else Some(nodes[k])
  {
    if nodes != [] { FirstByName(nodes[1..], name, p); }
  }

  lemma {:induction false} FirstByOutput(nodes: seq<Node>, x: Name, p: Node -> bool)
    requires forall n :: p(n) <==> x in n.outputs
    ensures var k := FindProducer(nodes, x); First(nodes, p) == if k == |nodes| then None else Some(nodes[k])
  {
    if nodes != [] { FirstByOutput(nodes[1..], x, p); }
  }

  /** Taking out a node and putting in a block, neither of which has the property, leaves the first node that has it. */
  lemma FirstReplaced(nodes: seq<Node>, at: nat, pos: nat, block: seq<Node>, r: Name, f: Name, p: Node -> bool)
    requires at < pos <= |nodes| && InputFree(p) && !p(nodes[at]) && (forall n :: n in block ==> !p(n))
    requires r != ABSENT && r !in AllReads(nodes[..at]) && r !in AllReads(nodes[at + 1..pos])
    ensures First(Replaced(nodes, at, pos, block, r, f), p) == RenamedFirst(First(nodes, p), r, f)
  {
    var a, b, c := nodes[..at], nodes[at + 1..pos], nodes[pos..];
    assert First(nodes, p) == Or(First(a, p), Or(First(b, p), First(c, p))) by {
      FirstParts(a, nodes[at], b, c, p);
      CutInParts(nodes, at, pos);
    }
    assert First(a + b + block + Rename(c, r, f), p) == Or(First(a, p), Or(First(b, p), First(Rename(c, r, f), p))) by {
      FirstAround(a, b, block, Rename(c, r, f), p);
    }
    UnreadSame(a, r, f, p);
    UnreadSame(b, r, f, p);
    FirstRename(c, r, f, p);
  }

  lemma CutInParts<T>(s: seq<T>, at: nat, pos: nat)
    requires at < pos <= |s|
    ensures s == s[..at] + ([s[at]] + (s[at + 1..pos] + s[pos..]))
  {
    assert s[at + 1..] == s[at + 1..pos] + s[pos..];
  }

  function Or(a: Option<Node>, b: Option<Node>): Option<Node> {
    if a.Some? then a else b
  }

  lemma UnreadSame(nodes: seq<Node>, r: Name, f: Name, p: Node -> bool)
    requires InputFree(p) && r != ABSENT && r !in AllReads(nodes)
    ensures RenamedFirst(First(nodes, p), r, f) == First(nodes, p)
  {
    RenameUnread(nodes, r, f);
    FirstRename(nodes, r, f, p);
  }

  lemma FirstAround(a: seq<Node>, b: seq<Node>, block: seq<Node>, c: seq<Node>, p: Node -> bool)
    requires forall n :: n in block ==> !p(n)
    ensures First(a + b + block + c, p) == Or(First(a, p), Or(First(b, p), First(c, p)))
  {
    FirstNone(block, p);
    FirstConcat(a + b + block, c, p);
    FirstConcat(a + b, block, p);
    FirstConcat(a, b, p);
  }

  lemma FirstParts(a: seq<Node>, n: Node, b: seq<Node>, c: seq<Node>, p: Node -> bool)
    requires !p(n)
    ensures First(a + ([n] + (b + c)), p)
            == Or(First(a, p), Or(First(b, p), First(c, p)))
  {
    FirstConcat(a, [n] + (b + c), p);
    FirstConcat([n], b + c, p);
    FirstConcat(b, c, p);
    assert [n][1..] == [];
  }

  // One replacement seen from another configured node

  predicate Names4(cfg: Config, name: Name) {
    name != cfg.names.castName && name != cfg.names.unsqName && name != cfg.names.sliceName
        && name != cfg.names.backName
  }

  /** Node p of the state is a Range that fits, with unused generated names. */
  ghost predicate RangeFitsAt(m: Interp, s: State, feed: Env, inputs: seq<Input>, p: nat, cfg: Config) {
    && p < |s.nodes| && |s.nodes[p].inputs| == 3
    && RangeFits(Eval(m, s.nodes, s.inits + feed), s.nodes[p], LimitIsFloat(s.nodes, inputs, s.nodes[p].inputs[1]),
                 cfg.max)
    && FreshNames(cfg.names, (s.inits + feed).Keys + AllOuts(s.nodes))
  }

  lemma AddedBefore(a: Env, b: Env, c: Env)
    requires b.Keys !! c.Keys
    ensures (a + b) + c == a + c + b
  {
  }

  lemma RangeInitsGenerated(nm: Names, max: nat)
    ensures forall x :: x in RangeInits(nm, max) ==> x in Generated(nm)
  {
    var g := Generated(nm);
    assert g[4] == nm.table && g[5] == nm.starts && g[6] == nm.axes && g[7] == nm.steps && g[8] == nm.unsqAxes;
  }

  lemma RangeStep(m: Interp, s: State, feed: Env, inputs: seq<Input>, p: nat, cfg: Config)
    requires WellFormed(s.nodes, (s.inits + feed).Keys) && RangeFitsAt(m, s, feed, inputs, p, cfg)
    ensures var s1 := ReplaceAt(s, inputs, p, cfg);
      var e, e' := Eval(m, s.nodes, s.inits + feed), Eval(m, s1.nodes, s1.inits + feed);
      && s1.inits + feed == s.inits + feed + RangeInits(cfg.names, cfg.max)
      && WellFormed(s1.nodes, (s1.inits + feed).Keys)
      && forall x :: x in e && x != s.nodes[p].outputs[0] ==> x in e' && e'[x] == e[x]
  {
    RangeInitsGenerated(cfg.names, cfg.max);
    AddedBefore(s.inits, RangeInits(cfg.names, cfg.max), feed);
    RangePreserves(m, s.nodes, s.inits + feed, p, cfg.names, LimitIsFloat(s.nodes, inputs, s.nodes[p].inputs[1]),
                   cfg.max);
  }

  /** A Range output is a vector, so it is not one of the scalars another fitting Range reads. */
  lemma OutputNotScalar(m: Interp, e: Env, n: Node, isFloat: bool, max: nat, k: Node, isFloat': bool, max': nat)
    requires RangeFits(e, n, isFloat, max) && Solves(m, n, e) && RangeFits(e, k, isFloat', max')
    ensures n.outputs[0] !in k.inputs
  {
    assert n.outputs[0] in Outs(n);
    assert Args(n, e) == [Some(e[n.inputs[0]]), Some(e[n.inputs[1]]), Some(e[n.inputs[2]])];
    assert Product([]) == 1;
    assert e[n.outputs[0]] == Sem(m, Range, Args(n, e), 0);
    assert (e[n.outputs[0]].Ints? && |e[n.outputs[0]].ints.dims| == 1)
           || (e[n.outputs[0]].Floats? && |e[n.outputs[0]].floats.dims| == 1);
  }

  lemma RenameNotRead(xs: seq<Name>, r: Name, f: Name)
    requires r !in xs
    ensures RenameInputs(xs, r, f) == xs
  {
  }

  lemma BlockNames(cfg: Config, limit: Name, isFloat: bool, name: Name)
    requires Names4(cfg, name)
    ensures forall n :: n in RangeBlock(cfg.names, limit, isFloat) ==> n.name != name
  {
  }

  lemma BlockOutputs(cfg: Config, limit: Name, isFloat: bool, x: Name)
    requires x !in Generated(cfg.names)
    ensures forall n :: n in RangeBlock(cfg.names, limit, isFloat) ==> x !in n.outputs
  {
    var g := Generated(cfg.names);
    assert g[0] == cfg.names.castOut && g[1] == cfg.names.unsqOut && g[2] == cfg.names.sliceOut
           && g[3] == cfg.names.backOut;
  }

  /** What a replacement does to the search for a node by a property of its name or outputs. */
  lemma FirstAfter(m: Interp, s: State, feed: Env, inputs: seq<Input>, at: nat, cfg: Config, p: Node -> bool)
    requires WellFormed(s.nodes, (s.inits + feed).Keys) && RangeFitsAt(m, s, feed, inputs, at, cfg)
    requires InputFree(p) && !p(s.nodes[at])
    requires var isFloat := LimitIsFloat(s.nodes, inputs, s.nodes[at].inputs[1]);
      forall n :: n in RangeBlock(cfg.names, s.nodes[at].inputs[1], isFloat) ==> !p(n)
    ensures var isFloat := LimitIsFloat(s.nodes, inputs, s.nodes[at].inputs[1]);
      First(ReplaceAt(s, inputs, at, cfg).nodes, p)
      == RenamedFirst(First(s.nodes, p), s.nodes[at].outputs[0], FinalOut(cfg.names, isFloat))
  {
    var isFloat := LimitIsFloat(s.nodes, inputs, s.nodes[at].inputs[1]);
    var r, f := s.nodes[at].outputs[0], FinalOut(cfg.names, isFloat);
    var block := RangeBlock(cfg.names, s.nodes[at].inputs[1], isFloat);
    var avail := (s.inits + feed).Keys;
    OutsOne(s.nodes[at]);
    UnreadBefore(s.nodes, avail, at, r);
    FirstReaderAfter(s.nodes, avail, at, r);
    GeneratedAre(cfg.names, isFloat, cfg.max, IntScalar(0));
    ReplaceRangeIs(s.nodes, avail, at, block, r, f);
    FirstReplaced(s.nodes, at, FirstReader(s.nodes, r), block, r, f, p);
  }

  /** A configured node that another replacement does not concern is found again, unchanged. */
  lemma FoundAgain(m: Interp, s: State, feed: Env, inputs: seq<Input>, at: nat, cfg: Config, name: Name)
    requires WellFormed(s.nodes, (s.inits + feed).Keys) && RangeFitsAt(m, s, feed, inputs, at, cfg)
    requires name != s.nodes[at].name && Names4(cfg, name)
    requires var k := FindByName(s.nodes, name); k < |s.nodes| ==> s.nodes[at].outputs[0] !in s.nodes[k].inputs
    ensures var nodes' := ReplaceAt(s, inputs, at, cfg).nodes;
      var k, k' := FindByName(s.nodes, name), FindByName(nodes', name);
      (k == |s.nodes| <==> k' == |nodes'|) && (k < |s.nodes| ==> nodes'[k'] == s.nodes[k])
  {
    var p := (n: Node) => n.name == name;
    BlockNames(cfg, s.nodes[at].inputs[1], LimitIsFloat(s.nodes, inputs, s.nodes[at].inputs[1]), name);
    FirstAfter(m, s, feed, inputs, at, cfg, p);
    FirstByName(s.nodes, name, p);
    FirstByName(ReplaceAt(s, inputs, at, cfg).nodes, name, p);
    var k := FindByName(s.nodes, name);
    if k < |s.nodes| {
      RenameNotRead(s.nodes[k].inputs, s.nodes[at].outputs[0],
                    FinalOut(cfg.names, LimitIsFloat(s.nodes, inputs, s.nodes[at].inputs[1])));
    }
  }

  /** The script's float test gives the same answer after another replacement. */
  lemma SameFloatTest(m: Interp, s: State, feed: Env, inputs: seq<Input>, at: nat, cfg: Config, x: Name)
    requires WellFormed(s.nodes, (s.inits + feed).Keys) && RangeFitsAt(m, s, feed, inputs, at, cfg)
    requires x != s.nodes[at].outputs[0] && x !in Generated(cfg.names)
    ensures LimitIsFloat(ReplaceAt(s, inputs, at, cfg).nodes, inputs, x) == LimitIsFloat(s.nodes, inputs, x)
  {
    var p := (n: Node) => x in n.outputs;
    BlockOutputs(cfg, s.nodes[at].inputs[1], LimitIsFloat(s.nodes, inputs, s.nodes[at].inputs[1]), x);
    FirstAfter(m, s, feed, inputs, at, cfg, p);
    FirstByOutput(s.nodes, x, p);
    FirstByOutput(ReplaceAt(s, inputs, at, cfg).nodes, x, p);
  }

  // The whole pass

  /** The configured node that the state has, as its index; absent ones are skipped. */
  predicate Has(s: State, cfg: Config) {
    FindByName(s.nodes, cfg.name) < |s.nodes|
  }

  function ConfiguredNode(s: State, cfg: Config): Node
    requires Has(s, cfg)
  {
    s.nodes[FindByName(s.nodes, cfg.name)]
  }

  /** The state's configured node is a Range from 0 in steps of 1 whose limit fits the table. */
  ghost predicate Fits(m: Interp, s: State, feed: Env, inputs: seq<Input>, cfg: Config) {
    Has(s, cfg) ==>
      && |ConfiguredNode(s, cfg).inputs| == 3
      && RangeFits(Eval(m, s.nodes, s.inits + feed), ConfiguredNode(s, cfg),
                   LimitIsFloat(s.nodes, inputs, ConfiguredNode(s, cfg).inputs[1]), cfg.max)
  }

  /** Two entries of the table do not interfere: different nodes, and generated names that clash with neither. */
  predicate Apart(a: Config, b: Config) {
    && a.name != b.name && Names4(a, b.name) && Names4(b, a.name)
    && forall x :: x in Generated(a.names) ==> x !in Generated(b.names)
  }

  /** All the pass needs, in terms of the graph it is given. */
  ghost predicate Planned(m: Interp, s: State, feed: Env, inputs: seq<Input>, cfgs: seq<Config>) {
    && WellFormed(s.nodes, (s.inits + feed).Keys)
    && (forall i :: 0 <= i < |cfgs| ==> Fits(m, s, feed, inputs, cfgs[i]))
    && (forall i :: 0 <= i < |cfgs| ==> FreshNames(cfgs[i].names, (s.inits + feed).Keys + AllOuts(s.nodes)))
    && (forall i, j :: 0 <= i < j < |cfgs| ==> Apart(cfgs[i], cfgs[j]))
  }

  /** The outputs of the configured nodes. */
  function RangeOutputs(s: State, cfgs: seq<Config>): set<Name> {
    set i, x | 0 <= i < |cfgs| && Has(s, cfgs[i]) && x in ConfiguredNode(s, cfgs[i]).outputs :: x
  }

  /** Nothing new but generated names. */
  lemma NamesAdded(m: Interp, s: State, feed: Env, inputs: seq<Input>, at: nat, cfg: Config)
    requires WellFormed(s.nodes, (s.inits + feed).Keys) && RangeFitsAt(m, s, feed, inputs, at, cfg)
    ensures var s1 := ReplaceAt(s, inputs, at, cfg);
      forall x :: x in (s1.inits + feed).Keys + AllOuts(s1.nodes) ==>
        x in (s.inits + feed).Keys + AllOuts(s.nodes) || x in Generated(cfg.names)
  {
    var isFloat := LimitIsFloat(s.nodes, inputs, s.nodes[at].inputs[1]);
    var r, f, n := s.nodes[at].outputs[0], FinalOut(cfg.names, isFloat), s.nodes[at];
    var block := RangeBlock(cfg.names, n.inputs[1], isFloat);
    var avail := (s.inits + feed).Keys;
    OutsOne(n);
    FirstReaderAfter(s.nodes, avail, at, r);
    GeneratedAre(cfg.names, isFloat, cfg.max, IntScalar(0));
    ReplaceRangeIs(s.nodes, avail, at, block, r, f);
    RangeBlockFits(s.nodes, avail, at, cfg.names, isFloat, cfg.max);
    BlockOuts(n, cfg, isFloat);
    ReplacedOutsAre(s.nodes, avail, at, FirstReader(s.nodes, r), block, r, f);
    RangeInitsGenerated(cfg.names, cfg.max);
  }

  lemma BlockOuts(n: Node, cfg: Config, isFloat: bool)
    requires |n.inputs| == 3
    ensures forall x :: x in AllOuts(RangeBlock(cfg.names, n.inputs[1], isFloat)) ==> x in Generated(cfg.names)
  {
    var block := RangeBlock(cfg.names, n.inputs[1], isFloat);
    forall x | x in AllOuts(block) ensures x in Generated(cfg.names) {
      var i :| 0 <= i < |block| && x in Outs(block[i]);
      if x !in Generated(cfg.names) { BlockOutputs(cfg, n.inputs[1], isFloat, x); }
    }
  }

  lemma ReplacedOutsAre(nodes: seq<Node>, avail: set<Name>, at: nat, pos: nat, block: seq<Node>, r: Name, f: Name)
    requires WellFormed(nodes, avail) && at < pos <= |nodes|
    ensures AllOuts(Replaced(nodes, at, pos, block, r, f)) <= AllOuts(nodes) + AllOuts(block)
  {
    var a, b, c := nodes[..at], nodes[at + 1..pos], nodes[pos..];
    SplitAround(nodes, avail, at, pos);
    RenameAllOuts(c, r, f);
    AllOutsConcat(a + b + block, Rename(c, r, f));
    AllOutsConcat(a + b, block);
    AllOutsConcat(a, b);
  }

  /** Another configured node is found again, unchanged, and still fits. */
  lemma StillFits(m: Interp, s: State, feed: Env, inputs: seq<Input>, cfg: Config, other: Config)
    requires WellFormed(s.nodes, (s.inits + feed).Keys) && Has(s, cfg)
    requires RangeFitsAt(m, s, feed, inputs, FindByName(s.nodes, cfg.name), cfg)
    requires Fits(m, s, feed, inputs, other) && Apart(cfg, other)
    ensures var s1 := ReplaceAt(s, inputs, FindByName(s.nodes, cfg.name), cfg);
      SameNode(s, s1, other) && Fits(m, s1, feed, inputs, other)
  {
    var at := FindByName(s.nodes, cfg.name);
    var env := s.inits + feed;
    var e := Eval(m, s.nodes, env);
    EvalSolves(m, s.nodes, env);
    assert s.nodes[at] in s.nodes;
    if Has(s, other) {
      OutputNotScalar(m, e, s.nodes[at], LimitIsFloat(s.nodes, inputs, s.nodes[at].inputs[1]), cfg.max,
                      ConfiguredNode(s, other),
                      LimitIsFloat(s.nodes, inputs, ConfiguredNode(s, other).inputs[1]), other.max);
    }
    FoundAgain(m, s, feed, inputs, at, cfg, other.name);
    if Has(s, other) {
      var k := ConfiguredNode(s, other);
      assert k.inputs[1] in k.inputs && k.inputs[1] in e;
      SameFloatTest(m, s, feed, inputs, at, cfg, k.inputs[1]);
      RangeStep(m, s, feed, inputs, at, cfg);
      SameFit(e, Eval(m, ReplaceAt(s, inputs, at, cfg).nodes, ReplaceAt(s, inputs, at, cfg).inits + feed), k,
              LimitIsFloat(s.nodes, inputs, k.inputs[1]), other.max, s.nodes[at].outputs[0]);
    }
  }

  lemma SameFit(e: Env, e': Env, k: Node, isFloat: bool, max: nat, r: Name)
    requires RangeFits(e, k, isFloat, max) && r !in k.inputs
    requires forall x :: x in e && x != r ==> x in e' && e'[x] == e[x]
    ensures RangeFits(e', k, isFloat, max)
  {
    assert k.inputs[0] != r && k.inputs[1] != r && k.inputs[2] != r;
  }

  /** After the first replacement the rest of the table is planned for the new graph. */
  lemma PlanGoesOn(m: Interp, s: State, feed: Env, inputs: seq<Input>, cfgs: seq<Config>)
    requires cfgs != [] && Planned(m, s, feed, inputs, cfgs) && Has(s, cfgs[0])
    ensures RangeFitsAt(m, s, feed, inputs, FindByName(s.nodes, cfgs[0].name), cfgs[0])
    ensures var s1 := ReplaceAt(s, inputs, FindByName(s.nodes, cfgs[0].name), cfgs[0]);
      && Planned(m, s1, feed, inputs, cfgs[1..])
      && RangeOutputs(s, cfgs) == {ConfiguredNode(s, cfgs[0]).outputs[0]} + RangeOutputs(s1, cfgs[1..])
  {
    var at := FindByName(s.nodes, cfgs[0].name);
    assert Fits(m, s, feed, inputs, cfgs[0]);
    RangeStep(m, s, feed, inputs, at, cfgs[0]);
    NamesAdded(m, s, feed, inputs, at, cfgs[0]);
    var s1, rest := ReplaceAt(s, inputs, at, cfgs[0]), cfgs[1..];
    forall i | 0 <= i < |rest|
      ensures Fits(m, s1, feed, inputs, rest[i]) && SameNode(s, s1, rest[i])
      ensures FreshNames(rest[i].names, (s1.inits + feed).Keys + AllOuts(s1.nodes))
    {
      assert rest[i] == cfgs[i + 1] && Apart(cfgs[0], cfgs[i + 1]);
      StillFits(m, s, feed, inputs, cfgs[0], cfgs[i + 1]);
    }
    OutputsSplit(s, s1, cfgs);
  }

  predicate SameNode(s: State, s1: State, cfg: Config) {
    && (Has(s1, cfg) <==> Has(s, cfg))
    && (Has(s, cfg) ==> ConfiguredNode(s1, cfg) == ConfiguredNode(s, cfg))
  }

  lemma OutputsSplit(s: State, s1: State, cfgs: seq<Config>)
    requires cfgs != [] && Has(s, cfgs[0]) && |ConfiguredNode(s, cfgs[0]).outputs| == 1
    requires forall i :: 0 <= i < |cfgs[1..]| ==> SameNode(s, s1, cfgs[1..][i])
    ensures RangeOutputs(s, cfgs) == {ConfiguredNode(s, cfgs[0]).outputs[0]} + RangeOutputs(s1, cfgs[1..])
  {
    var rest, outs := cfgs[1..], ConfiguredNode(s, cfgs[0]).outputs;
    assert outs == [outs[0]] && outs[0] in outs;
    forall x | x in RangeOutputs(s, cfgs) ensures x == outs[0] || x in RangeOutputs(s1, rest) {
      var i :| 0 <= i < |cfgs| && Has(s, cfgs[i]) && x in ConfiguredNode(s, cfgs[i]).outputs;
      if i > 0 { assert rest[i - 1] == cfgs[i]; }
    }
    forall x | x in RangeOutputs(s1, rest) ensures x in RangeOutputs(s, cfgs) {
      var i :| 0 <= i < |rest| && Has(s1, rest[i]) && x in ConfiguredNode(s1, rest[i]).outputs;
      assert cfgs[i + 1] == rest[i];
    }
  }

  lemma PlanSkips(m: Interp, s: State, feed: Env, inputs: seq<Input>, cfgs: seq<Config>)
    requires cfgs != [] && Planned(m, s, feed, inputs, cfgs) && !Has(s, cfgs[0])
    ensures Planned(m, s, feed, inputs, cfgs[1..]) && RangeOutputs(s, cfgs) == RangeOutputs(s, cfgs[1..])
  {
    var rest := cfgs[1..];
    assert forall i :: 0 <= i < |rest| ==> rest[i] == cfgs[i + 1];
    forall x | x in RangeOutputs(s, cfgs) ensures x in RangeOutputs(s, rest) {
      var i :| 0 <= i < |cfgs| && Has(s, cfgs[i]) && x in ConfiguredNode(s, cfgs[i]).outputs;
      assert rest[i - 1] == cfgs[i];
    }
    forall x | x in RangeOutputs(s, rest) ensures x in RangeOutputs(s, cfgs) {
      var i :| 0 <= i < |rest| && Has(s, rest[i]) && x in ConfiguredNode(s, rest[i]).outputs;
      assert cfgs[i + 1] == rest[i];
    }
  }

  /**
    If the configured nodes of the graph are Ranges that fit, and the generated names are unused and
    apart, the whole pass raises nothing, keeps the list well-formed, and keeps the value of every
    tensor but the removed outputs.
  */
  lemma {:induction false} RangesPreserve(m: Interp, s: State, feed: Env, inputs: seq<Input>, cfgs: seq<Config>)
    requires Planned(m, s, feed, inputs, cfgs)
    ensures AfterRanges(s, inputs, cfgs).error == None
    ensures
      var s' := AfterRanges(s, inputs, cfgs).state;
      var e, e' := Eval(m, s.nodes, s.inits + feed), Eval(m, s'.nodes, s'.inits + feed);
      && WellFormed(s'.nodes, (s'.inits + feed).Keys)
      && forall x :: x in e && x !in RangeOutputs(s, cfgs) ==> x in e' && e'[x] == e[x]
    decreases |cfgs|
  {
    if cfgs != [] {
      var p := FindByName(s.nodes, cfgs[0].name);
      if p == |s.nodes| {
        PlanSkips(m, s, feed, inputs, cfgs);
        RangesPreserve(m, s, feed, inputs, cfgs[1..]);
      } else {
        PlanGoesOn(m, s, feed, inputs, cfgs);
        RangeStep(m, s, feed, inputs, p, cfgs[0]);
        RangesPreserve(m, ReplaceAt(s, inputs, p, cfgs[0]), feed, inputs, cfgs[1..]);
      }
    }
  }
}
