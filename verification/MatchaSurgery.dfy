/**
  scripts/surgery_matcha_acoustic.py, main: the three surgeries in sequence. What the later ones
  need of the graph they are given follows from the original graph.
*/
module MatchaSurgery {
  import opened Graphs
  import opened Onnx
  import opened OnnxModels
  import opened Rewriting
  import opened Tensors
  import opened Wrappers
  import Noise = MatchaNoise
  import Scale = MatchaLengthScale
  import Ranges = MatchaRange
  import Pass = MatchaRangePass

  type State = Noise.NoiseState

  datatype SurgeryError = InNoise(noise: Noise.NoiseError) | InRanges(ranges: Ranges.RangeError)

  datatype Outcome = Outcome(state: State, error: Option<SurgeryError>)

  /** All names the surgeries look for and generate. */
  datatype Plan = Plan(noise: Noise.NoiseNames, scale: Scale.Naming, ranges: seq<Ranges.Config>)

  function AfterScale(s: State, nm: Scale.Naming): State {
    var k := Scale.FirstInput(s.inputs, nm.source);
    if k == |s.inputs| then s
    else Noise.NoiseState(s.inputs[k := Input(nm.source, Int64Type)], s.inits[nm.divConst := Scale.ThousandTensor()],
                          Scale.Scaled(nm, s.nodes, 0, |Scale.Consumers(nm, s.nodes, 0)|))
  }

  function AfterSurgery(s: State, plan: Plan): Outcome {
    var first := Noise.AfterNoise(s, plan.noise);
    if first.error.Some? then Outcome(first.state, Some(InNoise(first.error.value)))
    else
      var second := AfterScale(first.state, plan.scale);
      var third := Ranges.AfterRanges(Ranges.State(second.nodes, second.inits), second.inputs, plan.ranges);
      Outcome(Noise.NoiseState(second.inputs, third.state.inits, third.state.nodes),
              if third.error.Some? then Some(InRanges(third.error.value)) else None)
  }

  method Convert(model: Model, plan: Plan) returns (error: Option<SurgeryError>)
    modifies model
    ensures Outcome(Noise.NoiseState(model.inputs, model.inits, model.nodes), error)
            == AfterSurgery(Noise.NoiseState(old(model.inputs), old(model.inits), old(model.nodes)), plan)
  {
    var first := Noise.FixRandomNormalLike(model, plan.noise);
    if first.Some? {
      return Some(InNoise(first.value));
    }
    Scale.FixLengthScaleType(plan.scale, model);
    var third := Ranges.FixRangeNodes(model, plan.ranges);
    if third.Some? {
      return Some(InRanges(third.value));
    }
    return None;
  }

  // A configured Range node seen from another surgery

  function RangeState(s: State): Ranges.State {
    Ranges.State(s.nodes, s.inits)
  }

  /** The configured node is found again, unchanged, with the same values on its inputs and the same float test. */
  ghost predicate Carried(m: Interp, s: State, feed: Env, s': State, feed': Env, cfg: Ranges.Config) {
    && Pass.SameNode(RangeState(s), RangeState(s'), cfg)
    && (Pass.Has(RangeState(s), cfg) ==>
          var k := Pass.ConfiguredNode(RangeState(s), cfg);
          var e, e' := Eval(m, s.nodes, s.inits + feed), Eval(m, s'.nodes, s'.inits + feed');
          && (forall x :: x in k.inputs && x in e ==> x in e' && e'[x] == e[x])
          && (|k.inputs| == 3 ==> Ranges.LimitIsFloat(s'.nodes, s'.inputs, k.inputs[1])
                                  == Ranges.LimitIsFloat(s.nodes, s.inputs, k.inputs[1])))
  }

  lemma CarriedFits(m: Interp, s: State, feed: Env, s': State, feed': Env, cfg: Ranges.Config)
    requires Carried(m, s, feed, s', feed', cfg) && Pass.Fits(m, RangeState(s), feed, s.inputs, cfg)
    ensures Pass.Fits(m, RangeState(s'), feed', s'.inputs, cfg)
  {
    if Pass.Has(RangeState(s), cfg) {
      var k := Pass.ConfiguredNode(RangeState(s), cfg);
      assert k.inputs[0] in k.inputs && k.inputs[1] in k.inputs && k.inputs[2] in k.inputs;
    }
  }

  /** The inputs of a fitting Range are scalars. */
  lemma ScalarInputs(e: Env, k: Node, isFloat: bool, max: nat, x: Name)
    requires Ranges.RangeFits(e, k, isFloat, max) && x in k.inputs
    ensures x in e && (e[x].Ints? ==> e[x].ints.dims == []) && (e[x].Floats? ==> e[x].floats.dims == [])
    ensures !e[x].Opaque?
  {
    assert x == k.inputs[0] || x == k.inputs[1] || x == k.inputs[2];
  }

  /** The float test depends on the producer's operator and the declared float inputs. */
  lemma SameTest(nodes: seq<Node>, inputs: seq<Input>, nodes': seq<Node>, inputs': seq<Input>, x: Name, p: Node -> bool)
    requires forall n :: p(n) <==> x in n.outputs
    requires Pass.First(nodes, p).Some? <==> Pass.First(nodes', p).Some?
    requires Pass.First(nodes, p).Some? ==> Pass.First(nodes', p).value.op == Pass.First(nodes, p).value.op
    requires Input(x, FloatType) in inputs <==> Input(x, FloatType) in inputs'
    ensures Ranges.LimitIsFloat(nodes', inputs', x) == Ranges.LimitIsFloat(nodes, inputs, x)
  {
    Pass.FirstByOutput(nodes, x, p);
    Pass.FirstByOutput(nodes', x, p);
  }

  lemma SameFound(s: State, s': State, cfg: Ranges.Config, p: Node -> bool)
    requires forall n :: p(n) <==> n.name == cfg.name
    requires Pass.First(s'.nodes, p) == Pass.First(s.nodes, p)
    ensures Pass.SameNode(RangeState(s), RangeState(s'), cfg)
  {
    Pass.FirstByName(s.nodes, cfg.name, p);
    Pass.FirstByName(s'.nodes, cfg.name, p);
  }

  // The noise surgery carries configured nodes

  /** The random node, its reader and the noise tensor are as the noise surgery needs them. */
  ghost predicate NoisePlanned(m: Interp, s: State, feed: Env, nm: Noise.NoiseNames, noise: Tensor<real>,
                               dims: seq<nat>) {
    var p := Noise.FirstRandom(s.nodes);
    var env := s.inits + feed;
    && Noise.NoiseSetup(m, s.nodes, env, p, nm, noise, dims)
    && var r := s.nodes[p].outputs[0];
       var q := Noise.LastReader(s.nodes, r);
       && r in Eval(m, s.nodes, env) && Eval(m, s.nodes, env)[r] == Floats(Block(noise, dims))
       && Noise.SingleUse(s.nodes, r) && q < |s.nodes| && |s.nodes[q].inputs| >= 2
  }

  function RandomOutput(s: State): Name
    requires var p := Noise.FirstRandom(s.nodes); p < |s.nodes| && |s.nodes[p].outputs| > 0
  {
    s.nodes[Noise.FirstRandom(s.nodes)].outputs[0]
  }

  function NoiseFeed(feed: Env, nm: Noise.NoiseNames, noise: Tensor<real>): Env {
    feed[nm.noise := Floats(noise)]
  }

  lemma NoiseEnv(inits: Env, feed: Env, nm: Noise.NoiseNames, noise: Tensor<real>)
    requires Noise.NoiseFresh(nm, (inits + feed).Keys)
    ensures (inits + Noise.NoiseInits(nm)) + NoiseFeed(feed, nm, noise)
            == inits + feed + Noise.NoiseInits(nm)[nm.noise := Floats(noise)]
  {
    Noise.NoiseNamesAre(nm, (inits + feed).Keys);
  }

  lemma NoiseStep(m: Interp, s: State, feed: Env, nm: Noise.NoiseNames, noise: Tensor<real>, dims: seq<nat>)
    requires NoisePlanned(m, s, feed, nm, noise, dims)
    ensures
      var o, feed' := Noise.AfterNoise(s, nm), NoiseFeed(feed, nm, noise);
      var e, e' := Eval(m, s.nodes, s.inits + feed), Eval(m, o.state.nodes, o.state.inits + feed');
      && o.error == None && o.state.inputs == s.inputs + [Input(nm.noise, FloatType)]
      && WellFormed(o.state.nodes, (o.state.inits + feed').Keys)
      && forall x :: x in e && x != RandomOutput(s) ==> x in e' && e'[x] == e[x]
  {
    var p := Noise.FirstRandom(s.nodes);
    var env := s.inits + feed;
    Noise.NoisePreserves(m, s.nodes, env, p, nm, noise, dims);
    NoiseEnv(s.inits, feed, nm, noise);
  }

  lemma NoiseBlockApart(nm: Noise.NoiseNames, ref: Name, name: Name, x: Name)
    requires name != nm.shapeName && name != nm.castName && name != nm.sliceName
    requires x != nm.shapeOut && x != nm.castOut && x != nm.sliceOut
    ensures forall n :: n in Noise.NoiseBlock(nm, ref) ==> n.name != name && x !in n.outputs
  {
  }

  lemma AfterNoiseIs(s: State, nm: Noise.NoiseNames, at: nat, q: nat, r: Name)
    requires at == Noise.FirstRandom(s.nodes) && at < |s.nodes| && |s.nodes[at].inputs| >= 1
             && |s.nodes[at].outputs| >= 1
    requires r == s.nodes[at].outputs[0] && q == Noise.LastReader(s.nodes, r) && at != q && q < |s.nodes|
    requires |s.nodes[q].inputs| >= 2
    ensures Noise.AfterNoise(s, nm)
            == Noise.Outcome(Noise.NoiseState(s.inputs + [Input(nm.noise, FloatType)], s.inits + Noise.NoiseInits(nm),
                               Noise.ReplaceNoise(s.nodes, at, q, Noise.NoiseBlock(nm, s.nodes[at].inputs[0]), r,
                                                  nm.sliceOut)), None)
  {
  }

  /** at is the random node, q its only reader, r its output. */
  ghost predicate NoiseMoved(s: State, feed: Env, nm: Noise.NoiseNames, at: nat, q: nat, r: Name) {
    && at < q < |s.nodes| && |s.nodes[at].inputs| > 0 && Outs(s.nodes[at]) == {r} && r != ABSENT
    && WellFormed(s.nodes, (s.inits + feed).Keys) && r !in AllReads(s.nodes[at + 1..q])
    && Noise.AfterNoise(s, nm).state
       == Noise.NoiseState(s.inputs + [Input(nm.noise, FloatType)], s.inits + Noise.NoiseInits(nm),
                           Replaced(s.nodes, at, q, Noise.NoiseBlock(nm, s.nodes[at].inputs[0]), r, nm.sliceOut))
    && AllOuts(Noise.NoiseBlock(nm, s.nodes[at].inputs[0])) == {nm.shapeOut, nm.castOut, nm.sliceOut}
  }

  /** The noise surgery moves the production of the random output to its reader. */
  lemma NoiseReplaced(m: Interp, s: State, feed: Env, nm: Noise.NoiseNames, noise: Tensor<real>, dims: seq<nat>)
    returns (q: nat)
    requires NoisePlanned(m, s, feed, nm, noise, dims)
    ensures NoiseMoved(s, feed, nm, Noise.FirstRandom(s.nodes), q, RandomOutput(s))
  {
    var at, r := Noise.FirstRandom(s.nodes), RandomOutput(s);
    q := OnlyReader(m, s, feed, nm, noise, dims);
    Noise.ReplaceNoiseIs(s.nodes, at, q, Noise.NoiseBlock(nm, s.nodes[at].inputs[0]), r, nm.sliceOut);
    AfterNoiseIs(s, nm, at, q, r);
  }

  lemma OnlyReader(m: Interp, s: State, feed: Env, nm: Noise.NoiseNames, noise: Tensor<real>,
                   dims: seq<nat>) returns (q: nat)
    requires NoisePlanned(m, s, feed, nm, noise, dims)
    ensures var at, r := Noise.FirstRandom(s.nodes), RandomOutput(s);
      && at < q < |s.nodes| && q == Noise.LastReader(s.nodes, r) && Noise.OnlyUse(s.nodes, r, q)
         && |s.nodes[q].inputs| >= 2
      && Outs(s.nodes[at]) == {r} && r != ABSENT
      && AllOuts(Noise.NoiseBlock(nm, s.nodes[at].inputs[0])) == {nm.shapeOut, nm.castOut, nm.sliceOut}
  {
    q := Noise.LastReader(s.nodes, RandomOutput(s));
    Noise.NoisePlaced(s.nodes, (s.inits + feed).Keys, Noise.FirstRandom(s.nodes), nm);
    Noise.SingleUseIsOnly(s.nodes, RandomOutput(s));
  }

  lemma ShapeFirst(s: State, feed: Env, nm: Noise.NoiseNames, at: nat, q: nat, r: Name, p: Node -> bool)
    requires NoiseMoved(s, feed, nm, at, q, r) && Pass.InputFree(p) && !p(s.nodes[at])
    requires forall n :: n in Noise.NoiseBlock(nm, s.nodes[at].inputs[0]) ==> !p(n)
    ensures Pass.First(Noise.AfterNoise(s, nm).state.nodes, p)
            == Pass.RenamedFirst(Pass.First(s.nodes, p), r, nm.sliceOut)
  {
    assert r in Outs(s.nodes[at]);
    UnreadBefore(s.nodes, (s.inits + feed).Keys, at, r);
    Pass.FirstReplaced(s.nodes, at, q, Noise.NoiseBlock(nm, s.nodes[at].inputs[0]), r, nm.sliceOut, p);
  }

  /** The search for a node by its name or an output, after the noise surgery. */
  lemma NoiseFirst(m: Interp, s: State, feed: Env, nm: Noise.NoiseNames, noise: Tensor<real>, dims: seq<nat>,
                   p: Node -> bool)
    requires NoisePlanned(m, s, feed, nm, noise, dims) && Pass.InputFree(p)
    requires !p(s.nodes[Noise.FirstRandom(s.nodes)])
    requires forall n :: n in Noise.NoiseBlock(nm, s.nodes[Noise.FirstRandom(s.nodes)].inputs[0]) ==> !p(n)
    ensures Pass.First(Noise.AfterNoise(s, nm).state.nodes, p)
            == Pass.RenamedFirst(Pass.First(s.nodes, p), RandomOutput(s), nm.sliceOut)
  {
    var q := NoiseReplaced(m, s, feed, nm, noise, dims);
    ShapeFirst(s, feed, nm, Noise.FirstRandom(s.nodes), q, RandomOutput(s), p);
  }

  /** A configured node does not concern the noise surgery. */
  predicate NoiseApart(s: State, nm: Noise.NoiseNames, cfg: Ranges.Config) {
    && cfg.name != nm.shapeName && cfg.name != nm.castName && cfg.name != nm.sliceName
    && (Noise.FirstRandom(s.nodes) < |s.nodes| ==> s.nodes[Noise.FirstRandom(s.nodes)].name != cfg.name)
  }

  lemma NoiseFinds(m: Interp, s: State, feed: Env, nm: Noise.NoiseNames, noise: Tensor<real>, dims: seq<nat>,
                   cfg: Ranges.Config)
    requires NoisePlanned(m, s, feed, nm, noise, dims) && NoiseApart(s, nm, cfg)
    requires Pass.Has(RangeState(s), cfg) ==> RandomOutput(s) !in Pass.ConfiguredNode(RangeState(s), cfg).inputs
    ensures Pass.SameNode(RangeState(s), RangeState(Noise.AfterNoise(s, nm).state), cfg)
  {
    var p := (n: Node) => n.name == cfg.name;
    var ref := s.nodes[Noise.FirstRandom(s.nodes)].inputs[0];
    NoiseBlockApart(nm, ref, cfg.name, ABSENT) by { Noise.NoiseNamesAre(nm, (s.inits + feed).Keys + AllOuts(s.nodes)); }
    NoiseFirst(m, s, feed, nm, noise, dims, p);
    Pass.FirstByName(s.nodes, cfg.name, p);
    if Pass.Has(RangeState(s), cfg) {
      Pass.RenameNotRead(Pass.ConfiguredNode(RangeState(s), cfg).inputs, RandomOutput(s), nm.sliceOut);
    }
    SameFound(s, Noise.AfterNoise(s, nm).state, cfg, p);
  }

  lemma NoiseTest(m: Interp, s: State, feed: Env, nm: Noise.NoiseNames, noise: Tensor<real>, dims: seq<nat>, x: Name)
    requires NoisePlanned(m, s, feed, nm, noise, dims)
    requires x in Eval(m, s.nodes, s.inits + feed) && x != RandomOutput(s)
    ensures var s' := Noise.AfterNoise(s, nm).state;
      Ranges.LimitIsFloat(s'.nodes, s'.inputs, x) == Ranges.LimitIsFloat(s.nodes, s.inputs, x)
  {
    var p := (n: Node) => x in n.outputs;
    var s' := Noise.AfterNoise(s, nm).state;
    NoiseNotGenerated(m, s, feed, nm, x);
    NoiseProducer(m, s, feed, nm, noise, dims, x, p);
    assert s'.inputs == s.inputs + [Input(nm.noise, FloatType)] by { NoiseStep(m, s, feed, nm, noise, dims); }
    SameTest(s.nodes, s.inputs, s'.nodes, s'.inputs, x, p);
  }

  lemma NoiseNotGenerated(m: Interp, s: State, feed: Env, nm: Noise.NoiseNames, x: Name)
    requires WellFormed(s.nodes, (s.inits + feed).Keys) && x in Eval(m, s.nodes, s.inits + feed)
    requires Noise.NoiseFresh(nm, (s.inits + feed).Keys + AllOuts(s.nodes))
    ensures x != nm.shapeOut && x != nm.castOut && x != nm.sliceOut && x != nm.noise
  {
    EvalSolves(m, s.nodes, s.inits + feed);
    Noise.NoiseNamesAre(nm, (s.inits + feed).Keys + AllOuts(s.nodes));
  }

  lemma NoiseProducer(m: Interp, s: State, feed: Env, nm: Noise.NoiseNames, noise: Tensor<real>, dims: seq<nat>,
                      x: Name, p: Node -> bool)
    requires NoisePlanned(m, s, feed, nm, noise, dims) && x != RandomOutput(s)
    requires x != nm.shapeOut && x != nm.castOut && x != nm.sliceOut && forall n :: p(n) <==> x in n.outputs
    ensures Pass.First(Noise.AfterNoise(s, nm).state.nodes, p)
            == Pass.RenamedFirst(Pass.First(s.nodes, p), RandomOutput(s), nm.sliceOut)
  {
    assert s.nodes[Noise.FirstRandom(s.nodes)].outputs == [RandomOutput(s)];
    NoiseFirst(m, s, feed, nm, noise, dims, p);
  }

  lemma NoiseCarries(m: Interp, s: State, feed: Env, nm: Noise.NoiseNames, noise: Tensor<real>, dims: seq<nat>,
                     cfg: Ranges.Config)
    requires NoisePlanned(m, s, feed, nm, noise, dims) && NoiseApart(s, nm, cfg)
    requires Pass.Fits(m, RangeState(s), feed, s.inputs, cfg)
    ensures Carried(m, s, feed, Noise.AfterNoise(s, nm).state, NoiseFeed(feed, nm, noise), cfg)
  {
    var e := Eval(m, s.nodes, s.inits + feed);
    if Pass.Has(RangeState(s), cfg) {
      var k := Pass.ConfiguredNode(RangeState(s), cfg);
      forall x | x in k.inputs ensures x in e && x != RandomOutput(s) {
        ScalarInputs(e, k, Ranges.LimitIsFloat(s.nodes, s.inputs, k.inputs[1]), cfg.max, x);
      }
      assert k.inputs[1] in k.inputs;
      NoiseTest(m, s, feed, nm, noise, dims, k.inputs[1]);
    }
    NoiseFinds(m, s, feed, nm, noise, dims, cfg);
    NoiseStep(m, s, feed, nm, noise, dims);
  }

  // The length-scale surgery carries configured nodes

  lemma {:induction false} RedirectNone(nm: Scale.Naming, inputs: seq<Name>, i: nat, limit: nat)
    requires nm.source !in inputs
    ensures Scale.Redirect(nm, inputs, i, limit) == inputs
  {
    if inputs != [] { RedirectNone(nm, inputs[1..], i, limit); }
  }

  /** No inserted node has the property. */
  ghost predicate NoScaler(nm: Scale.Naming, p: Node -> bool) {
    forall k :: !p(Scale.CastNode(nm, k)) && !p(Scale.DivNode(nm, k))
  }

  lemma {:induction false} ScalersNone(nm: Scale.Naming, a: nat, b: nat, p: Node -> bool)
    requires NoScaler(nm, p)
    ensures Pass.First(Scale.Scalers(nm, a, b), p) == None
  {
    if a < b {
      ScalersNone(nm, a, b - 1, p);
      var pair := [Scale.CastNode(nm, b - 1), Scale.DivNode(nm, b - 1)];
      Pass.FirstNone(pair, p);
      Pass.FirstConcat(Scale.Scalers(nm, a, b - 1), pair, p);
    }
  }

  /** b is a with other inputs, and with the same inputs if those do not have the name. */
  predicate Redirected(a: Option<Node>, b: Option<Node>, source: Name) {
    && (a.None? <==> b.None?)
    && (a.Some? ==> b.value == a.value.(inputs := b.value.inputs) && (source !in a.value.inputs ==> b == a))
  }

  lemma BlockFirst(nm: Scale.Naming, n: Node, i: nat, limit: nat, p: Node -> bool)
    requires Pass.InputFree(p) && NoScaler(nm, p)
    ensures Redirected(if p(n) then Some(n) else None, Pass.First(Scale.ScaledBlock(nm, n, i, limit), p), nm.source)
  {
    var n' := n.(inputs := Scale.Redirect(nm, n.inputs, i, limit));
    var scalers := Scale.Scalers(nm, i, Scale.Min(limit, i + Scale.Uses(nm, n.inputs)));
    ScalersNone(nm, i, Scale.Min(limit, i + Scale.Uses(nm, n.inputs)), p);
    Pass.FirstConcat(scalers, [n'], p);
    assert [n'][1..] == [];
    if nm.source !in n.inputs { RedirectNone(nm, n.inputs, i, limit); }
  }

  /** The search for a node by its name or an output, after the length-scale surgery. */
  lemma {:induction false} ScaledFirst(nm: Scale.Naming, nodes: seq<Node>, i: nat, limit: nat, p: Node -> bool)
    requires Pass.InputFree(p) && NoScaler(nm, p)
    ensures Redirected(Pass.First(nodes, p), Pass.First(Scale.Scaled(nm, nodes, i, limit), p), nm.source)
  {
    if nodes != [] {
      var i' := i + Scale.Uses(nm, nodes[0].inputs);
      BlockFirst(nm, nodes[0], i, limit, p);
      ScaledFirst(nm, nodes[1..], i', limit, p);
      Pass.FirstConcat(Scale.ScaledBlock(nm, nodes[0], i, limit), Scale.Scaled(nm, nodes[1..], i', limit), p);
    }
  }

  /** No generated tensor name is used. */
  ghost predicate ScaleFresh(nm: Scale.Naming, used: set<Name>) {
    nm.divConst !in used && forall k :: nm.castOut(k) !in used && nm.divOut(k) !in used
  }

  /** The graph declares the input, and is fed a thousandth of the integer tensor. */
  ghost predicate ScalePlanned(s: State, feed: Env, nm: Scale.Naming, t: Tensor<int>) {
    && Scale.Distinct(nm) && Scale.FirstInput(s.inputs, nm.source) < |s.inputs|
    && nm.source in feed && feed[nm.source] == Scale.Thousandths(t)
    && WellFormed(s.nodes, (s.inits + feed).Keys)
    && ScaleFresh(nm, (s.inits + feed).Keys + AllOuts(s.nodes))
  }

  lemma ScaleStep(m: Interp, s: State, feed: Env, nm: Scale.Naming, t: Tensor<int>)
    requires ScalePlanned(s, feed, nm, t)
    ensures
      var s', feed' := AfterScale(s, nm), feed[nm.source := Ints(t)];
      var e, e' := Eval(m, s.nodes, s.inits + feed), Eval(m, s'.nodes, s'.inits + feed');
      && WellFormed(s'.nodes, (s'.inits + feed').Keys)
      && forall x :: x in e && x != nm.source ==> x in e' && e'[x] == e[x]
  {
    var base, limit := s.inits + feed, |Scale.Consumers(nm, s.nodes, 0)|;
    Scale.NewNamesOnly(nm, 0, limit);
    assert base[nm.source := Scale.Thousandths(t)] == base;
    Scale.LengthScalePreserves(m, nm, s.nodes, base, t);
    ScaleEnv(s.inits, feed, nm, t);
  }

  lemma ScaleEnv(inits: Env, feed: Env, nm: Scale.Naming, t: Tensor<int>)
    requires nm.divConst !in feed && nm.divConst != nm.source
    ensures inits[nm.divConst := Scale.ThousandTensor()] + feed[nm.source := Ints(t)]
            == (inits + feed)[nm.source := Ints(t)][nm.divConst := Scale.ThousandTensor()]
  {
  }

  lemma ScaleFinds(s: State, nm: Scale.Naming, cfg: Ranges.Config)
    requires forall k :: cfg.name != nm.castName(k) && cfg.name != nm.divName(k)
    requires Pass.Has(RangeState(s), cfg) ==> nm.source !in Pass.ConfiguredNode(RangeState(s), cfg).inputs
    ensures Pass.SameNode(RangeState(s), RangeState(AfterScale(s, nm)), cfg)
  {
    var p := (n: Node) => n.name == cfg.name;
    var k := Scale.FirstInput(s.inputs, nm.source);
    if k < |s.inputs| {
      ScaledFirst(nm, s.nodes, 0, |Scale.Consumers(nm, s.nodes, 0)|, p);
    }
    Pass.FirstByName(s.nodes, cfg.name, p);
    SameFound(s, AfterScale(s, nm), cfg, p);
  }

  lemma ScaleTest(s: State, nm: Scale.Naming, x: Name)
    requires x != nm.source && Scale.FirstInput(s.inputs, nm.source) < |s.inputs|
    requires forall k :: x != nm.castOut(k) && x != nm.divOut(k)
    ensures var s' := AfterScale(s, nm);
      Ranges.LimitIsFloat(s'.nodes, s'.inputs, x) == Ranges.LimitIsFloat(s.nodes, s.inputs, x)
  {
    var p := (n: Node) => x in n.outputs;
    var s', k := AfterScale(s, nm), Scale.FirstInput(s.inputs, nm.source);
    FirstInputIs(s.inputs, nm.source);
    ScaledFirst(nm, s.nodes, 0, |Scale.Consumers(nm, s.nodes, 0)|, p);
    OtherInputs(s.inputs, k, Input(nm.source, Int64Type), Input(x, FloatType));
    SameTest(s.nodes, s.inputs, s'.nodes, s'.inputs, x, p);
  }

  lemma {:induction false} FirstInputIs(inputs: seq<Input>, name: Name)
    requires Scale.FirstInput(inputs, name) < |inputs|
    ensures inputs[Scale.FirstInput(inputs, name)].name == name
  {
    if inputs[0].name != name { FirstInputIs(inputs[1..], name); }
  }

  lemma OtherInputs(inputs: seq<Input>, k: nat, new': Input, x: Input)
    requires k < |inputs| && x.name != new'.name && inputs[k].name == new'.name
    ensures x in inputs <==> x in inputs[k := new']
  {
    if x in inputs {
      var i :| 0 <= i < |inputs| && inputs[i] == x;
      assert inputs[k := new'][i] == x;
    }
  }

  lemma ScaleCarries(m: Interp, s: State, feed: Env, nm: Scale.Naming, t: Tensor<int>, cfg: Ranges.Config)
    requires ScalePlanned(s, feed, nm, t) && Pass.Fits(m, RangeState(s), feed, s.inputs, cfg)
    requires forall k :: cfg.name != nm.castName(k) && cfg.name != nm.divName(k)
    ensures Carried(m, s, feed, AfterScale(s, nm), feed[nm.source := Ints(t)], cfg)
  {
    var e := Eval(m, s.nodes, s.inits + feed);
    EvalSolves(m, s.nodes, s.inits + feed);
    assert e[nm.source] == Scale.Thousandths(t) by { assert (s.inits + feed)[nm.source] == feed[nm.source]; }
    if Pass.Has(RangeState(s), cfg) {
      var k := Pass.ConfiguredNode(RangeState(s), cfg);
      forall x | x in k.inputs ensures x in e && x != nm.source {
        ScalarInputs(e, k, Ranges.LimitIsFloat(s.nodes, s.inputs, k.inputs[1]), cfg.max, x);
      }
      assert k.inputs[1] in k.inputs;
      ScaleTest(s, nm, k.inputs[1]);
    }
    ScaleFinds(s, nm, cfg);
    ScaleStep(m, s, feed, nm, t);
  }

  // The three in sequence

  function NoiseGenerated(nm: Noise.NoiseNames): set<Name> {
    {nm.shapeOut, nm.castOut, nm.sliceOut, nm.starts, nm.axes, nm.steps, nm.noise}
  }

  /** The generated names of the three surgeries do not clash, and none of their nodes is taken for another's. */
  ghost predicate Apart(s: State, plan: Plan) {
    && ScaleFresh(plan.scale, NoiseGenerated(plan.noise))
    && forall i :: 0 <= i < |plan.ranges| ==> RangeApart(s, plan, plan.ranges[i])
  }

  ghost predicate RangeApart(s: State, plan: Plan, cfg: Ranges.Config) {
    && NoiseApart(s, plan.noise, cfg)
    && (forall k :: cfg.name != plan.scale.castName(k) && cfg.name != plan.scale.divName(k))
    && (forall x :: x in Ranges.Generated(cfg.names) ==> x !in NoiseGenerated(plan.noise))
    && ScaleFresh(plan.scale, set x | x in Ranges.Generated(cfg.names))
  }

  /** Each configured node is found again, unchanged. */
  ghost predicate SameNodes(s: State, s': State, cfgs: seq<Ranges.Config>) {
    forall i :: 0 <= i < |cfgs| ==> Pass.SameNode(RangeState(s), RangeState(s'), cfgs[i])
  }

  function Used(s: State, feed: Env): set<Name> {
    (s.inits + feed).Keys + AllOuts(s.nodes)
  }

  /** What carries all configured nodes and adds only names apart from theirs carries the plan of the range pass. */
  lemma PlanCarried(m: Interp, s: State, feed: Env, s': State, feed': Env, cfgs: seq<Ranges.Config>,
                    added: Name -> bool)
    requires Pass.Planned(m, RangeState(s), feed, s.inputs, cfgs)
    requires WellFormed(s'.nodes, (s'.inits + feed').Keys)
    requires forall i :: 0 <= i < |cfgs| ==> Carried(m, s, feed, s', feed', cfgs[i])
    requires forall x :: x in Used(s', feed') ==> x in Used(s, feed) || added(x)
    requires forall i, x :: 0 <= i < |cfgs| && x in Ranges.Generated(cfgs[i].names) ==> !added(x)
    ensures Pass.Planned(m, RangeState(s'), feed', s'.inputs, cfgs) && SameNodes(s, s', cfgs)
  {
    forall i | 0 <= i < |cfgs|
      ensures Pass.Fits(m, RangeState(s'), feed', s'.inputs, cfgs[i])
      ensures Ranges.FreshNames(cfgs[i].names, (s'.inits + feed').Keys + AllOuts(s'.nodes))
    {
      CarriedFits(m, s, feed, s', feed', cfgs[i]);
      assert Ranges.FreshNames(cfgs[i].names, (s.inits + feed).Keys + AllOuts(s.nodes));
      forall x | x in Ranges.Generated(cfgs[i].names) ensures x !in Used(s', feed') {
        assert x !in Used(s, feed) && !added(x);
      }
    }
  }

  lemma ShapeOuts(s: State, feed: Env, nm: Noise.NoiseNames, at: nat, q: nat, r: Name)
    requires NoiseMoved(s, feed, nm, at, q, r)
    ensures AllOuts(Noise.AfterNoise(s, nm).state.nodes) <= AllOuts(s.nodes) + {nm.shapeOut, nm.castOut, nm.sliceOut}
    ensures Noise.AfterNoise(s, nm).state.inits == s.inits + Noise.NoiseInits(nm)
  {
    Pass.ReplacedOutsAre(s.nodes, (s.inits + feed).Keys, at, q, Noise.NoiseBlock(nm, s.nodes[at].inputs[0]), r,
                         nm.sliceOut);
  }

  lemma NoiseUsed(m: Interp, s: State, feed: Env, nm: Noise.NoiseNames, noise: Tensor<real>, dims: seq<nat>)
    requires NoisePlanned(m, s, feed, nm, noise, dims)
    ensures forall x :: x in Used(Noise.AfterNoise(s, nm).state, NoiseFeed(feed, nm, noise)) ==>
              x in Used(s, feed) || x in NoiseGenerated(nm)
  {
    var q := NoiseReplaced(m, s, feed, nm, noise, dims);
    ShapeOuts(s, feed, nm, Noise.FirstRandom(s.nodes), q, RandomOutput(s));
    NoiseEnv(s.inits, feed, nm, noise);
  }

  lemma {:induction false} FirstInputMore(inputs: seq<Input>, more: Input, name: Name)
    requires Scale.FirstInput(inputs, name) < |inputs|
    ensures Scale.FirstInput(inputs + [more], name) < |inputs + [more]|
  {
    if inputs[0].name != name {
      assert (inputs + [more])[1..] == inputs[1..] + [more];
      FirstInputMore(inputs[1..], more, name);
    }
  }

  lemma NoiseThenScale(m: Interp, s: State, feed: Env, plan: Plan, noise: Tensor<real>, dims: seq<nat>, t: Tensor<int>)
    requires NoisePlanned(m, s, feed, plan.noise, noise, dims) && ScalePlanned(s, feed, plan.scale, t) && Apart(s, plan)
    ensures ScalePlanned(Noise.AfterNoise(s, plan.noise).state, NoiseFeed(feed, plan.noise, noise), plan.scale, t)
  {
    NoiseStep(m, s, feed, plan.noise, noise, dims);
    NoiseUsed(m, s, feed, plan.noise, noise, dims);
    FirstInputMore(s.inputs, Input(plan.noise.noise, FloatType), plan.scale.source);
    Noise.NoiseNamesAre(plan.noise, Used(s, feed));
  }

  lemma NoiseThenRanges(m: Interp, s: State, feed: Env, plan: Plan, noise: Tensor<real>, dims: seq<nat>)
    requires NoisePlanned(m, s, feed, plan.noise, noise, dims) && Apart(s, plan)
    requires Pass.Planned(m, RangeState(s), feed, s.inputs, plan.ranges)
    ensures var s' := Noise.AfterNoise(s, plan.noise).state;
      && Pass.Planned(m, RangeState(s'), NoiseFeed(feed, plan.noise, noise), s'.inputs, plan.ranges)
      && SameNodes(s, s', plan.ranges)
  {
    var s', feed' := Noise.AfterNoise(s, plan.noise).state, NoiseFeed(feed, plan.noise, noise);
    NoiseStep(m, s, feed, plan.noise, noise, dims);
    NoiseUsed(m, s, feed, plan.noise, noise, dims);
    forall i | 0 <= i < |plan.ranges| ensures Carried(m, s, feed, s', feed', plan.ranges[i]) {
      NoiseCarries(m, s, feed, plan.noise, noise, dims, plan.ranges[i]);
    }
    PlanCarried(m, s, feed, s', feed', plan.ranges, x => x in NoiseGenerated(plan.noise));
  }

  ghost predicate ScaleGenerated(nm: Scale.Naming, x: Name) {
    x == nm.divConst || exists k :: x == nm.castOut(k) || x == nm.divOut(k)
  }

  lemma {:induction false} ScalersOuts(nm: Scale.Naming, a: nat, b: nat)
    ensures forall x :: x in AllOuts(Scale.Scalers(nm, a, b)) ==> ScaleGenerated(nm, x)
  {
    if a < b {
      ScalersOuts(nm, a, b - 1);
      var pair := [Scale.CastNode(nm, b - 1), Scale.DivNode(nm, b - 1)];
      AllOutsConcat(Scale.Scalers(nm, a, b - 1), pair);
      forall x | x in AllOuts(pair) ensures ScaleGenerated(nm, x) {
        var i :| 0 <= i < |pair| && x in Outs(pair[i]);
      }
    }
  }

  lemma {:induction false} ScaledOuts(nm: Scale.Naming, nodes: seq<Node>, i: nat, limit: nat)
    ensures forall x :: x in AllOuts(Scale.Scaled(nm, nodes, i, limit)) ==> x in AllOuts(nodes) || ScaleGenerated(nm, x)
  {
    if nodes != [] {
      var n, i' := nodes[0], i + Scale.Uses(nm, nodes[0].inputs);
      var scalers := Scale.Scalers(nm, i, Scale.Min(limit, i'));
      var n' := n.(inputs := Scale.Redirect(nm, n.inputs, i, limit));
      ScalersOuts(nm, i, Scale.Min(limit, i'));
      ScaledOuts(nm, nodes[1..], i', limit);
      AllOutsConcat(Scale.ScaledBlock(nm, n, i, limit), Scale.Scaled(nm, nodes[1..], i', limit));
      AllOutsConcat(scalers, [n']);
      Singleton(n', {});
      assert Outs(n') == Outs(n);
      AllOutsCons(nodes);
    }
  }

  lemma ScaleUsed(s: State, feed: Env, nm: Scale.Naming, t: Tensor<int>)
    requires ScalePlanned(s, feed, nm, t)
    ensures forall x :: x in Used(AfterScale(s, nm), feed[nm.source := Ints(t)]) ==>
              x in Used(s, feed) || ScaleGenerated(nm, x)
  {
    ScaledOuts(nm, s.nodes, 0, |Scale.Consumers(nm, s.nodes, 0)|);
  }

  lemma ScaleThenRanges(m: Interp, s: State, feed: Env, nm: Scale.Naming, t: Tensor<int>, cfgs: seq<Ranges.Config>)
    requires ScalePlanned(s, feed, nm, t) && Pass.Planned(m, RangeState(s), feed, s.inputs, cfgs)
    requires forall i, k :: 0 <= i < |cfgs| ==> cfgs[i].name != nm.castName(k) && cfgs[i].name != nm.divName(k)
    requires forall i :: 0 <= i < |cfgs| ==> ScaleFresh(nm, set x | x in Ranges.Generated(cfgs[i].names))
    ensures var s' := AfterScale(s, nm);
      && Pass.Planned(m, RangeState(s'), feed[nm.source := Ints(t)], s'.inputs, cfgs)
      && SameNodes(s, s', cfgs)
  {
    var s', feed' := AfterScale(s, nm), feed[nm.source := Ints(t)];
    ScaleStep(m, s, feed, nm, t);
    ScaleUsed(s, feed, nm, t);
    forall i | 0 <= i < |cfgs| ensures Carried(m, s, feed, s', feed', cfgs[i]) {
      ScaleCarries(m, s, feed, nm, t, cfgs[i]);
    }
    var used := Used(s, feed);
    PlanCarried(m, s, feed, s', feed', cfgs, x => x in Used(s', feed') && x !in used);
  }

  lemma OutputsSame(s: State, s': State, cfgs: seq<Ranges.Config>)
    requires SameNodes(s, s', cfgs)
    ensures Pass.RangeOutputs(RangeState(s'), cfgs) == Pass.RangeOutputs(RangeState(s), cfgs)
  {
  }

  /** All that the three surgeries need, in terms of the original graph fed a thousandth of t. */
  ghost predicate Convertible(m: Interp, s: State, feed: Env, plan: Plan, noise: Tensor<real>, dims: seq<nat>,
                              t: Tensor<int>) {
    && NoisePlanned(m, s, feed, plan.noise, noise, dims)
    && ScalePlanned(s, feed, plan.scale, t)
    && Pass.Planned(m, RangeState(s), feed, s.inputs, plan.ranges)
    && Apart(s, plan)
  }

  /** What the converted graph is fed: the noise, and the integer in place of its thousandth. */
  function ConvertedFeed(feed: Env, plan: Plan, noise: Tensor<real>, t: Tensor<int>): Env {
    NoiseFeed(feed, plan.noise, noise)[plan.scale.source := Ints(t)]
  }

  lemma RangesReady(m: Interp, s: State, feed: Env, plan: Plan, noise: Tensor<real>, dims: seq<nat>, t: Tensor<int>)
    requires Convertible(m, s, feed, plan, noise, dims, t)
    ensures var s1 := Noise.AfterNoise(s, plan.noise).state;
      var s2, feed2 := AfterScale(s1, plan.scale), ConvertedFeed(feed, plan, noise, t);
      && ScalePlanned(s1, NoiseFeed(feed, plan.noise, noise), plan.scale, t)
      && Pass.Planned(m, RangeState(s2), feed2, s2.inputs, plan.ranges)
      && Pass.RangeOutputs(RangeState(s2), plan.ranges) == Pass.RangeOutputs(RangeState(s), plan.ranges)
  {
    var s1, feed1 := Noise.AfterNoise(s, plan.noise).state, NoiseFeed(feed, plan.noise, noise);
    NoiseThenScale(m, s, feed, plan, noise, dims, t);
    NoiseThenRanges(m, s, feed, plan, noise, dims);
    forall i, k | 0 <= i < |plan.ranges|
      ensures plan.ranges[i].name != plan.scale.castName(k) && plan.ranges[i].name != plan.scale.divName(k)
    {
      assert RangeApart(s, plan, plan.ranges[i]);
    }
    ScaleThenRanges(m, s1, feed1, plan.scale, t, plan.ranges);
    OutputsSame(s, s1, plan.ranges);
    OutputsSame(s1, AfterScale(s1, plan.scale), plan.ranges);
  }

  /** The removed random and range outputs, and the length scale itself. */
  predicate Dropped(s: State, plan: Plan, x: Name)
    requires var p := Noise.FirstRandom(s.nodes); p < |s.nodes| && |s.nodes[p].outputs| > 0
  {
    x == RandomOutput(s) || x == plan.scale.source || x in Pass.RangeOutputs(RangeState(s), plan.ranges)
  }

  /**
    The converted graph, fed an integer length scale and the noise, raises no error on the way, is
    well-formed, and computes for every tensor but the removed random and range outputs and the
    length scale itself what the original graph computes on a thousandth of the integer.
  */
  lemma SurgeryPreserves(m: Interp, s: State, feed: Env, plan: Plan, noise: Tensor<real>, dims: seq<nat>,
                         t: Tensor<int>)
    requires Convertible(m, s, feed, plan, noise, dims, t)
    ensures
      var o, feed' := AfterSurgery(s, plan), ConvertedFeed(feed, plan, noise, t);
      var e, e' := Eval(m, s.nodes, s.inits + feed), Eval(m, o.state.nodes, o.state.inits + feed');
      && o.error == None
      && WellFormed(o.state.nodes, (o.state.inits + feed').Keys)
      && forall x :: x in e && !Dropped(s, plan, x) ==> x in e' && e'[x] == e[x]
  {
    var s1, feed1 := Noise.AfterNoise(s, plan.noise).state, NoiseFeed(feed, plan.noise, noise);
    var s2, feed2 := AfterScale(s1, plan.scale), ConvertedFeed(feed, plan, noise, t);
    NoiseStep(m, s, feed, plan.noise, noise, dims);
    RangesReady(m, s, feed, plan, noise, dims, t);
    ScaleStep(m, s1, feed1, plan.scale, t);
    Pass.RangesPreserve(m, RangeState(s2), feed2, s2.inputs, plan.ranges);
  }
}
