/**
  scripts/split_kokoro_hybrid.py: split a graph into a prefix and a suffix at a tensor or at a node index.

  The prefix is what `onnx.utils.extract_model` extracts for the boundary tensors: the nodes
  they depend on, in original order (`Extracted`). The suffix is all other nodes.
*/
module SplitKokoro {
  import opened Dependencies
  import opened Graphs
  import opened Onnx
  import opened Rewriting
  import opened Wrappers

  datatype Split = Split(suffix: seq<Node>, boundary: set<Name>, suffixInputs: seq<Name>)

  datatype SplitError = CutNotProduced | IndexOutOfRange | NoBoundary

  /** The nodes that `cut` depends on. */
  ghost function Ancestors(nodes: seq<Node>, cut: Name): set<nat> {
    set i | i in Indices(|nodes|) && ReachesNode(nodes, {}, cut, i)
  }

  /** The nodes that some tensor of `outs` depends on. */
  ghost function Extracted(nodes: seq<Node>, outs: set<Name>): set<nat> {
    set i | i in Indices(|nodes|) && exists o :: o in outs && ReachesNode(nodes, {}, o, i)
  }

  function Keep(xs: seq<Name>, s: set<Name>): seq<Name> {
    if xs == [] then []
    else (if xs[0] in s then [xs[0]] else []) + Keep(xs[1..], s)
  }

  /** The split whose suffix leaves out the nodes in `cut`; `extra` joins the boundary even if unread. */
  function SplitOf(g: Graph, cut: set<nat>, extra: set<Name>): Split {
    var suffix := Select(g.nodes, Indices(|g.nodes|) - cut, 0);
    var boundary := SelectOuts(g.nodes, cut) * AllReads(suffix) + extra;
    Split(suffix, boundary, Keep(g.inputs, boundary + AllReads(suffix)))
  }

  class AncestorVisitor {
    const nodes: seq<Node>
    const producers: map<Name, nat>
    var ancestors: set<nat>

    ghost predicate Valid()
      reads this
    {
      producers == Producers(nodes) && forall i :: i in ancestors ==> i < |nodes|
    }

    constructor (nodes: seq<Node>)
      ensures Valid() && ancestors == {} && this.nodes == nodes
    {
      this.nodes := nodes;
      producers := Producers(nodes);
      ancestors := {};
    }

    method VisitTensor(name: Name, ghost cut: Name)
      requires Valid() && Reaches(nodes, {}, cut, name)
      modifies this`ancestors
      ensures Valid() && old(ancestors) <= ancestors && Visited(nodes, ancestors, name)
      ensures forall i :: i in ancestors - old(ancestors) ==> InputsVisited(nodes, ancestors, i)
      ensures forall i :: i in ancestors - old(ancestors) ==> ReachesNode(nodes, {}, cut, i)
      decreases Indices(|nodes|) - ancestors
    {
      if name !in producers || producers[name] in ancestors {
        return;
      }
      ProducersSound(nodes);
      var idx := producers[name];
      ancestors := ancestors + {idx};
      var inputs := nodes[idx].inputs;
      for k := 0 to |inputs|
        invariant Valid() && old(ancestors) + {idx} <= ancestors
        invariant forall j :: 0 <= j < k ==> inputs[j] == ABSENT || Visited(nodes, ancestors, inputs[j])
        invariant forall i :: i in ancestors - old(ancestors) - {idx} ==> InputsVisited(nodes, ancestors, i)
        invariant forall i :: i in ancestors - old(ancestors) ==> ReachesNode(nodes, {}, cut, i)
      {
        if inputs[k] != ABSENT {
          ghost var before := ancestors;
          ReachesExtend(nodes, {}, cut, name, inputs[k]);
          VisitTensor(inputs[k], cut);
          forall i | i in before - old(ancestors) - {idx} ensures InputsVisited(nodes, ancestors, i) {
            InputsVisitedMono(nodes, before, ancestors, i);
          }
        }
      }
    }
  }

  predicate Visited(nodes: seq<Node>, s: set<nat>, x: Name) {
    x in Producers(nodes) ==> Producers(nodes)[x] in s
  }

  predicate InputsVisited(nodes: seq<Node>, s: set<nat>, i: nat) {
    i < |nodes| && forall x :: x in nodes[i].inputs && x != ABSENT ==> Visited(nodes, s, x)
  }

  lemma InputsVisitedMono(nodes: seq<Node>, s: set<nat>, t: set<nat>, i: nat)
    requires InputsVisited(nodes, s, i) && s <= t
    ensures InputsVisited(nodes, t, i)
  {
  }

  /** Every tensor that a node of `s` reads is produced inside `s` or by no node. */
  ghost predicate Closed(nodes: seq<Node>, s: set<nat>) {
    forall i, x :: i in s && i < |nodes| && x in Reads(nodes[i]) && x in Producers(nodes) ==> Producers(nodes)[x] in s
  }

  /** A path that starts inside a closed set stays inside. */
  lemma {:induction false} ClosedAlong(nodes: seq<Node>, s: set<nat>, p: seq<Name>, k: nat)
    requires Closed(nodes, s) && Path(nodes, {}, p) && k < |p|
    requires p[0] in Producers(nodes) ==> Producers(nodes)[p[0]] in s
    ensures p[k] in Producers(nodes) ==> Producers(nodes)[p[k]] in s
  {
    if k > 0 {
      ClosedAlong(nodes, s, p, k - 1);
      ProducersSound(nodes);
      assert Edge(nodes, {}, p[k - 1], p[k]);
    }
  }

  lemma ClosedReaches(nodes: seq<Node>, s: set<nat>, x: Name)
    requires Closed(nodes, s)
    requires x in Producers(nodes) ==> Producers(nodes)[x] in s
    ensures forall i :: ReachesNode(nodes, {}, x, i) ==> i in s
  {
    forall i | ReachesNode(nodes, {}, x, i) ensures i in s {
      var y :| Reaches(nodes, {}, x, y) && y in Producers(nodes) && Producers(nodes)[y] == i;
      var p :| Path(nodes, {}, p) && p[0] == x && p[|p| - 1] == y;
      ClosedAlong(nodes, s, p, |p| - 1);
    }
  }

  /** Names read by `nodes` that are graph inputs, collected by the two nested loops of both split functions. */
  method ReadInputs(nodes: seq<Node>, inputs: set<Name>) returns (r: set<Name>)
    ensures r == AllReads(nodes) * inputs
  {
    r := {};
    for i := 0 to |nodes|
      invariant r == AllReads(nodes[..i]) * inputs
    {
      var n := nodes[i];
      ghost var before := r;
      for k := 0 to |n.inputs|
        invariant r == before + (set x | x in n.inputs[..k] && x != ABSENT) * inputs
      {
        if n.inputs[k] != ABSENT && n.inputs[k] in inputs {
          r := r + {n.inputs[k]};
        }
      }
      assert n.inputs[..|n.inputs|] == n.inputs;
      assert AllReads(nodes[..i + 1]) == AllReads(nodes[..i]) + Reads(n) by {
        var a, b := nodes[..i], nodes[..i + 1];
        forall x | x in AllReads(b) ensures x in AllReads(a) + Reads(n) {
          var j :| 0 <= j < |b| && x in Reads(b[j]);
          if j < i { assert b[j] == a[j]; }
        }
        forall x | x in AllReads(a) + Reads(n) ensures x in AllReads(b) {
          if x in AllReads(a) {
            var j :| 0 <= j < |a| && x in Reads(a[j]);
            assert x in Reads(b[j]);
          } else {
            assert x in Reads(b[i]);
          }
        }
      }
    }
    assert nodes[..|nodes|] == nodes;
  }

  method KeepInputs(inputs: seq<Name>, external: set<Name>) returns (r: seq<Name>)
    ensures r == Keep(inputs, external)
  {
    r := [];
    for i := 0 to |inputs|
      invariant r + Keep(inputs[i..], external) == Keep(inputs, external)
    {
      if inputs[i] in external {
        r := r + [inputs[i]];
      }
    }
  }

  lemma {:induction false} KeepSame(xs: seq<Name>, a: set<Name>, b: set<Name>)
    requires forall x :: x in xs ==> (x in a <==> x in b)
    ensures Keep(xs, a) == Keep(xs, b)
  {
    if xs != [] { KeepSame(xs[1..], a, b); }
  }

  /** The suffix's own inputs: the graph inputs it reads, in their original order. */
  method SuffixInputs(inputs: seq<Name>, suffix: seq<Node>, boundary: set<Name>) returns (r: seq<Name>)
    ensures r == Keep(inputs, boundary + AllReads(suffix))
  {
    var external := ReadInputs(suffix, set x | x in inputs);
    r := KeepInputs(inputs, boundary + external);
    KeepSame(inputs, boundary + external, boundary + AllReads(suffix));
  }

  method FindAncestors(nodes: seq<Node>, cut: Name) returns (r: set<nat>)
    ensures r == Ancestors(nodes, cut)
  {
    var visitor := new AncestorVisitor(nodes);
    ReachesSelf(nodes, {}, cut);
    visitor.VisitTensor(cut, cut);
    r := visitor.ancestors;
    forall i, x | i in r && i < |nodes| && x in Reads(nodes[i]) && x in Producers(nodes)
      ensures Producers(nodes)[x] in r
    {
      assert InputsVisited(nodes, r, i) && Visited(nodes, r, x);
    }
    ClosedReaches(nodes, r, cut);
  }

  method SplitModelByOutput(g: Graph, cut: Name) returns (r: Result<Split, SplitError>)
    ensures r == if cut !in Producers(g.nodes) then Failure(CutNotProduced)
                 else Success(SplitOf(g, Ancestors(g.nodes, cut), {cut}))
  {
    if cut !in Producers(g.nodes) {
      return Failure(CutNotProduced);
    }
    ProducersSound(g.nodes);
    var ancestors := FindAncestors(g.nodes, cut);
    var suffix := Select(g.nodes, Indices(|g.nodes|) - ancestors, 0);
    var boundary := SelectOuts(g.nodes, ancestors) * AllReads(suffix);
    if cut !in boundary {
      boundary := boundary + {cut};
    }
    var suffixInputs := SuffixInputs(g.inputs, suffix, boundary);
    ghost var sp := SplitOf(g, ancestors, {cut});
    assert boundary == sp.boundary;
    return Success(Split(suffix, boundary, suffixInputs));
  }

  lemma {:induction false} SelectTail(nodes: seq<Node>, cut: nat, k: nat)
    requires cut <= |nodes| && k <= |nodes|
    ensures Select(nodes, Indices(|nodes|) - Indices(cut), k) == nodes[if k < cut then cut else k..]
    decreases |nodes| - k
  {
    if k < |nodes| { SelectTail(nodes, cut, k + 1); }
  }

  method SplitModel(g: Graph, cutIndex: int) returns (r: Result<Split, SplitError>)
    ensures r == if cutIndex <= 0 || cutIndex >= |g.nodes| then Failure(IndexOutOfRange)
                 else if AllOuts(g.nodes[..cutIndex]) * AllReads(g.nodes[cutIndex..]) == {} then Failure(NoBoundary)
                 else Success(SplitOf(g, Indices(cutIndex), {}))
  {
    if cutIndex <= 0 || cutIndex >= |g.nodes| {
      return Failure(IndexOutOfRange);
    }
    var suffix := g.nodes[cutIndex..];
    var boundary := AllOuts(g.nodes[..cutIndex]) * AllReads(suffix);
    if boundary == {} {
      return Failure(NoBoundary);
    }
    SelectTail(g.nodes, cutIndex, 0);
    HeadOuts(g.nodes, cutIndex);
    var suffixInputs := SuffixInputs(g.inputs, suffix, boundary);
    ghost var sp := SplitOf(g, Indices(cutIndex), {});
    assert suffix == sp.suffix && boundary == sp.boundary;
    return Success(Split(suffix, boundary, suffixInputs));
  }

  lemma HeadOuts(nodes: seq<Node>, cut: nat)
    requires cut <= |nodes|
    ensures AllOuts(nodes[..cut]) == SelectOuts(nodes, Indices(cut)) <= AllOuts(nodes)
  {
  }

  // What the two halves compute

  lemma AncestorsClosed(nodes: seq<Node>, avail: set<Name>, cut: Name)
    requires WellFormed(nodes, avail)
    ensures Closed(nodes, Ancestors(nodes, cut))
    ensures cut in Producers(nodes) ==> cut in SelectOuts(nodes, Ancestors(nodes, cut))
  {
    ProducersSound(nodes);
    var s := Ancestors(nodes, cut);
    forall i, x | i in s && i < |nodes| && x in Reads(nodes[i]) && x in Producers(nodes)
      ensures Producers(nodes)[x] in s
    {
      var y :| Reaches(nodes, {}, cut, y) && y in Producers(nodes) && Producers(nodes)[y] == i;
      assert Edge(nodes, {}, y, x);
      ReachesExtend(nodes, {}, cut, y, x);
      assert ReachesNode(nodes, {}, cut, Producers(nodes)[x]);
    }
    if cut in Producers(nodes) {
      ReachesSelf(nodes, {}, cut);
      assert ReachesNode(nodes, {}, cut, Producers(nodes)[cut]);
    }
  }

  /** The nodes before an index of a sorted list form a closed set. */
  lemma IndexClosed(nodes: seq<Node>, avail: set<Name>, cutIndex: nat)
    requires WellFormed(nodes, avail) && cutIndex <= |nodes|
    ensures Closed(nodes, Indices(cutIndex))
  {
    forall i, x | i in Indices(cutIndex) && i < |nodes| && x in Reads(nodes[i]) && x in Producers(nodes)
      ensures Producers(nodes)[x] in Indices(cutIndex)
    {
      ReadProducedEarlier(nodes, avail, i, x);
    }
  }

  /** For a cut at a tensor, the extracted prefix is exactly the visited ancestors. */
  lemma PrefixIsAncestors(g: Graph, avail: set<Name>, cut: Name)
    requires WellFormed(g.nodes, avail) && cut in Producers(g.nodes)
    ensures Extracted(g.nodes, SplitOf(g, Ancestors(g.nodes, cut), {cut}).boundary) == Ancestors(g.nodes, cut)
  {
    var s := Ancestors(g.nodes, cut);
    var boundary := SplitOf(g, s, {cut}).boundary;
    AncestorsClosed(g.nodes, avail, cut);
    forall o | o in boundary ensures forall i :: ReachesNode(g.nodes, {}, o, i) ==> i in s {
      var i :| 0 <= i < |g.nodes| && i in s && o in Outs(g.nodes[i]);
      ProducersUnique(g.nodes, avail, i, o);
      ClosedReaches(g.nodes, s, o);
    }
    assert cut in boundary;
  }

  /** Everything the prefix model is given: fed inputs override initializers of the same name. */
  function Feed(g: Graph, inputs: Env): Env {
    g.inits + inputs
  }

  function SuffixFeed(g: Graph, sp: Split, inputs: Env, prefix: Env): Env {
    g.inits + (map x | x in inputs && x in sp.suffixInputs :: inputs[x])
      + (map x | x in prefix && x in sp.boundary :: prefix[x])
  }

  /**
    An initializer that the caller overrides, although the suffix does not read it, and so does not take it as
    input.
  */
  predicate Stale(g: Graph, sp: Split, inputs: Env, o: Name) {
    o in inputs && o in g.inits && o !in AllReads(sp.suffix)
  }

  /** `o` is produced by the suffix or handed to it. */
  predicate Survives(g: Graph, cut: set<nat>, sp: Split, o: Name) {
    && (o in SelectOuts(g.nodes, cut) ==> o in sp.boundary)
    && (o in g.inputs && o !in g.inits ==> o in AllReads(sp.suffix))
  }

  lemma {:induction false} KeepMembers(xs: seq<Name>, s: set<Name>)
    ensures forall x :: x in Keep(xs, s) <==> x in xs && x in s
  {
    if xs != [] { KeepMembers(xs[1..], s); }
  }

  /** What an extracted node reads is available or comes from an earlier extracted node. */
  lemma ExtractedRead(nodes: seq<Node>, avail: set<Name>, outs: set<Name>, i: nat, x: Name)
    requires WellFormed(nodes, avail) && outs <= AllOuts(nodes)
    requires i < |nodes| && i in Extracted(nodes, outs) && x in Reads(nodes[i])
    ensures x in avail || exists j :: 0 <= j < i && j in Extracted(nodes, outs) && x in Outs(nodes[j])
  {
    ReadProducedEarlier(nodes, avail, i, x);
    if x !in avail {
      var o :| o in outs && ReachesNode(nodes, {}, o, i);
      var y :| Reaches(nodes, {}, o, y) && y in Producers(nodes) && Producers(nodes)[y] == i;
      assert Edge(nodes, {}, y, x);
      ReachesExtend(nodes, {}, o, y, x);
      assert ReachesNode(nodes, {}, o, Producers(nodes)[x]);
    }
  }

  lemma ExtractedProduces(nodes: seq<Node>, outs: set<Name>)
    requires outs <= AllOuts(nodes)
    ensures outs <= SelectOuts(nodes, Extracted(nodes, outs))
  {
    ProducersSound(nodes);
    forall o | o in outs ensures o in SelectOuts(nodes, Extracted(nodes, outs)) {
      ReachesSelf(nodes, {}, o);
      assert ReachesNode(nodes, {}, o, Producers(nodes)[o]);
    }
  }

  lemma ExtractedRuns(m: Interp, nodes: seq<Node>, full: Env, outs: set<Name>)
    requires WellFormed(nodes, full.Keys) && outs <= AllOuts(nodes)
    ensures var p := Eval(m, Select(nodes, Extracted(nodes, outs), 0), full);
      SubMap(p, Eval(m, nodes, full)) && outs <= p.Keys
  {
    EvalSolves(m, nodes, full);
    ExtractedProduces(nodes, outs);
    SelectEval(m, nodes, full, Extracted(nodes, outs), full) by {
      forall i, x | 0 <= i < |nodes| && i in Extracted(nodes, outs) && x in Reads(nodes[i])
        ensures x in full || exists j :: 0 <= j < i && j in Extracted(nodes, outs) && x in Outs(nodes[j])
      {
        ExtractedRead(nodes, full.Keys, outs, i, x);
      }
    }
  }

  /** The two halves of a split of `g` run on `inputs`. */
  function Original(m: Interp, g: Graph, inputs: Env): Env {
    Eval(m, g.nodes, Feed(g, inputs))
  }

  ghost function PrefixRun(m: Interp, g: Graph, sp: Split, inputs: Env): Env {
    Eval(m, Select(g.nodes, Extracted(g.nodes, sp.boundary), 0), Feed(g, inputs))
  }

  ghost function SuffixStart(m: Interp, g: Graph, sp: Split, inputs: Env): Env {
    SuffixFeed(g, sp, inputs, PrefixRun(m, g, sp, inputs))
  }

  /** Every graph input is fed, except perhaps those with an initializer, and nothing else is. */
  predicate Fed(g: Graph, inputs: Env) {
    && (forall x :: x in inputs ==> x in g.inputs)
    && (forall x :: x in g.inputs && x !in g.inits ==> x in inputs)
  }

  ghost predicate Splittable(g: Graph, cut: set<nat>, extra: set<Name>, inputs: Env) {
    && Fed(g, inputs) && WellFormed(g.nodes, Feed(g, inputs).Keys)
    && Closed(g.nodes, cut) && extra <= SelectOuts(g.nodes, cut)
  }

  /** What the suffix would be given if overridden initializers it does not read were overridden too. */
  function Corrected(g: Graph, sp: Split, inputs: Env, start: Env): Env {
    start + map x | x in inputs && Stale(g, sp, inputs, x) :: inputs[x]
  }

  /** The suffix of a split, the values the prefix hands it, and the values e of the original graph. */
  ghost predicate Handover(g: Graph, sp: Split, inputs: Env, prefix: Env, e: Env) {
    && sp.suffixInputs == Keep(g.inputs, sp.boundary + AllReads(sp.suffix)) && sp.boundary <= prefix.Keys
    && Fed(g, inputs) && sp.boundary !! Feed(g, inputs).Keys
    && SubMap(Feed(g, inputs), e) && SubMap(prefix, e)
  }

  lemma FeedKeys(g: Graph, sp: Split, inputs: Env, prefix: Env, e: Env)
    requires Handover(g, sp, inputs, prefix, e)
    ensures SuffixFeed(g, sp, inputs, prefix).Keys == g.inits.Keys + (inputs.Keys * AllReads(sp.suffix)) + sp.boundary
  {
    KeepMembers(g.inputs, sp.boundary + AllReads(sp.suffix));
    assert forall x :: x in inputs ==> (x in sp.suffixInputs <==> x in AllReads(sp.suffix));
  }

  lemma FeedValues(g: Graph, sp: Split, inputs: Env, prefix: Env, e: Env, x: Name)
    requires Handover(g, sp, inputs, prefix, e) && x in SuffixFeed(g, sp, inputs, prefix)
    ensures x in e && SuffixFeed(g, sp, inputs, prefix)[x] == if Stale(g, sp, inputs, x) then g.inits[x] else e[x]
  {
    KeepMembers(g.inputs, sp.boundary + AllReads(sp.suffix));
    if x in sp.boundary {
      assert SuffixFeed(g, sp, inputs, prefix)[x] == prefix[x];
    } else if x in inputs {
      assert Feed(g, inputs)[x] == inputs[x];
    } else {
      assert Feed(g, inputs)[x] == g.inits[x];
    }
  }

  lemma SuffixFeedAgrees(g: Graph, sp: Split, inputs: Env, prefix: Env, e: Env)
    requires Handover(g, sp, inputs, prefix, e)
    ensures StartOk(g, sp, inputs, SuffixFeed(g, sp, inputs, prefix), e)
  {
    var start := SuffixFeed(g, sp, inputs, prefix);
    FeedKeys(g, sp, inputs, prefix, e);
    forall x | x in start ensures x in e && start[x] == if Stale(g, sp, inputs, x) then g.inits[x] else e[x] {
      FeedValues(g, sp, inputs, prefix, e, x);
    }
    forall x | x in inputs && Stale(g, sp, inputs, x) ensures x in e && inputs[x] == e[x] {
      assert Feed(g, inputs)[x] == inputs[x];
    }
  }

  /** Stale initializers have their own value, everything else the original one. */
  ghost predicate StartOk(g: Graph, sp: Split, inputs: Env, start: Env, e: Env) {
    && SubMap(Corrected(g, sp, inputs, start), e)
    && start.Keys == Corrected(g, sp, inputs, start).Keys
       == g.inits.Keys + (inputs.Keys * AllReads(sp.suffix)) + sp.boundary
    && (forall x :: x in start && Stale(g, sp, inputs, x) ==> start[x] == g.inits[x])
    && (forall x :: x in start && !Stale(g, sp, inputs, x) ==> start[x] == Corrected(g, sp, inputs, start)[x])
  }

  /** Values that are never read make no difference elsewhere. */
  lemma {:induction false} UnreadIrrelevant(m: Interp, nodes: seq<Node>, a: Env, b: Env, unread: set<Name>)
    requires a.Keys == b.Keys && unread !! AllReads(nodes) && forall x :: x in a && x !in unread ==> a[x] == b[x]
    ensures var p, q := Eval(m, nodes, a), Eval(m, nodes, b);
      p.Keys == q.Keys && forall x :: x in p && x !in unread ==> p[x] == q[x]
    ensures unread !! AllOuts(nodes) ==> forall x :: x in a && x in unread ==>
              x in Eval(m, nodes, a) && Eval(m, nodes, a)[x] == a[x]
  {
    if nodes != [] {
      var n := nodes[0];
      AllOutsCons(nodes);
      assert Reads(n) <= AllReads(nodes);
      assert AllReads(nodes[1..]) <= AllReads(nodes) by { ReadsTail(nodes); }
      SameArgs(n, a, b, unread);
      UnreadIrrelevant(m, nodes[1..], Exec(m, n, a), Exec(m, n, b), unread);
    }
  }

  lemma SameArgs(n: Node, a: Env, b: Env, unread: set<Name>)
    requires a.Keys == b.Keys && unread !! Reads(n) && forall x :: x in a && x !in unread ==> a[x] == b[x]
    ensures Args(n, a) == Args(n, b)
  {
    forall i | 0 <= i < |n.inputs| ensures Args(n, a)[i] == Args(n, b)[i] {
      assert n.inputs[i] != ABSENT ==> n.inputs[i] in Reads(n);
    }
  }

  lemma ReadsTail(nodes: seq<Node>)
    requires nodes != []
    ensures AllReads(nodes[1..]) <= AllReads(nodes)
  {
    forall x | x in AllReads(nodes[1..]) ensures x in AllReads(nodes) {
      var i :| 0 <= i < |nodes[1..]| && x in Reads(nodes[1..][i]);
      assert x in Reads(nodes[i + 1]);
    }
  }

  lemma BoundaryProduced(g: Graph, cut: set<nat>, extra: set<Name>, inputs: Env)
    requires Splittable(g, cut, extra, inputs)
    ensures SplitOf(g, cut, extra).boundary <= AllOuts(g.nodes)
    ensures SplitOf(g, cut, extra).boundary !! Feed(g, inputs).Keys
  {
    DisjointFromOuts(g.nodes, Feed(g, inputs).Keys);
    assert SelectOuts(g.nodes, cut) <= AllOuts(g.nodes);
  }

  lemma PrefixSupplies(m: Interp, g: Graph, cut: set<nat>, extra: set<Name>, inputs: Env)
    requires Splittable(g, cut, extra, inputs)
    ensures var sp := SplitOf(g, cut, extra);
      && sp.boundary <= PrefixRun(m, g, sp, inputs).Keys
      && SubMap(PrefixRun(m, g, sp, inputs), Original(m, g, inputs))
  {
    var sp := SplitOf(g, cut, extra);
    EvalSolves(m, g.nodes, Feed(g, inputs));
    BoundaryProduced(g, cut, extra, inputs);
    ExtractedRuns(m, g.nodes, Feed(g, inputs), sp.boundary);
  }

  lemma StartAgrees(m: Interp, g: Graph, cut: set<nat>, extra: set<Name>, inputs: Env)
    requires Splittable(g, cut, extra, inputs)
    ensures var sp := SplitOf(g, cut, extra);
      StartOk(g, sp, inputs, SuffixStart(m, g, sp, inputs), Original(m, g, inputs))
  {
    var sp := SplitOf(g, cut, extra);
    EvalSolves(m, g.nodes, Feed(g, inputs));
    PrefixSupplies(m, g, cut, extra, inputs);
    BoundaryProduced(g, cut, extra, inputs);
    SuffixFeedAgrees(g, sp, inputs, PrefixRun(m, g, sp, inputs), Original(m, g, inputs));
  }

  lemma SuffixReadsSupplied(m: Interp, g: Graph, cut: set<nat>, extra: set<Name>, inputs: Env, i: nat, x: Name)
    requires Splittable(g, cut, extra, inputs)
    requires i < |g.nodes| && i !in cut && x in Reads(g.nodes[i])
    ensures x in SuffixStart(m, g, SplitOf(g, cut, extra), inputs)
            || exists j :: 0 <= j < i && j in Indices(|g.nodes|) - cut && x in Outs(g.nodes[j])
  {
    var sp := SplitOf(g, cut, extra);
    StartAgrees(m, g, cut, extra, inputs);
    SelectMembers(g.nodes, Indices(|g.nodes|) - cut, 0);
    assert g.nodes[i] in sp.suffix;
    assert x in AllReads(sp.suffix);
    ReadProducedEarlier(g.nodes, Feed(g, inputs).Keys, i, x);
    if x !in Feed(g, inputs) {
      var j := Producers(g.nodes)[x];
      if j in cut { assert x in SelectOuts(g.nodes, cut); } else { assert j in Indices(|g.nodes|) - cut; }
    }
  }

  /** With the stale initializers corrected, the suffix computes the original values. */
  lemma CorrectedPreserves(m: Interp, g: Graph, cut: set<nat>, extra: set<Name>, inputs: Env)
    requires Splittable(g, cut, extra, inputs)
    ensures
      var sp := SplitOf(g, cut, extra);
      var start := SuffixStart(m, g, sp, inputs);
      var s := Eval(m, sp.suffix, Corrected(g, sp, inputs, start));
      && ReadsOk(sp.suffix, start.Keys) && SubMap(s, Original(m, g, inputs))
      && forall o :: o in Original(m, g, inputs) ==> (o in s <==> Survives(g, cut, sp, o))
  {
    var sp := SplitOf(g, cut, extra);
    var full, start := Feed(g, inputs), SuffixStart(m, g, sp, inputs);
    var env, rest := Corrected(g, sp, inputs, start), Indices(|g.nodes|) - cut;
    StartAgrees(m, g, cut, extra, inputs);
    forall i, x | 0 <= i < |g.nodes| && i in rest && x in Reads(g.nodes[i])
      ensures x in env || exists j :: 0 <= j < i && j in rest && x in Outs(g.nodes[j])
    {
      SuffixReadsSupplied(m, g, cut, extra, inputs, i, x);
    }
    SelectEval(m, g.nodes, full, rest, env);
    SelectReadsOk(g.nodes, rest, 0, env.Keys);
    EvalSolves(m, g.nodes, full);
    forall o | o in Original(m, g, inputs)
      ensures o in env.Keys + SelectOuts(g.nodes, rest) <==> Survives(g, cut, sp, o)
    {
      OutputSides(g, full.Keys, cut, o);
    }
  }

  /**
    What the suffix gives for a tensor of the original graph: nothing if it does not survive the
    cut, its own initializer if that is stale, and the original value otherwise.
  */
  predicate Kept(g: Graph, cut: set<nat>, sp: Split, inputs: Env, original: Env, s: Env, o: Name)
    requires o in original
  {
    if !Survives(g, cut, sp, o) then o !in s
    else o in s && s[o] == if Stale(g, sp, inputs, o) then g.inits[o] else original[o]
  }

  /**
    Splitting preserves meaning: for every closed set of cut nodes, the prefix supplies all
    boundary tensors, every read of the suffix is available in order, and every tensor of the
    original graph is kept.
  */
  lemma SplitPreserves(m: Interp, g: Graph, cut: set<nat>, extra: set<Name>, inputs: Env)
    requires Splittable(g, cut, extra, inputs)
    ensures
      var sp := SplitOf(g, cut, extra);
      var s := Eval(m, sp.suffix, SuffixStart(m, g, sp, inputs));
      && sp.boundary <= PrefixRun(m, g, sp, inputs).Keys
      && ReadsOk(sp.suffix, SuffixStart(m, g, sp, inputs).Keys)
      && forall o :: o in Original(m, g, inputs) ==> Kept(g, cut, sp, inputs, Original(m, g, inputs), s, o)
  {
    var sp := SplitOf(g, cut, extra);
    var start := SuffixStart(m, g, sp, inputs);
    var stale := set x | x in inputs && Stale(g, sp, inputs, x);
    PrefixSupplies(m, g, cut, extra, inputs);
    StartAgrees(m, g, cut, extra, inputs);
    CorrectedPreserves(m, g, cut, extra, inputs);
    StaleNotProduced(g, cut, extra, inputs);
    UnreadIrrelevant(m, sp.suffix, start, Corrected(g, sp, inputs, start), stale);
    forall o | o in Original(m, g, inputs)
      ensures Kept(g, cut, sp, inputs, Original(m, g, inputs), Eval(m, sp.suffix, start), o)
    {
      KeptFrom(g, cut, sp, inputs, Original(m, g, inputs), Eval(m, sp.suffix, start),
               Eval(m, sp.suffix, Corrected(g, sp, inputs, start)), stale, o);
    }
  }

  lemma KeptFrom(g: Graph, cut: set<nat>, sp: Split, inputs: Env, original: Env, s: Env, corrected: Env,
                 stale: set<Name>, o: Name)
    requires o in original && s.Keys == corrected.Keys && SubMap(corrected, original)
    requires o in corrected <==> Survives(g, cut, sp, o)
    requires o in stale <==> Stale(g, sp, inputs, o)
    requires o in s && o !in stale ==> s[o] == corrected[o]
    requires o in s && o in stale ==> s[o] == g.inits[o]
    ensures Kept(g, cut, sp, inputs, original, s, o)
  {
  }

  lemma StaleNotProduced(g: Graph, cut: set<nat>, extra: set<Name>, inputs: Env)
    requires Splittable(g, cut, extra, inputs)
    ensures inputs.Keys !! AllOuts(SplitOf(g, cut, extra).suffix)
  {
    var rest := Indices(|g.nodes|) - cut;
    DisjointFromOuts(g.nodes, Feed(g, inputs).Keys);
    SelectAllOuts(g.nodes, rest);
    assert SelectOuts(g.nodes, rest) <= AllOuts(g.nodes);
  }

  /** A boundary tensor is `extra`, or produced by a cut node and read by one that is not cut; nothing else is. */
  lemma BoundaryExact(g: Graph, cut: set<nat>, extra: set<Name>, x: Name)
    ensures x in SplitOf(g, cut, extra).boundary <==>
      x in extra || exists i, j :: 0 <= i < |g.nodes| && i in cut && x in Outs(g.nodes[i])
                                   && 0 <= j < |g.nodes| && j !in cut && x in Reads(g.nodes[j])
  {
    var rest := Indices(|g.nodes|) - cut;
    var suffix := Select(g.nodes, rest, 0);
    SelectMembers(g.nodes, rest, 0);
    if x in AllReads(suffix) {
      var k :| 0 <= k < |suffix| && x in Reads(suffix[k]);
      assert suffix[k] in suffix;
    }
    if j :| 0 <= j < |g.nodes| && j !in cut && x in Reads(g.nodes[j]) {
      assert j in rest && g.nodes[j] in suffix;
    }
  }

  /** The split at a tensor: the prefix is the visited ancestors, and every tensor is kept. */
  lemma SplitByOutputPreserves(m: Interp, g: Graph, cut: Name, inputs: Env)
    requires Fed(g, inputs) && WellFormed(g.nodes, Feed(g, inputs).Keys) && cut in Producers(g.nodes)
    ensures
      var ancestors := Ancestors(g.nodes, cut);
      var sp := SplitOf(g, ancestors, {cut});
      var s := Eval(m, sp.suffix, SuffixStart(m, g, sp, inputs));
      && Extracted(g.nodes, sp.boundary) == ancestors
      && forall o :: o in Original(m, g, inputs) ==> Kept(g, ancestors, sp, inputs, Original(m, g, inputs), s, o)
  {
    AncestorsClosed(g.nodes, Feed(g, inputs).Keys, cut);
    PrefixIsAncestors(g, Feed(g, inputs).Keys, cut);
    SplitPreserves(m, g, Ancestors(g.nodes, cut), {cut}, inputs);
  }

  lemma IndexSuffix(g: Graph, cutIndex: nat)
    requires cutIndex <= |g.nodes|
    ensures SplitOf(g, Indices(cutIndex), {}).suffix == g.nodes[cutIndex..]
  {
    SelectTail(g.nodes, cutIndex, 0);
  }

  /** The split at a node index. */
  lemma SplitByIndexPreserves(m: Interp, g: Graph, cutIndex: nat, inputs: Env)
    requires Fed(g, inputs) && WellFormed(g.nodes, Feed(g, inputs).Keys) && cutIndex <= |g.nodes|
    ensures
      var sp := SplitOf(g, Indices(cutIndex), {});
      var s := Eval(m, sp.suffix, SuffixStart(m, g, sp, inputs));
      && sp.suffix == g.nodes[cutIndex..]
      && forall o :: o in Original(m, g, inputs) ==>
           Kept(g, Indices(cutIndex), sp, inputs, Original(m, g, inputs), s, o)
  {
    IndexClosed(g.nodes, Feed(g, inputs).Keys, cutIndex);
    IndexSuffix(g, cutIndex);
    SplitPreserves(m, g, Indices(cutIndex), {}, inputs);
  }

  /** A produced name is produced by the cut or by the rest. */
  lemma ProducedOnASide(g: Graph, cut: set<nat>, o: Name)
    ensures o in AllOuts(g.nodes)
            <==> o in SelectOuts(g.nodes, cut) || o in SelectOuts(g.nodes, Indices(|g.nodes|) - cut)
  {
    if o in AllOuts(g.nodes) {
      var i :| 0 <= i < |g.nodes| && o in Outs(g.nodes[i]);
      assert i in cut || i in Indices(|g.nodes|) - cut;
    }
  }

  lemma ProducedOnOneSide(g: Graph, avail: set<Name>, cut: set<nat>, o: Name)
    requires WellFormed(g.nodes, avail) && o in SelectOuts(g.nodes, cut)
    ensures o !in SelectOuts(g.nodes, Indices(|g.nodes|) - cut)
  {
    var i :| 0 <= i < |g.nodes| && i in cut && o in Outs(g.nodes[i]);
    ProducersUnique(g.nodes, avail, i, o);
    forall j | 0 <= j < |g.nodes| && j in Indices(|g.nodes|) - cut ensures o !in Outs(g.nodes[j]) {
      if o in Outs(g.nodes[j]) { ProducersUnique(g.nodes, avail, j, o); }
    }
  }

  /** Each name of the graph is available from the start, produced by the cut, or produced by the rest. */
  lemma OutputSides(g: Graph, avail: set<Name>, cut: set<nat>, o: Name)
    requires WellFormed(g.nodes, avail) && o in avail + AllOuts(g.nodes)
    ensures o in AllOuts(g.nodes)
            <==> o in SelectOuts(g.nodes, cut) || o in SelectOuts(g.nodes, Indices(|g.nodes|) - cut)
    ensures !(o in SelectOuts(g.nodes, cut) && o in SelectOuts(g.nodes, Indices(|g.nodes|) - cut))
    ensures o in avail <==> o !in AllOuts(g.nodes)
  {
    DisjointFromOuts(g.nodes, avail);
    ProducedOnASide(g, cut, o);
    if o in SelectOuts(g.nodes, cut) { ProducedOnOneSide(g, avail, cut, o); }
  }
}
