/**
  scripts/surgery_matcha_acoustic.py, fix_length_scale_type: the float input `length_scale`
  becomes an integer input holding thousandths, and every consumer reads a Cast followed by
  a division by 1000 instead.
*/
module MatchaLengthScale {
  import opened Graphs
  import opened Onnx
  import opened OnnxModels
  import opened Rewriting
  import opened Tensors
  import opened Wrappers

  /** The names the surgery looks for and generates. */
  datatype Naming = Naming(
    source: Name,
    divConst: Name,
    castName: nat -> Name,
    castOut: nat -> Name,
    divName: nat -> Name,
    divOut: nat -> Name)

  // Generated names

  /** Generated tensor names are pairwise different and non-empty. */
  ghost predicate Distinct(nm: Naming) {
    && (forall i, j :: nm.castOut(i) != nm.divOut(j))
    && (forall i, j :: nm.castOut(i) == nm.castOut(j) ==> i == j)
    && (forall i, j :: nm.divOut(i) == nm.divOut(j) ==> i == j)
    && (forall i :: nm.castOut(i) != ABSENT && nm.divOut(i) != ABSENT)
    && nm.source != ABSENT && nm.divConst != ABSENT && nm.source != nm.divConst
    && (forall i :: nm.castOut(i) != nm.divConst && nm.divOut(i) != nm.divConst)
  }

  /** Names generated for consumers number a to b - 1. */
  function NewNames(nm: Naming, a: nat, b: nat): set<Name> {
    if a >= b then {} else NewNames(nm, a, b - 1) + {nm.castOut(b - 1), nm.divOut(b - 1)}
  }

  lemma {:induction false} NewNamesHas(nm: Naming, a: nat, b: nat, k: nat)
    requires a <= k < b
    ensures nm.castOut(k) in NewNames(nm, a, b) && nm.divOut(k) in NewNames(nm, a, b)
  {
    if k < b - 1 { NewNamesHas(nm, a, b - 1, k); }
  }

  lemma {:induction false} NewNamesOnly(nm: Naming, a: nat, b: nat)
    ensures forall x :: x in NewNames(nm, a, b) ==> exists k :: a <= k < b && (x == nm.castOut(k) || x == nm.divOut(k))
  {
    if a < b { NewNamesOnly(nm, a, b - 1); }
  }

  lemma {:induction false} NewNamesApart(nm: Naming, a: nat, b: nat, c: nat)
    requires Distinct(nm) && a <= b <= c
    ensures NewNames(nm, a, b) !! NewNames(nm, b, c) && NewNames(nm, a, b) + NewNames(nm, b, c) == NewNames(nm, a, c)
  {
    NewNamesOnly(nm, a, b);
    if b < c { NewNamesApart(nm, a, b, c - 1); }
  }

  // The rewritten list, given as a function of the old one

  function CastNode(nm: Naming, i: nat): Node {
    Node(nm.castName(i), CastFloat, [nm.source], [nm.castOut(i)])
  }

  function DivNode(nm: Naming, i: nat): Node {
    Node(nm.divName(i), Div, [nm.castOut(i), nm.divConst], [nm.divOut(i)])
  }

  /** How many inputs are `length_scale`. */
  function Uses(nm: Naming, inputs: seq<Name>): nat {
    if inputs == [] then 0 else (if inputs[0] == nm.source then 1 else 0) + Uses(nm, inputs[1..])
  }

  function TotalUses(nm: Naming, nodes: seq<Node>): nat {
    if nodes == [] then 0 else Uses(nm, nodes[0].inputs) + TotalUses(nm, nodes[1..])
  }

  /** Uses are numbered from i; those numbered below `limit` are redirected. */
  function Redirect(nm: Naming, inputs: seq<Name>, i: nat, limit: nat): seq<Name> {
    if inputs == [] then []
    else if inputs[0] == nm.source then
      [if i < limit then nm.divOut(i) else nm.source] + Redirect(nm, inputs[1..], i + 1, limit)
    else [inputs[0]] + Redirect(nm, inputs[1..], i, limit)
  }

  function Scalers(nm: Naming, a: nat, b: nat): seq<Node> {
    if a >= b then [] else Scalers(nm, a, b - 1) + [CastNode(nm, b - 1), DivNode(nm, b - 1)]
  }

  function Min(a: nat, b: nat): nat {
    if a <= b then a else b
  }

  /** The scalers of a node's redirected uses, then the node itself. */
  function ScaledBlock(nm: Naming, n: Node, i: nat, limit: nat): seq<Node> {
    Scalers(nm, i, Min(limit, i + Uses(nm, n.inputs))) + [n.(inputs := Redirect(nm, n.inputs, i, limit))]
  }

  function Scaled(nm: Naming, nodes: seq<Node>, i: nat, limit: nat): seq<Node> {
    if nodes == [] then []
    else ScaledBlock(nm, nodes[0], i, limit) + Scaled(nm, nodes[1..], i + Uses(nm, nodes[0].inputs), limit)
  }

  // The insertion loop computes it

  function ConsumersOf(nm: Naming, inputs: seq<Name>, j: nat, idx: nat): seq<(nat, nat)> {
    if inputs == [] then []
    else (if inputs[0] == nm.source then [(j, idx)] else []) + ConsumersOf(nm, inputs[1..], j, idx + 1)
  }

  function Consumers(nm: Naming, nodes: seq<Node>, j: nat): seq<(nat, nat)> {
    if nodes == [] then [] else ConsumersOf(nm, nodes[0].inputs, j, 0) + Consumers(nm, nodes[1..], j + 1)
  }

  lemma {:induction false} ConsumersOfAt(nm: Naming, inputs: seq<Name>, j: nat, idx: nat)
    ensures |ConsumersOf(nm, inputs, j, idx)| == Uses(nm, inputs)
    ensures forall k :: 0 <= k < Uses(nm, inputs) ==> var c := ConsumersOf(nm, inputs, j, idx)[k];
              c.0 == j && idx <= c.1 < idx + |inputs| && inputs[c.1 - idx] == nm.source
  {
    if inputs != [] { ConsumersOfAt(nm, inputs[1..], j, idx + 1); }
  }

  lemma {:induction false} RedirectLength(nm: Naming, inputs: seq<Name>, i: nat, limit: nat)
    ensures |Redirect(nm, inputs, i, limit)| == |inputs|
    ensures limit <= i ==> Redirect(nm, inputs, i, limit) == inputs
  {
    if inputs != [] {
      RedirectLength(nm, inputs[1..], i + 1, limit);
      RedirectLength(nm, inputs[1..], i, limit);
    }
  }

  lemma RedirectFirst(nm: Naming, inputs: seq<Name>, j: nat, idx: nat, i: nat)
    requires inputs != [] && inputs[0] == nm.source
    ensures |ConsumersOf(nm, inputs, j, idx)| > 0 && ConsumersOf(nm, inputs, j, idx)[0] == (j, idx)
    ensures |Redirect(nm, inputs, i, i)| == |inputs|
    ensures Redirect(nm, inputs, i, i + 1) == Redirect(nm, inputs, i, i)[0 := nm.divOut(i)]
  {
    RedirectLength(nm, inputs[1..], i + 1, i);
    RedirectLength(nm, inputs[1..], i + 1, i + 1);
  }

  lemma RedirectTail(nm: Naming, inputs: seq<Name>, j: nat, idx: nat, i: nat, i': nat, limit: nat)
    requires inputs != [] && i <= limit && (inputs[0] == nm.source ==> i < limit)
    requires i' == if inputs[0] == nm.source then i + 1 else i
    requires limit - i' < |ConsumersOf(nm, inputs[1..], j, idx + 1)|
             && |Redirect(nm, inputs[1..], i', limit)| == |inputs| - 1
    requires var c := ConsumersOf(nm, inputs[1..], j, idx + 1)[limit - i'];
      idx < c.1 < idx + |inputs|
      && Redirect(nm, inputs[1..], i', limit + 1)
         == Redirect(nm, inputs[1..], i', limit)[c.1 - idx - 1 := nm.divOut(limit)]
    ensures limit - i < |ConsumersOf(nm, inputs, j, idx)| && |Redirect(nm, inputs, i, limit)| == |inputs|
    ensures ConsumersOf(nm, inputs, j, idx)[limit - i] == ConsumersOf(nm, inputs[1..], j, idx + 1)[limit - i']
    ensures Redirect(nm, inputs, i, limit + 1)
            == Redirect(nm, inputs, i, limit)[ConsumersOf(nm, inputs, j, idx)[limit - i].1 - idx := nm.divOut(limit)]
  {
  }

  /** Raising the limit by one redirects one more use. */
  lemma {:induction false} RedirectStep(nm: Naming, inputs: seq<Name>, j: nat, idx: nat, i: nat, limit: nat)
    requires i <= limit < i + Uses(nm, inputs)
    ensures |ConsumersOf(nm, inputs, j, idx)| == Uses(nm, inputs) && |Redirect(nm, inputs, i, limit)| == |inputs|
    ensures var c := ConsumersOf(nm, inputs, j, idx)[limit - i];
      idx <= c.1 < idx + |inputs|
      && Redirect(nm, inputs, i, limit + 1) == Redirect(nm, inputs, i, limit)[c.1 - idx := nm.divOut(limit)]
  {
    ConsumersOfAt(nm, inputs, j, idx);
    RedirectLength(nm, inputs, i, limit);
    var rest := inputs[1..];
    if inputs[0] == nm.source && limit == i {
      RedirectFirst(nm, inputs, j, idx, i);
    } else {
      var i' := if inputs[0] == nm.source then i + 1 else i;
      RedirectStep(nm, rest, j, idx + 1, i', limit);
      RedirectTail(nm, inputs, j, idx, i, i', limit);
    }
  }

  lemma {:induction false} ScalersLength(nm: Naming, a: nat, b: nat)
    requires a <= b
    ensures |Scalers(nm, a, b)| == 2 * (b - a)
  {
    if a < b { ScalersLength(nm, a, b - 1); }
  }

  lemma {:induction false} ScaledNothing(nm: Naming, nodes: seq<Node>, i: nat, limit: nat)
    requires limit <= i
    ensures Scaled(nm, nodes, i, limit) == nodes
  {
    if nodes != [] {
      RedirectLength(nm, nodes[0].inputs, i, limit);
      ScaledNothing(nm, nodes[1..], i + Uses(nm, nodes[0].inputs), limit);
    }
  }

  /** One turn of the loop: replace the node at `pos` by Cast, Div and the node with one input redirected. */
  function InsertScaler(nm: Naming, nodes: seq<Node>, pos: nat, idx: nat, i: nat): seq<Node>
    requires pos < |nodes| && idx < |nodes[pos].inputs|
  {
    nodes[..pos] + [CastNode(nm, i), DivNode(nm, i), nodes[pos].(inputs := nodes[pos].inputs[idx := nm.divOut(i)])]
        + nodes[pos + 1..]
  }

  lemma InsertHere(nm: Naming, head: seq<Node>, n: Node, tail: seq<Node>, idx: nat, i: nat)
    requires idx < |n.inputs|
    ensures InsertScaler(nm, head + [n] + tail, |head|, idx, i)
            == head + [CastNode(nm, i), DivNode(nm, i)] + [n.(inputs := n.inputs[idx := nm.divOut(i)])] + tail
  {
  }

  /** Where consumer number `limit` stands when all earlier ones have their scalers. */
  ghost predicate StepsTo(nm: Naming, before: seq<Node>, after: seq<Node>, pos: int, idx: nat, i: nat) {
    0 <= pos < |before| && idx < |before[pos].inputs| && after == InsertScaler(nm, before, pos, idx, i)
  }

  lemma StepInside(nm: Naming, n: Node, rest: seq<Node>, i: nat, limit: nat)
    requires i <= limit < i + Uses(nm, n.inputs)
    ensures |ConsumersOf(nm, n.inputs, 0, 0)| == Uses(nm, n.inputs)
    ensures StepsTo(nm, ScaledBlock(nm, n, i, limit) + rest, ScaledBlock(nm, n, i, limit + 1) + rest,
                    2 * (limit - i), ConsumersOf(nm, n.inputs, 0, 0)[limit - i].1, limit)
  {
    ScalersLength(nm, i, limit);
    RedirectStep(nm, n.inputs, 0, 0, i, limit);
    var n' := n.(inputs := Redirect(nm, n.inputs, i, limit));
    InsertHere(nm, Scalers(nm, i, limit), n', rest, ConsumersOf(nm, n.inputs, 0, 0)[limit - i].1, limit);
  }

  lemma {:induction false} ConsumersOfShift(nm: Naming, inputs: seq<Name>, j: nat, idx: nat)
    ensures |ConsumersOf(nm, inputs, j, idx)| == |ConsumersOf(nm, inputs, 0, idx)|
    ensures forall k :: 0 <= k < |ConsumersOf(nm, inputs, j, idx)| ==>
              ConsumersOf(nm, inputs, j, idx)[k] == (j, ConsumersOf(nm, inputs, 0, idx)[k].1)
  {
    if inputs != [] { ConsumersOfShift(nm, inputs[1..], j, idx + 1); }
  }

  lemma BlockSettled(nm: Naming, n: Node, i: nat, limit: nat)
    requires i + Uses(nm, n.inputs) <= limit
    ensures ScaledBlock(nm, n, i, limit) == ScaledBlock(nm, n, i, limit + 1)
    ensures |ScaledBlock(nm, n, i, limit)| == 2 * Uses(nm, n.inputs) + 1
  {
    ScalersLength(nm, i, i + Uses(nm, n.inputs));
    RedirectAll(nm, n.inputs, i, limit);
  }

  lemma ScaledCons(nm: Naming, nodes: seq<Node>, i: nat, limit: nat)
    requires nodes != []
    ensures Scaled(nm, nodes, i, limit)
            == ScaledBlock(nm, nodes[0], i, limit) + Scaled(nm, nodes[1..], i + Uses(nm, nodes[0].inputs), limit)
  {
  }

  /** Consumer number `limit`, found at original position c.0, now stands 2 * limit places further. */
  ghost predicate LimitSteps(nm: Naming, nodes: seq<Node>, j: nat, i: nat, limit: nat)
    requires i <= limit < i + |Consumers(nm, nodes, j)|
  {
    var c := Consumers(nm, nodes, j)[limit - i];
    StepsTo(nm, Scaled(nm, nodes, i, limit), Scaled(nm, nodes, i, limit + 1), c.0 - j + 2 * (limit - i), c.1, limit)
  }

  lemma ConsumerHere(nm: Naming, nodes: seq<Node>, j: nat, k: nat)
    requires nodes != [] && k < Uses(nm, nodes[0].inputs) && k < |Consumers(nm, nodes, j)|
    ensures k < |ConsumersOf(nm, nodes[0].inputs, 0, 0)|
    ensures Consumers(nm, nodes, j)[k] == (j, ConsumersOf(nm, nodes[0].inputs, 0, 0)[k].1)
  {
    ConsumersOfAt(nm, nodes[0].inputs, j, 0);
    ConsumersOfShift(nm, nodes[0].inputs, j, 0);
  }

  /** While the limit is within the first node, the rest of the list is unchanged. */
  lemma ScaledHere(nm: Naming, nodes: seq<Node>, i: nat, limit: nat)
    requires nodes != [] && limit <= i + Uses(nm, nodes[0].inputs)
    ensures Scaled(nm, nodes, i, limit) == ScaledBlock(nm, nodes[0], i, limit) + nodes[1..]
  {
    ScaledCons(nm, nodes, i, limit);
    ScaledNothing(nm, nodes[1..], i + Uses(nm, nodes[0].inputs), limit);
  }

  lemma LimitStepsHere(nm: Naming, nodes: seq<Node>, j: nat, i: nat, limit: nat)
    requires nodes != [] && i <= limit < i + Uses(nm, nodes[0].inputs)
    requires limit < i + |Consumers(nm, nodes, j)|
    ensures LimitSteps(nm, nodes, j, i, limit)
  {
    ConsumerHere(nm, nodes, j, limit - i);
    StepInside(nm, nodes[0], nodes[1..], i, limit);
    SameSteps(nm, nodes, i, limit, ScaledBlock(nm, nodes[0], i, limit) + nodes[1..],
              ScaledBlock(nm, nodes[0], i, limit + 1) + nodes[1..],
              2 * (limit - i), ConsumersOf(nm, nodes[0].inputs, 0, 0)[limit - i].1) by {
      ScaledHere(nm, nodes, i, limit);
      ScaledHere(nm, nodes, i, limit + 1);
    }
  }

  lemma SameSteps(nm: Naming, nodes: seq<Node>, i: nat, limit: nat, before: seq<Node>, after: seq<Node>, pos: int,
                  idx: nat)
    requires before == Scaled(nm, nodes, i, limit) && after == Scaled(nm, nodes, i, limit + 1)
    requires StepsTo(nm, before, after, pos, idx, limit)
    ensures StepsTo(nm, Scaled(nm, nodes, i, limit), Scaled(nm, nodes, i, limit + 1), pos, idx, limit)
  {
  }

  lemma ConsumersBeyond(nm: Naming, nodes: seq<Node>, j: nat, k: nat)
    requires nodes != [] && Uses(nm, nodes[0].inputs) <= k < |Consumers(nm, nodes, j)|
    ensures var u := Uses(nm, nodes[0].inputs);
      k - u < |Consumers(nm, nodes[1..], j + 1)|
      && Consumers(nm, nodes[1..], j + 1)[k - u] == Consumers(nm, nodes, j)[k]
  {
    ConsumersOfAt(nm, nodes[0].inputs, j, 0);
  }

  lemma ScaledBeyond(nm: Naming, nodes: seq<Node>, i: nat, limit: nat)
    requires nodes != [] && i + Uses(nm, nodes[0].inputs) <= limit
    ensures var i', head := i + Uses(nm, nodes[0].inputs), ScaledBlock(nm, nodes[0], i, limit);
      && |head| == 2 * Uses(nm, nodes[0].inputs) + 1
      && Scaled(nm, nodes, i, limit) == head + Scaled(nm, nodes[1..], i', limit)
      && Scaled(nm, nodes, i, limit + 1) == head + Scaled(nm, nodes[1..], i', limit + 1)
  {
    BlockSettled(nm, nodes[0], i, limit);
    ScaledCons(nm, nodes, i, limit);
    ScaledCons(nm, nodes, i, limit + 1);
  }

  /** A list that both before and after the step starts with the same block. */
  lemma BehindHead(nm: Naming, head: seq<Node>, tail: seq<Node>, tail': seq<Node>, before: seq<Node>, after: seq<Node>,
                   pos: int, at: int, idx: nat, limit: nat)
    requires StepsTo(nm, tail, tail', pos, idx, limit) && at == |head| + pos
    requires before == head + tail && after == head + tail'
    ensures StepsTo(nm, before, after, at, idx, limit)
  {
  }

  lemma LimitStepsBeyond(nm: Naming, nodes: seq<Node>, i: nat, limit: nat, tail: seq<Node>, tail': seq<Node>,
                         pos: int, idx: nat)
    requires nodes != [] && i + Uses(nm, nodes[0].inputs) <= limit
    requires tail == Scaled(nm, nodes[1..], i + Uses(nm, nodes[0].inputs), limit)
    requires tail' == Scaled(nm, nodes[1..], i + Uses(nm, nodes[0].inputs), limit + 1)
    requires StepsTo(nm, tail, tail', pos, idx, limit)
    ensures StepsTo(nm, Scaled(nm, nodes, i, limit), Scaled(nm, nodes, i, limit + 1),
                    pos + 2 * Uses(nm, nodes[0].inputs) + 1, idx, limit)
  {
    ScaledBeyond(nm, nodes, i, limit);
    var head := ScaledBlock(nm, nodes[0], i, limit);
    BehindHead(nm, head, tail, tail', Scaled(nm, nodes, i, limit), Scaled(nm, nodes, i, limit + 1), pos, pos + |head|,
               idx, limit);
  }

  lemma {:induction false} ScaledStep(nm: Naming, nodes: seq<Node>, j: nat, i: nat, limit: nat)
    requires i <= limit < i + |Consumers(nm, nodes, j)|
    ensures LimitSteps(nm, nodes, j, i, limit)
  {
    if limit < i + Uses(nm, nodes[0].inputs) {
      LimitStepsHere(nm, nodes, j, i, limit);
    } else {
      var i' := i + Uses(nm, nodes[0].inputs);
      ConsumersBeyond(nm, nodes, j, limit - i);
      ScaledStep(nm, nodes[1..], j + 1, i', limit);
      var c := Consumers(nm, nodes, j)[limit - i];
      LimitStepsBeyond(nm, nodes, i, limit, Scaled(nm, nodes[1..], i', limit), Scaled(nm, nodes[1..], i', limit + 1),
                       c.0 - (j + 1) + 2 * (limit - i'), c.1);
    }
  }

  lemma LoopStep(nm: Naming, nodes: seq<Node>, i: nat)
    requires i < |Consumers(nm, nodes, 0)|
    ensures var c := Consumers(nm, nodes, 0)[i];
      StepsTo(nm, Scaled(nm, nodes, 0, i), Scaled(nm, nodes, 0, i + 1), c.0 + 2 * i, c.1, i)
  {
    ScaledStep(nm, nodes, 0, 0, i);
  }

  /** Once every use of a node is redirected, the limit no longer matters. */
  lemma {:induction false} RedirectAll(nm: Naming, inputs: seq<Name>, i: nat, limit: nat)
    requires i + Uses(nm, inputs) <= limit
    ensures Redirect(nm, inputs, i, limit) == Redirect(nm, inputs, i, limit + 1)
  {
    if inputs != [] {
      RedirectAll(nm, inputs[1..], if inputs[0] == nm.source then i + 1 else i, limit);
    }
  }

  method FindConsumers(nm: Naming, nodes: seq<Node>) returns (r: seq<(nat, nat)>)
    ensures r == Consumers(nm, nodes, 0)
  {
    r := [];
    for j := 0 to |nodes|
      invariant r + Consumers(nm, nodes[j..], j) == Consumers(nm, nodes, 0)
    {
      var xs := nodes[j].inputs;
      ghost var before := r;
      for idx := 0 to |xs|
        invariant r + ConsumersOf(nm, xs[idx..], j, idx) == before + ConsumersOf(nm, xs, j, 0)
      {
        if xs[idx] == nm.source {
          r := r + [(j, idx)];
        }
      }
      assert nodes[j..][1..] == nodes[j + 1..];
      assert r == before + ConsumersOf(nm, xs, j, 0);
    }
  }

  function FirstInput(inputs: seq<Input>, name: Name): (k: nat)
    ensures k <= |inputs|
  {
    if inputs == [] || inputs[0].name == name then 0 else 1 + FirstInput(inputs[1..], name)
  }

  function ThousandTensor(): Value {
    Floats(Tensor([1], [1000.0]))
  }

  lemma ThreeEdits(nm: Naming, nodes: seq<Node>, pos: nat, idx: nat, i: nat)
    requires pos < |nodes| && idx < |nodes[pos].inputs|
    ensures var a := nodes[pos := nodes[pos].(inputs := nodes[pos].inputs[idx := nm.divOut(i)])];
      var b := a[..pos] + [DivNode(nm, i)] + a[pos..];
      b[..pos] + [CastNode(nm, i)] + b[pos..] == InsertScaler(nm, nodes, pos, idx, i)
  {
  }

  method RedirectConsumers(nm: Naming, model: Model)
    modifies model`nodes
    ensures model.nodes == Scaled(nm, old(model.nodes), 0, |Consumers(nm, old(model.nodes), 0)|)
  {
    var consumers := FindConsumers(nm, model.nodes);
    ghost var orig := model.nodes;
    ScaledNothing(nm, orig, 0, 0);
    for i := 0 to |consumers|
      invariant model.nodes == Scaled(nm, orig, 0, i)
    {
      LoopStep(nm, orig, i);
      var pos, idx := consumers[i].0 + 2 * i, consumers[i].1;
      ThreeEdits(nm, model.nodes, pos, idx, i);
      var node := model.nodes[pos];
      model.nodes := model.nodes[pos := node.(inputs := node.inputs[idx := nm.divOut(i)])];
      model.nodes := model.nodes[..pos] + [DivNode(nm, i)] + model.nodes[pos..];
      model.nodes := model.nodes[..pos] + [CastNode(nm, i)] + model.nodes[pos..];
    }
  }

  method FixLengthScaleType(nm: Naming, model: Model)
    modifies model
    ensures var k := FirstInput(old(model.inputs), nm.source);
      if k == |old(model.inputs)| then
        model.inputs == old(model.inputs) && model.inits == old(model.inits) && model.nodes == old(model.nodes)
      else
        && model.inputs == old(model.inputs)[k := Input(nm.source, Int64Type)]
        && model.inits == old(model.inits)[nm.divConst := ThousandTensor()]
        && model.nodes == Scaled(nm, old(model.nodes), 0, |Consumers(nm, old(model.nodes), 0)|)
  {
    var k := 0;
    while k < |model.inputs| && model.inputs[k].name != nm.source
      invariant k <= |model.inputs|
      invariant FirstInput(model.inputs, nm.source) == k + FirstInput(model.inputs[k..], nm.source)
    {
      k := k + 1;
    }
    if k == |model.inputs| {
      return;
    }
    model.inputs := model.inputs[k := Input(nm.source, Int64Type)];
    model.inits := model.inits[nm.divConst := ThousandTensor()];
    RedirectConsumers(nm, model);
  }

  // The rewritten graph is well-formed

  lemma {:induction false} ConsumersCount(nm: Naming, nodes: seq<Node>, j: nat)
    ensures |Consumers(nm, nodes, j)| == TotalUses(nm, nodes)
  {
    if nodes != [] {
      ConsumersOfAt(nm, nodes[0].inputs, j, 0);
      ConsumersCount(nm, nodes[1..], j + 1);
    }
  }

  lemma PairWellFormed(nm: Naming, k: nat, avail: set<Name>)
    requires Distinct(nm) && nm.source in avail && nm.divConst in avail && NewNames(nm, k, k + 1) !! avail
    ensures WellFormed([CastNode(nm, k), DivNode(nm, k)], avail)
    ensures AllOuts([CastNode(nm, k), DivNode(nm, k)]) == NewNames(nm, k, k + 1)
  {
    var cast, div := CastNode(nm, k), DivNode(nm, k);
    assert NewNames(nm, k, k + 1) == {nm.castOut(k), nm.divOut(k)};
    assert Outs(cast) == {nm.castOut(k)} && Outs(div) == {nm.divOut(k)};
    Singleton(cast, avail);
    Singleton(div, avail + {nm.castOut(k)});
    WellFormedConcat([cast], [div], avail);
    AllOutsConcat([cast], [div]);
    assert [cast] + [div] == [cast, div];
  }

  lemma {:induction false} ScalersWellFormed(nm: Naming, a: nat, b: nat, avail: set<Name>)
    requires Distinct(nm) && a <= b
    requires nm.source in avail && nm.divConst in avail && NewNames(nm, a, b) !! avail
    ensures WellFormed(Scalers(nm, a, b), avail) && AllOuts(Scalers(nm, a, b)) == NewNames(nm, a, b)
  {
    if a < b {
      ScalersWellFormed(nm, a, b - 1, avail);
      NewNamesApart(nm, a, b - 1, b);
      var pair := [CastNode(nm, b - 1), DivNode(nm, b - 1)];
      PairWellFormed(nm, b - 1, avail + NewNames(nm, a, b - 1));
      WellFormedConcat(Scalers(nm, a, b - 1), pair, avail);
      AllOutsConcat(Scalers(nm, a, b - 1), pair);
    }
  }

  lemma {:induction false} RedirectReads(nm: Naming, inputs: seq<Name>, i: nat, limit: nat)
    requires i + Uses(nm, inputs) <= limit
    ensures forall x :: x in Redirect(nm, inputs, i, limit) ==>
              (x in inputs && x != nm.source) || exists k :: i <= k < i + Uses(nm, inputs) && x == nm.divOut(k)
    ensures Uses(nm, inputs) > 0 <==> nm.source in inputs
  {
    if inputs != [] {
      var i' := if inputs[0] == nm.source then i + 1 else i;
      RedirectReads(nm, inputs[1..], i', limit);
    }
  }

  lemma RedirectedReads(nm: Naming, n: Node, i: nat, limit: nat)
    requires i + Uses(nm, n.inputs) <= limit
    ensures Reads(n.(inputs := Redirect(nm, n.inputs, i, limit))) <= Reads(n) + NewNames(nm, i, i + Uses(nm, n.inputs))
    ensures Uses(nm, n.inputs) > 0 <==> nm.source in n.inputs
  {
    RedirectReads(nm, n.inputs, i, limit);
    forall x | x in Redirect(nm, n.inputs, i, limit) && x !in n.inputs
      ensures x in NewNames(nm, i, i + Uses(nm, n.inputs))
    {
      var k :| i <= k < i + Uses(nm, n.inputs) && x == nm.divOut(k);
      NewNamesHas(nm, i, i + Uses(nm, n.inputs), k);
    }
  }

  lemma BlockForm(nm: Naming, n: Node, i: nat, limit: nat)
    requires i + Uses(nm, n.inputs) <= limit
    ensures ScaledBlock(nm, n, i, limit)
            == Scalers(nm, i, i + Uses(nm, n.inputs)) + [n.(inputs := Redirect(nm, n.inputs, i, limit))]
  {
  }

  lemma JoinBlock(scalers: seq<Node>, n': Node, n: Node, avail: set<Name>, added: set<Name>)
    requires WellFormed(scalers, avail) && AllOuts(scalers) == added
    requires Reads(n') <= avail + added && n'.outputs == n.outputs
    requires NodeOk(n, Reads(n)) && Outs(n) !! avail + added
    ensures WellFormed(scalers + [n'], avail) && AllOuts(scalers + [n']) == Outs(n) + added
  {
    assert NodeOk(n', avail + added);
    Singleton(n', avail + added);
    WellFormedConcat(scalers, [n'], avail);
    AllOutsConcat(scalers, [n']);
  }

  lemma BlockWellFormed(nm: Naming, n: Node, i: nat, limit: nat, extra: set<Name>)
    requires Distinct(nm) && i + Uses(nm, n.inputs) <= limit
    requires NodeOk(n, Reads(n)) && nm.divConst in extra && Outs(n) !! extra
    requires NewNames(nm, i, i + Uses(nm, n.inputs)) !! Reads(n) + Outs(n) + extra
    ensures var block := ScaledBlock(nm, n, i, limit);
      WellFormed(block, Reads(n) + extra) && AllOuts(block) == Outs(n) + NewNames(nm, i, i + Uses(nm, n.inputs))
  {
    var u := Uses(nm, n.inputs);
    var n' := n.(inputs := Redirect(nm, n.inputs, i, limit));
    var avail, added := Reads(n) + extra, NewNames(nm, i, i + u);
    RedirectedReads(nm, n, i, limit);
    assert WellFormed(Scalers(nm, i, i + u), avail) && AllOuts(Scalers(nm, i, i + u)) == added by {
      if u == 0 {
        assert Scalers(nm, i, i + u) == [] && AllOuts([]) == {};
      } else {
        assert nm.source in Reads(n);
        ScalersWellFormed(nm, i, i + u, avail);
      }
    }
    JoinBlock(Scalers(nm, i, i + u), n', n, avail, added);
    BlockForm(nm, n, i, limit);
  }

  /** The generated names are unused, and the division constant is available. */
  ghost predicate Scalable(nm: Naming, nodes: seq<Node>, i: nat, limit: nat, avail: set<Name>, extra: set<Name>) {
    && i + TotalUses(nm, nodes) <= limit
    && WellFormed(nodes, avail) && nm.divConst in extra && extra !! AllOuts(nodes)
    && NewNames(nm, i, limit) !! avail + extra + AllOuts(nodes)
  }

  lemma ScalableTail(nm: Naming, nodes: seq<Node>, i: nat, limit: nat, avail: set<Name>, extra: set<Name>)
    requires Distinct(nm) && nodes != [] && Scalable(nm, nodes, i, limit, avail, extra)
    ensures var i' := i + Uses(nm, nodes[0].inputs);
      && i' <= limit
      && Scalable(nm, nodes[1..], i', limit, avail + Outs(nodes[0]), extra + NewNames(nm, i, i'))
      && NewNames(nm, i, i') !! avail + extra + Outs(nodes[0]) && Outs(nodes[0]) !! extra
  {
    AllOutsCons(nodes);
    NewNamesApart(nm, i, i + Uses(nm, nodes[0].inputs), limit);
    WellFormedIndex(nodes, avail);
  }

  /** The surgery keeps the list sorted and single-assignment. */
  lemma {:induction false} ScaledWellFormed(nm: Naming, nodes: seq<Node>, i: nat, limit: nat,
                                            avail: set<Name>, extra: set<Name>)
    requires Distinct(nm) && Scalable(nm, nodes, i, limit, avail, extra)
    ensures WellFormed(Scaled(nm, nodes, i, limit), avail + extra)
  {
    if nodes != [] {
      var n, rest := nodes[0], nodes[1..];
      var i' := i + Uses(nm, n.inputs);
      var added := NewNames(nm, i, i');
      ScalableTail(nm, nodes, i, limit, avail, extra);
      ScaledWellFormed(nm, rest, i', limit, avail + Outs(n), extra + added);
      ScaledJoin(nm, n, Scaled(nm, rest, i', limit), i, limit, avail, extra);
      ScaledCons(nm, nodes, i, limit);
    }
  }

  lemma ScaledJoin(nm: Naming, n: Node, tail: seq<Node>, i: nat, limit: nat, avail: set<Name>, extra: set<Name>)
    requires Distinct(nm) && i + Uses(nm, n.inputs) <= limit && NodeOk(n, avail) && nm.divConst in extra
    requires NewNames(nm, i, i + Uses(nm, n.inputs)) !! avail + extra + Outs(n) && Outs(n) !! extra
    requires WellFormed(tail, (avail + Outs(n)) + (extra + NewNames(nm, i, i + Uses(nm, n.inputs))))
    ensures WellFormed(ScaledBlock(nm, n, i, limit) + tail, avail + extra)
  {
    var added := NewNames(nm, i, i + Uses(nm, n.inputs));
    assert (avail + Outs(n)) + (extra + added) == avail + Outs(n) + extra + added;
    BlockWellFormed(nm, n, i, limit, extra);
    ExpandStep(n, ScaledBlock(nm, n, i, limit), tail, avail, extra, added);
  }

  // The rewritten graph computes the same values

  /** m / 1000, as the division by a one-element vector computes it. */
  function Thousandths(t: Tensor<int>): Value {
    Floats(Tensor(if t.dims == [] then [1] else t.dims,
                  seq(|t.data|, i requires 0 <= i < |t.data| => t.data[i] as real / 1000.0)))
  }

  lemma {:induction false} ScalersIn(nm: Naming, a: nat, b: nat, k: nat)
    requires a <= k < b
    ensures CastNode(nm, k) in Scalers(nm, a, b) && DivNode(nm, k) in Scalers(nm, a, b)
  {
    var head := Scalers(nm, a, b - 1);
    if k < b - 1 {
      ScalersIn(nm, a, b - 1, k);
    } else {
      var all := head + [CastNode(nm, k), DivNode(nm, k)];
      assert all[|head|] == CastNode(nm, k) && all[|head| + 1] == DivNode(nm, k);
    }
  }

  /** In a solution, each Cast-Div pair turns the integer into thousandths. */
  lemma PairValue(m: Interp, nm: Naming, k: nat, e: Env, t: Tensor<int>)
    requires Distinct(nm) && Solves(m, CastNode(nm, k), e) && Solves(m, DivNode(nm, k), e)
    requires nm.source in e && e[nm.source] == Ints(t)
    requires nm.divConst in e && e[nm.divConst] == ThousandTensor()
    ensures nm.divOut(k) in e && e[nm.divOut(k)] == Thousandths(t)
  {
    var cast, div := CastNode(nm, k), DivNode(nm, k);
    assert nm.castOut(k) in Outs(cast) && nm.divOut(k) in Outs(div);
    assert Args(cast, e) == [Some(Ints(t))];
    assert e[nm.castOut(k)] == Floats(ToFloats(t));
    assert Args(div, e) == [Some(Floats(ToFloats(t))), Some(ThousandTensor())];
    assert HasFloats(Some(ThousandTensor()), 1) by { Product1([1]); }
    assert Sem(m, Div, Args(div, e), 0) == Thousandths(t);
  }

  /** A redirected node sees, in a solution of the new graph, what the old node sees with the scaled input. */
  lemma {:induction false} RedirectArgs(nm: Naming, inputs: seq<Name>, i: nat, limit: nat, e: Env, v: Value, k: nat)
    requires i + Uses(nm, inputs) <= limit && nm.source != ABSENT && k < |inputs|
    requires forall l :: i <= l < i + Uses(nm, inputs) ==>
               nm.divOut(l) != ABSENT && nm.divOut(l) in e && e[nm.divOut(l)] == v
    ensures |Redirect(nm, inputs, i, limit)| == |inputs|
    ensures Lookup(e, Redirect(nm, inputs, i, limit)[k]) == Lookup(e[nm.source := v], inputs[k])
  {
    RedirectLength(nm, inputs, i, limit);
    if k > 0 {
      var i' := if inputs[0] == nm.source then i + 1 else i;
      RedirectArgs(nm, inputs[1..], i', limit, e, v, k - 1);
    }
  }

  lemma ScalersValue(m: Interp, nm: Naming, n: Node, i: nat, limit: nat, e: Env, t: Tensor<int>, k: nat)
    requires Distinct(nm) && i + Uses(nm, n.inputs) <= limit && i <= k < i + Uses(nm, n.inputs)
    requires nm.source in e && e[nm.source] == Ints(t)
    requires nm.divConst in e && e[nm.divConst] == ThousandTensor()
    requires forall x :: x in ScaledBlock(nm, n, i, limit) ==> Solves(m, x, e)
    ensures nm.divOut(k) != ABSENT && nm.divOut(k) in e && e[nm.divOut(k)] == Thousandths(t)
  {
    BlockForm(nm, n, i, limit);
    ScalersIn(nm, i, i + Uses(nm, n.inputs), k);
    PairValue(m, nm, k, e, t);
  }

  lemma RedirectedSolves(m: Interp, nm: Naming, n: Node, i: nat, limit: nat, e: Env, t: Tensor<int>)
    requires Distinct(nm) && i + Uses(nm, n.inputs) <= limit && nm.source !in Outs(n)
    requires nm.source in e && e[nm.source] == Ints(t)
    requires nm.divConst in e && e[nm.divConst] == ThousandTensor()
    requires forall x :: x in ScaledBlock(nm, n, i, limit) ==> Solves(m, x, e)
    ensures Solves(m, n, e[nm.source := Thousandths(t)])
  {
    var e' := e[nm.source := Thousandths(t)];
    var n' := n.(inputs := Redirect(nm, n.inputs, i, limit));
    assert n' in ScaledBlock(nm, n, i, limit) by {
      BlockForm(nm, n, i, limit);
      assert n' in [n'];
    }
    forall k | i <= k < i + Uses(nm, n.inputs)
      ensures nm.divOut(k) != ABSENT && nm.divOut(k) in e && e[nm.divOut(k)] == Thousandths(t)
    {
      ScalersValue(m, nm, n, i, limit, e, t, k);
    }
    RedirectLength(nm, n.inputs, i, limit);
    forall k | 0 <= k < |n.inputs| ensures Args(n', e)[k] == Args(n, e')[k] {
      RedirectArgs(nm, n.inputs, i, limit, e, Thousandths(t), k);
    }
    assert Args(n', e) == Args(n, e');
    forall o | o in Outs(n) ensures o in e' && e'[o] == Sem(m, n.op, Args(n, e'), Pos(n.outputs, o)) {
      assert o in Outs(n') && Solves(m, n', e);
    }
  }

  /** Solving all nodes of the new list means solving, with the scaled input, all nodes of the old one. */
  lemma {:induction false} ScaledSolves(m: Interp, nm: Naming, nodes: seq<Node>, i: nat, limit: nat, e: Env,
                                        t: Tensor<int>)
    requires Distinct(nm) && i + TotalUses(nm, nodes) <= limit
    requires nm.source !in AllOuts(nodes)
    requires nm.source in e && e[nm.source] == Ints(t)
    requires nm.divConst in e && e[nm.divConst] == ThousandTensor()
    requires forall n :: n in Scaled(nm, nodes, i, limit) ==> Solves(m, n, e)
    ensures forall n :: n in nodes ==> Solves(m, n, e[nm.source := Thousandths(t)])
  {
    if nodes != [] {
      var i' := i + Uses(nm, nodes[0].inputs);
      AllOutsCons(nodes);
      ScaledCons(nm, nodes, i, limit);
      ScaledSolves(m, nm, nodes[1..], i', limit, e, t);
      RedirectedSolves(m, nm, nodes[0], i, limit, e, t);
      forall n | n in nodes ensures n == nodes[0] || n in nodes[1..] {
      }
    }
  }

  /**
    Fed the integer tensor `t`, the new graph is well-formed and computes for every tensor
    other than the input itself what the old graph computes on t / 1000.
  */
  lemma LengthScalePreserves(m: Interp, nm: Naming, nodes: seq<Node>, base: Env, t: Tensor<int>)
    requires Distinct(nm)
    requires var old' := base[nm.source := Thousandths(t)];
      && WellFormed(nodes, old'.Keys)
      && nm.divConst !in old'.Keys + AllOuts(nodes)
      && NewNames(nm, 0, |Consumers(nm, nodes, 0)|) !! old'.Keys + AllOuts(nodes)
    ensures
      var nodes' := Scaled(nm, nodes, 0, |Consumers(nm, nodes, 0)|);
      var env' := base[nm.source := Ints(t)][nm.divConst := ThousandTensor()];
      var e, e' := Eval(m, nodes, base[nm.source := Thousandths(t)]), Eval(m, nodes', env');
      && WellFormed(nodes', env'.Keys)
      && forall x :: x in e && x != nm.source ==> x in e' && e'[x] == e[x]
  {
    var limit := |Consumers(nm, nodes, 0)|;
    var nodes' := Scaled(nm, nodes, 0, limit);
    var env := base[nm.source := Thousandths(t)];
    var env' := base[nm.source := Ints(t)][nm.divConst := ThousandTensor()];
    ConsumersCount(nm, nodes, 0);
    NewNamesOnly(nm, 0, limit);
    ScaledWellFormed(nm, nodes, 0, limit, env.Keys, {nm.divConst});
    assert env'.Keys == env.Keys + {nm.divConst};
    EvalSolves(m, nodes', env');
    var e' := Eval(m, nodes', env');
    DisjointFromOuts(nodes, env.Keys);
    ScaledSolves(m, nm, nodes, 0, limit, e', t);
    WellFormedReads(nodes, env.Keys);
    assert SubMap(env', e');
    SubEval(m, nodes, env, e'[nm.source := Thousandths(t)]);
  }
}
