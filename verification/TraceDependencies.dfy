/** scripts/trace_onnx_dependencies.py: backward tracing of outputs, stopping at given tensors. */
module TraceDependencies {
  import opened Dependencies
  import opened Graphs
  import opened Onnx

  class DependencyTracer {
    const nodes: seq<Node>
    const initializers: set<Name>
    const stops: set<Name>
    const producers: map<Name, nat>
    var neededInputs: set<Name>
    var usedNodes: set<nat>

    ghost predicate Valid()
      reads this
    {
      producers == Producers(nodes) && forall i :: i in usedNodes ==> i < |nodes|
    }

    constructor (nodes: seq<Node>, initializers: set<Name>, stops: set<Name>)
      ensures Valid() && neededInputs == {} && usedNodes == {}
      ensures this.nodes == nodes && this.initializers == initializers && this.stops == stops
    {
      this.nodes, this.initializers, this.stops := nodes, initializers, stops;
      producers := Producers(nodes);
      neededInputs, usedNodes := {}, {};
    }

    /** `out` is the requested output on whose behalf `name` is visited. */
    method VisitTensor(name: Name, ghost out: Name)
      requires Valid() && Reaches(nodes, stops + initializers, out, name)
      modifies this`neededInputs, this`usedNodes
      ensures Valid()
      ensures old(usedNodes) <= usedNodes && old(neededInputs) <= neededInputs
      ensures Handled(nodes, initializers, stops, neededInputs, usedNodes, name)
      ensures forall i :: i in usedNodes - old(usedNodes) ==>
                InputsHandled(nodes, initializers, stops, neededInputs, usedNodes, i)
      ensures forall i :: i in usedNodes - old(usedNodes) ==> ReachesNode(nodes, stops + initializers, out, i)
      ensures forall x :: x in neededInputs - old(neededInputs) ==> Needed(nodes, initializers, stops, out, x)
      decreases Indices(|nodes|) - usedNodes
    {
      if name == ABSENT {
        return;
      }
      if name in stops {
        neededInputs := neededInputs + {name};
        return;
      }
      if name in initializers {
        return;
      }
      if name !in producers {
        neededInputs := neededInputs + {name};
        return;
      }
      ProducersSound(nodes);
      var idx := producers[name];
      if idx in usedNodes {
        return;
      }
      usedNodes := usedNodes + {idx};
      var inputs := nodes[idx].inputs;
      for k := 0 to |inputs|
        invariant Valid()
        invariant old(usedNodes) + {idx} <= usedNodes && old(neededInputs) <= neededInputs
        invariant forall j :: 0 <= j < k ==> Handled(nodes, initializers, stops, neededInputs, usedNodes, inputs[j])
        invariant forall i :: i in usedNodes - old(usedNodes) - {idx} ==>
                    InputsHandled(nodes, initializers, stops, neededInputs, usedNodes, i)
        invariant forall i :: i in usedNodes - old(usedNodes) ==> ReachesNode(nodes, stops + initializers, out, i)
        invariant forall x :: x in neededInputs - old(neededInputs) ==> Needed(nodes, initializers, stops, out, x)
      {
        ghost var needed, used := neededInputs, usedNodes;
        ReachesExtend(nodes, stops + initializers, out, name, inputs[k]);
        VisitTensor(inputs[k], out);
        forall i | i in used - old(usedNodes) - {idx}
          ensures InputsHandled(nodes, initializers, stops, neededInputs, usedNodes, i)
        {
          InputsHandledMono(nodes, initializers, stops, needed, used, neededInputs, usedNodes, i);
        }
      }
    }

    /** The tracing loop computes exactly the reachable nodes and the reachable leaves. */
    method Trace(outputs: seq<Name>)
      requires Valid() && usedNodes == {} && neededInputs == {}
      modifies this`neededInputs, this`usedNodes
      ensures Valid()
      ensures Traced(nodes, initializers, stops, outputs, neededInputs, usedNodes)
    {
      for k := 0 to |outputs|
        invariant Valid()
        invariant forall j :: 0 <= j < k ==> Handled(nodes, initializers, stops, neededInputs, usedNodes, outputs[j])
        invariant forall i :: i in usedNodes ==> InputsHandled(nodes, initializers, stops, neededInputs, usedNodes, i)
        invariant forall i :: i in usedNodes ==> UsedBy(nodes, initializers, stops, outputs, i)
        invariant forall x :: x in neededInputs ==> NeededBy(nodes, initializers, stops, outputs, x)
      {
        var out := outputs[k];
        assert out in outputs;
        ReachesSelf(nodes, stops + initializers, out);
        ghost var needed, used := neededInputs, usedNodes;
        VisitTensor(out, out);
        forall i | i in used ensures InputsHandled(nodes, initializers, stops, neededInputs, usedNodes, i) {
          InputsHandledMono(nodes, initializers, stops, needed, used, neededInputs, usedNodes, i);
        }
      }
      forall o, x | o in outputs && Reaches(nodes, stops + initializers, o, x)
        ensures Handled(nodes, initializers, stops, neededInputs, usedNodes, x)
      {
        assert Handled(nodes, initializers, stops, neededInputs, usedNodes, o);
        var p :| Path(nodes, stops + initializers, p) && p[0] == o && p[|p| - 1] == x;
        SettledAlong(nodes, initializers, stops, neededInputs, usedNodes, p, |p| - 1);
      }
      assert ABSENT !in producers by { ProducersSound(nodes); }
    }
  }

  /** A reachable leaf: a stop tensor, or a tensor that is neither produced nor an initializer. */
  ghost predicate Needed(nodes: seq<Node>, inits: set<Name>, stops: set<Name>, out: Name, x: Name) {
    && x != ABSENT
    && Reaches(nodes, stops + inits, out, x)
    && (x in stops || (x !in inits && x !in Producers(nodes)))
  }

  ghost predicate Settled(nodes: seq<Node>, inits: set<Name>, stops: set<Name>,
                          needed: set<Name>, used: set<nat>, x: Name) {
    if x in stops then x in needed
    else if x in inits then true
    else if x !in Producers(nodes) then x in needed
    else Producers(nodes)[x] in used
  }

  /** Nothing is left to do for tensor `x`. */
  ghost predicate Handled(nodes: seq<Node>, inits: set<Name>, stops: set<Name>,
                          needed: set<Name>, used: set<nat>, x: Name) {
    x == ABSENT || Settled(nodes, inits, stops, needed, used, x)
  }

  ghost predicate InputsHandled(nodes: seq<Node>, inits: set<Name>, stops: set<Name>,
                                needed: set<Name>, used: set<nat>, i: nat) {
    i < |nodes| && forall x :: x in nodes[i].inputs ==> Handled(nodes, inits, stops, needed, used, x)
  }

  lemma InputsHandledMono(nodes: seq<Node>, inits: set<Name>, stops: set<Name>, needed: set<Name>, used: set<nat>,
                          needed': set<Name>, used': set<nat>, i: nat)
    requires InputsHandled(nodes, inits, stops, needed, used, i) && needed <= needed' && used <= used'
    ensures InputsHandled(nodes, inits, stops, needed', used', i)
  {
  }

  /** If the first tensor of a path is settled and so are the inputs of all used nodes, so is every later one. */
  lemma {:induction false} SettledAlong(nodes: seq<Node>, inits: set<Name>, stops: set<Name>,
                                        needed: set<Name>, used: set<nat>, p: seq<Name>, k: nat)
    requires Path(nodes, stops + inits, p) && k < |p|
    requires Handled(nodes, inits, stops, needed, used, p[0])
    requires forall i :: i in used ==> InputsHandled(nodes, inits, stops, needed, used, i)
    ensures Handled(nodes, inits, stops, needed, used, p[k])
  {
    if k > 0 {
      SettledAlong(nodes, inits, stops, needed, used, p, k - 1);
      ProducersSound(nodes);
      assert Edge(nodes, stops + inits, p[k - 1], p[k]);
      assert ABSENT !in Producers(nodes);
    }
  }

  ghost predicate UsedBy(nodes: seq<Node>, inits: set<Name>, stops: set<Name>, outputs: seq<Name>, i: nat) {
    exists o :: o in outputs && ReachesNode(nodes, stops + inits, o, i)
  }

  ghost predicate NeededBy(nodes: seq<Node>, inits: set<Name>, stops: set<Name>, outputs: seq<Name>, x: Name) {
    exists o :: o in outputs && Needed(nodes, inits, stops, o, x)
  }

  /** The nodes are exactly the reachable ones and the inputs exactly the reachable leaves. */
  ghost predicate Traced(nodes: seq<Node>, inits: set<Name>, stops: set<Name>, outputs: seq<Name>,
                         needed: set<Name>, used: set<nat>) {
    && (forall i :: i in used <==> UsedBy(nodes, inits, stops, outputs, i))
    && (forall x :: x in needed <==> NeededBy(nodes, inits, stops, outputs, x))
  }

  lemma TracedSettled(nodes: seq<Node>, inits: set<Name>, stops: set<Name>, outputs: seq<Name>,
                      needed: set<Name>, used: set<nat>, o: Name, x: Name)
    requires Traced(nodes, inits, stops, outputs, needed, used)
    requires o in outputs && Reaches(nodes, stops + inits, o, x) && x != ABSENT
    ensures Settled(nodes, inits, stops, needed, used, x)
  {
  }

  /** Running only the used nodes, from the values of the needed inputs and the initializers, gives the outputs. */
  lemma TraceSuffices(m: Interp, nodes: seq<Node>, full: Env, inits: set<Name>, stops: set<Name>,
                      outputs: seq<Name>, needed: set<Name>, used: set<nat>, env: Env)
    requires WellFormed(nodes, full.Keys) && inits <= full.Keys
    requires Traced(nodes, inits, stops, outputs, needed, used)
    requires SubMap(env, Eval(m, nodes, full))
    requires env.Keys == Eval(m, nodes, full).Keys * (needed + inits)
    requires forall o :: o in outputs ==> o != ABSENT && o in Eval(m, nodes, full)
    ensures var r := Eval(m, Select(nodes, used, 0), env);
      forall o :: o in outputs ==> o in r && r[o] == Eval(m, nodes, full)[o]
  {
    var e := Eval(m, nodes, full);
    EvalSolves(m, nodes, full);
    ProducersSound(nodes);
    forall i, x | 0 <= i < |nodes| && i in used && x in Reads(nodes[i])
      ensures x in env || exists j :: 0 <= j < i && j in used && x in Outs(nodes[j])
    {
      var o :| o in outputs && ReachesNode(nodes, stops + inits, o, i);
      var y :| Reaches(nodes, stops + inits, o, y) && y !in stops + inits && y in Producers(nodes)
          && Producers(nodes)[y] == i;
      assert Edge(nodes, stops + inits, y, x);
      ReachesExtend(nodes, stops + inits, o, y, x);
      TracedSettled(nodes, inits, stops, outputs, needed, used, o, x);
      ReadProducedEarlier(nodes, full.Keys, i, x);
      assert x in e by {
        if x !in full.Keys { assert x in AllOuts(nodes); }
      }
    }
    SelectEval(m, nodes, full, used, env);
    forall o | o in outputs ensures o in env.Keys + SelectOuts(nodes, used) {
      ReachesSelf(nodes, stops + inits, o);
      TracedSettled(nodes, inits, stops, outputs, needed, used, o, o);
    }
  }

  /** Two runs that agree on the needed inputs and on the initializers agree on the outputs. */
  lemma TraceDetermines(m: Interp, nodes: seq<Node>, a: Env, b: Env, inits: set<Name>, stops: set<Name>,
                        outputs: seq<Name>, needed: set<Name>, used: set<nat>)
    requires a.Keys == b.Keys && WellFormed(nodes, a.Keys) && inits <= a.Keys
    requires Traced(nodes, inits, stops, outputs, needed, used)
    requires forall o :: o in outputs ==> o != ABSENT && o in Eval(m, nodes, a)
    requires var ea, eb := Eval(m, nodes, a), Eval(m, nodes, b);
      forall x :: x in needed + inits && x in ea && x in eb ==> ea[x] == eb[x]
    ensures var ea, eb := Eval(m, nodes, a), Eval(m, nodes, b);
      forall o :: o in outputs ==> o in ea && o in eb && ea[o] == eb[o]
  {
    var ea, eb := Eval(m, nodes, a), Eval(m, nodes, b);
    EvalSolves(m, nodes, a);
    EvalSolves(m, nodes, b);
    var env := map x | x in ea && x in needed + inits :: ea[x];
    assert env.Keys == ea.Keys * (needed + inits);
    TraceSuffices(m, nodes, a, inits, stops, outputs, needed, used, env);
    TraceSuffices(m, nodes, b, inits, stops, outputs, needed, used, env);
  }
}
