/**
  ONNX graphs as node lists: evaluation, well-formedness (topologically sorted, single
  assignment), and the two facts every graph transformation here rests on.

  - The environment a well-formed list evaluates to satisfies the equation of every node.
  - Any list whose nodes satisfy their equations in some environment `e`, and whose reads are
    available in order, evaluates to values that agree with `e`, whatever its own order is.
*/
module Graphs {
  import opened Onnx
  import opened Wrappers

  /** Node and tensor names are only ever compared; `ABSENT` is the empty name of an omitted input or output. */
  type Name(==, 0, !new)

  const ABSENT: Name

  datatype Node = Node(name: Name, op: Op, inputs: seq<Name>, outputs: seq<Name>)

  type Env = map<Name, Value>

  datatype Graph = Graph(inputs: seq<Name>, inits: Env, nodes: seq<Node>, outputs: seq<Name>)

  function Reads(n: Node): set<Name> {
    set x | x in n.inputs && x != ABSENT
  }

  function Outs(n: Node): set<Name> {
    set x | x in n.outputs && x != ABSENT
  }

  function AllReads(nodes: seq<Node>): set<Name> {
    set i, x | 0 <= i < |nodes| && x in Reads(nodes[i]) :: x
  }

  function AllOuts(nodes: seq<Node>): set<Name> {
    set i, x | 0 <= i < |nodes| && x in Outs(nodes[i]) :: x
  }

  // Evaluation

  function Lookup(env: Env, x: Name): Option<Value> {
    if x != ABSENT && x in env then Some(env[x]) else None
  }

  function Args(n: Node, env: Env): seq<Option<Value>> {
    seq(|n.inputs|, i requires 0 <= i < |n.inputs| => Lookup(env, n.inputs[i]))
  }

  function Pos(xs: seq<Name>, x: Name): nat
    requires x in xs
  {
    if xs[0] == x then 0 else 1 + Pos(xs[1..], x)
  }

  function Exec(m: Interp, n: Node, env: Env): Env {
    env + map o | o in Outs(n) :: Sem(m, n.op, Args(n, env), Pos(n.outputs, o))
  }

  function Eval(m: Interp, nodes: seq<Node>, env: Env): Env {
    if nodes == [] then env else Eval(m, nodes[1..], Exec(m, nodes[0], env))
  }

  // Well-formedness

  predicate NodeOk(n: Node, avail: set<Name>) {
    && Reads(n) <= avail
    && Outs(n) !! avail
    && (forall i, j :: 0 <= i < j < |n.outputs| && n.outputs[i] != ABSENT ==> n.outputs[i] != n.outputs[j])
  }

  predicate WellFormed(nodes: seq<Node>, avail: set<Name>) {
    nodes == [] || (NodeOk(nodes[0], avail) && WellFormed(nodes[1..], avail + Outs(nodes[0])))
  }

  /** Every read is of an available name or of an output of an earlier node. */
  predicate ReadsOk(nodes: seq<Node>, avail: set<Name>) {
    nodes == [] || (Reads(nodes[0]) <= avail && ReadsOk(nodes[1..], avail + Outs(nodes[0])))
  }

  ghost predicate SubMap(a: Env, b: Env) {
    forall x :: x in a ==> x in b && a[x] == b[x]
  }

  /** `e` satisfies the defining equation of each output of `n`. */
  ghost predicate Solves(m: Interp, n: Node, e: Env) {
    forall o :: o in Outs(n) ==> o in e && e[o] == Sem(m, n.op, Args(n, e), Pos(n.outputs, o))
  }

  lemma AllOutsCons(nodes: seq<Node>)
    requires nodes != []
    ensures AllOuts(nodes) == Outs(nodes[0]) + AllOuts(nodes[1..])
  {
    forall x | x in AllOuts(nodes) ensures x in Outs(nodes[0]) + AllOuts(nodes[1..]) {
      var i :| 0 <= i < |nodes| && x in Outs(nodes[i]);
      if i > 0 { assert nodes[i] == nodes[1..][i - 1]; }
    }
    forall x | x in AllOuts(nodes[1..]) ensures x in AllOuts(nodes) {
      var i :| 0 <= i < |nodes[1..]| && x in Outs(nodes[1..][i]);
      assert nodes[1..][i] == nodes[i + 1];
    }
  }

  lemma AllOutsConcat(a: seq<Node>, b: seq<Node>)
    ensures AllOuts(a + b) == AllOuts(a) + AllOuts(b)
  {
    var ab := a + b;
    forall x | x in AllOuts(ab) ensures x in AllOuts(a) + AllOuts(b) {
      var i :| 0 <= i < |ab| && x in Outs(ab[i]);
      if i < |a| { assert a[i] == ab[i]; } else { assert b[i - |a|] == ab[i]; }
    }
    forall x | x in AllOuts(a) ensures x in AllOuts(ab) {
      var i :| 0 <= i < |a| && x in Outs(a[i]);
      assert ab[i] == a[i];
    }
    forall x | x in AllOuts(b) ensures x in AllOuts(ab) {
      var i :| 0 <= i < |b| && x in Outs(b[i]);
      assert ab[|a| + i] == b[i];
    }
  }

  lemma OutsOne(n: Node)
    requires |n.outputs| == 1 && n.outputs[0] != ABSENT
    ensures Outs(n) == {n.outputs[0]}
  {
  }

  lemma ArgsAgree(n: Node, a: Env, b: Env)
    requires SubMap(a, b) && Reads(n) <= a.Keys
    ensures Args(n, a) == Args(n, b)
  {
    forall i | 0 <= i < |n.inputs| ensures Args(n, a)[i] == Args(n, b)[i] {
      assert n.inputs[i] != ABSENT ==> n.inputs[i] in Reads(n);
    }
  }

  /** A well-formed list evaluates to a solution of all its node equations. */
  lemma {:induction false} EvalSolves(m: Interp, nodes: seq<Node>, env: Env)
    requires WellFormed(nodes, env.Keys)
    ensures var e := Eval(m, nodes, env);
      && SubMap(env, e)
      && e.Keys == env.Keys + AllOuts(nodes)
      && forall n :: n in nodes ==> Solves(m, n, e)
  {
    if nodes == [] {
    } else {
      var n := nodes[0];
      var env1 := Exec(m, n, env);
      var e := Eval(m, nodes, env);
      assert env1.Keys == env.Keys + Outs(n);
      EvalSolves(m, nodes[1..], env1);
      AllOutsCons(nodes);
      assert SubMap(env, env1);
      ArgsAgree(n, env, e);
      forall o | o in Outs(n) ensures o in e && e[o] == Sem(m, n.op, Args(n, e), Pos(n.outputs, o)) {
        assert o in env1;
      }
    }
  }

  /** Nodes that satisfy their equations in `e` can be run in any order that makes their reads available. */
  lemma {:induction false} SubEval(m: Interp, sub: seq<Node>, env: Env, e: Env)
    requires SubMap(env, e)
    requires forall n :: n in sub ==> Solves(m, n, e)
    requires ReadsOk(sub, env.Keys)
    ensures SubMap(Eval(m, sub, env), e)
    ensures Eval(m, sub, env).Keys == env.Keys + AllOuts(sub)
  {
    if sub == [] {
    } else {
      ArgsAgree(sub[0], env, e);
      assert Solves(m, sub[0], e);
      assert Exec(m, sub[0], env).Keys == env.Keys + Outs(sub[0]);
      SubEval(m, sub[1..], Exec(m, sub[0], env), e);
      AllOutsCons(sub);
    }
  }

  lemma {:induction false} WellFormedReads(nodes: seq<Node>, avail: set<Name>)
    requires WellFormed(nodes, avail)
    ensures ReadsOk(nodes, avail)
  {
    if nodes != [] { WellFormedReads(nodes[1..], avail + Outs(nodes[0])); }
  }

  /** The index form of well-formedness. */
  lemma {:induction false} WellFormedIndex(nodes: seq<Node>, avail: set<Name>)
    requires WellFormed(nodes, avail)
    ensures forall i :: 0 <= i < |nodes| ==> Outs(nodes[i]) !! avail
    ensures forall i, j :: 0 <= i < j < |nodes| ==> Outs(nodes[i]) !! Outs(nodes[j])
    ensures forall i, x :: 0 <= i < |nodes| && x in Reads(nodes[i]) ==> x in avail || x in AllOuts(nodes[..i])
  {
    if nodes == [] {
    } else {
      var rest := nodes[1..];
      var avail1 := avail + Outs(nodes[0]);
      WellFormedIndex(rest, avail1);
      assert forall i :: 1 <= i < |nodes| ==> nodes[i] == rest[i - 1];
      forall i, x | 0 <= i < |nodes| && x in Reads(nodes[i])
        ensures x in avail || x in AllOuts(nodes[..i])
      {
        if i > 0 {
          assert x in avail1 || x in AllOuts(rest[..i - 1]);
          AllOutsCons(nodes[..i]);
          assert nodes[..i][1..] == rest[..i - 1];
        }
      }
    }
  }

  // Composition of well-formed lists

  lemma {:induction false} WellFormedConcat(a: seq<Node>, b: seq<Node>, avail: set<Name>)
    ensures WellFormed(a + b, avail) <==> WellFormed(a, avail) && WellFormed(b, avail + AllOuts(a))
  {
    if a == [] {
      assert a + b == b;
      assert avail + AllOuts(a) == avail;
    } else {
      assert (a + b)[1..] == a[1..] + b;
      WellFormedConcat(a[1..], b, avail + Outs(a[0]));
      AllOutsCons(a);
      assert avail + Outs(a[0]) + AllOuts(a[1..]) == avail + AllOuts(a);
    }
  }

  lemma Singleton(n: Node, avail: set<Name>)
    ensures WellFormed([n], avail) <==> NodeOk(n, avail)
    ensures AllOuts([n]) == Outs(n) && AllReads([n]) == Reads(n)
  {
    var s := [n];
    assert s[0] == n && s[1..] == [];
    AllOutsCons(s);
    assert AllOuts(s[1..]) == {};
    forall x | x in Reads(n) ensures x in AllReads(s) { assert x in Reads(s[0]); }
  }

  lemma ChainOf2(b: seq<Node>, avail: set<Name>)
    requires |b| == 2 && NodeOk(b[0], avail) && NodeOk(b[1], avail + Outs(b[0]))
    ensures WellFormed(b, avail) && AllOuts(b) == Outs(b[0]) + Outs(b[1])
  {
    assert b == [b[0]] + [b[1]];
    Singleton(b[0], avail);
    Singleton(b[1], avail + Outs(b[0]));
    WellFormedConcat([b[0]], [b[1]], avail);
    AllOutsConcat([b[0]], [b[1]]);
  }

  /** A node with one output satisfies its equation. */
  lemma SolvesOne(m: Interp, n: Node, e: Env, v: Value)
    requires |n.outputs| == 1 && n.outputs[0] != ABSENT && n.outputs[0] in e && e[n.outputs[0]] == v
    requires Sem(m, n.op, Args(n, e), 0) == v
    ensures Solves(m, n, e)
  {
  }

  /** Names may become available (if nobody assigns them) or stop being available (if nobody reads them). */
  lemma {:induction false} WellFormedExtend(nodes: seq<Node>, avail: set<Name>, more: set<Name>)
    requires WellFormed(nodes, avail)
    requires AllOuts(nodes) !! more
    ensures WellFormed(nodes, avail + more)
  {
    if nodes == [] {
    } else {
      AllOutsCons(nodes);
      WellFormedExtend(nodes[1..], avail + Outs(nodes[0]), more);
      assert avail + Outs(nodes[0]) + more == avail + more + Outs(nodes[0]);
    }
  }

  lemma {:induction false} WellFormedShrink(nodes: seq<Node>, avail: set<Name>, less: set<Name>)
    requires WellFormed(nodes, avail)
    requires AllReads(nodes) !! less
    ensures WellFormed(nodes, avail - less)
  {
    if nodes == [] {
    } else {
      var n := nodes[0];
      forall x | x in Reads(n) ensures x in avail - less {
        assert x in AllReads(nodes);
      }
      forall x | x in AllReads(nodes[1..]) ensures x in AllReads(nodes) {
        var i :| 0 <= i < |nodes[1..]| && x in Reads(nodes[1..][i]);
        assert x in Reads(nodes[i + 1]);
      }
      WellFormedShrink(nodes[1..], avail + Outs(n), less);
      var before := (avail + Outs(n)) - less;
      WellFormedExtend(nodes[1..], before, Outs(n) * less) by {
        WellFormedIndex(nodes[1..], avail + Outs(n));
      }
      assert before + Outs(n) * less == (avail - less) + Outs(n);
    }
  }

  // Sub-lists in original order

  function Select(nodes: seq<Node>, keep: set<nat>, k: nat): seq<Node>
    requires k <= |nodes|
    decreases |nodes| - k
  {
    if k == |nodes| then []
    else (if k in keep then [nodes[k]] else []) + Select(nodes, keep, k + 1)
  }

  lemma {:induction false} SelectMembers(nodes: seq<Node>, keep: set<nat>, k: nat)
    requires k <= |nodes|
    ensures forall n :: n in Select(nodes, keep, k) <==> exists i :: k <= i < |nodes| && i in keep && nodes[i] == n
    decreases |nodes| - k
  {
    if k == |nodes| {
    } else {
      SelectMembers(nodes, keep, k + 1);
    }
  }

  /** A selection is runnable when each read is available or is an output of an earlier selected node. */
  lemma {:induction false} SelectReadsOk(nodes: seq<Node>, keep: set<nat>, k: nat, avail: set<Name>)
    requires k <= |nodes|
    requires forall i, x :: k <= i < |nodes| && i in keep && x in Reads(nodes[i]) ==>
               x in avail || exists j :: k <= j < i && j in keep && x in Outs(nodes[j])
    ensures ReadsOk(Select(nodes, keep, k), avail)
    decreases |nodes| - k
  {
    if k == |nodes| {
    } else if k in keep {
      assert Select(nodes, keep, k)[1..] == Select(nodes, keep, k + 1);
      SelectReadsOk(nodes, keep, k + 1, avail + Outs(nodes[k]));
    } else {
      SelectReadsOk(nodes, keep, k + 1, avail);
      assert Select(nodes, keep, k) == Select(nodes, keep, k + 1);
    }
  }

  function SelectOuts(nodes: seq<Node>, keep: set<nat>): set<Name> {
    set i, x | 0 <= i < |nodes| && i in keep && x in Outs(nodes[i]) :: x
  }

  lemma SelectAllOuts(nodes: seq<Node>, keep: set<nat>)
    ensures AllOuts(Select(nodes, keep, 0)) == SelectOuts(nodes, keep)
  {
    var sub := Select(nodes, keep, 0);
    SelectMembers(nodes, keep, 0);
    forall x | x in AllOuts(sub) ensures x in SelectOuts(nodes, keep) {
      var i :| 0 <= i < |sub| && x in Outs(sub[i]);
      assert sub[i] in sub;
    }
    forall x | x in SelectOuts(nodes, keep) ensures x in AllOuts(sub) {
      var i :| 0 <= i < |nodes| && i in keep && x in Outs(nodes[i]);
      assert nodes[i] in sub;
    }
  }

  /** Running any runnable selection of a well-formed list from correct values gives the list's own values. */
  lemma SelectEval(m: Interp, nodes: seq<Node>, full: Env, keep: set<nat>, env: Env)
    requires WellFormed(nodes, full.Keys)
    requires SubMap(env, Eval(m, nodes, full))
    requires forall i, x :: 0 <= i < |nodes| && i in keep && x in Reads(nodes[i]) ==>
               x in env || exists j :: 0 <= j < i && j in keep && x in Outs(nodes[j])
    ensures var r := Eval(m, Select(nodes, keep, 0), env);
      SubMap(r, Eval(m, nodes, full)) && r.Keys == env.Keys + SelectOuts(nodes, keep)
  {
    EvalSolves(m, nodes, full);
    SelectMembers(nodes, keep, 0);
    SelectReadsOk(nodes, keep, 0, env.Keys);
    SelectAllOuts(nodes, keep);
    SubEval(m, Select(nodes, keep, 0), env, Eval(m, nodes, full));
  }
}
