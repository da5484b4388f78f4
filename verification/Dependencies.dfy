/** Producers of tensors, and backward reachability from a tensor through its producers. */
module Dependencies {
  import opened Graphs

  /** Index of the node that produces each tensor; a later producer replaces an earlier one. */
  function Producers(nodes: seq<Node>): map<Name, nat> {
    if nodes == [] then map[]
    else
      var last := |nodes| - 1;
      Producers(nodes[..last]) + map o | o in Outs(nodes[last]) :: last
  }

  lemma {:induction false} ProducersSound(nodes: seq<Node>)
    ensures forall x :: x in Producers(nodes) ==> Producers(nodes)[x] < |nodes| && x in Outs(nodes[Producers(nodes)[x]])
    ensures forall i, x :: 0 <= i < |nodes| && x in Outs(nodes[i]) ==> x in Producers(nodes)
  {
    if nodes != [] { ProducersSound(nodes[..|nodes| - 1]); }
  }

  function Indices(n: nat): (r: set<nat>)
    ensures forall i: nat :: i in r <==> i < n
  {
    if n == 0 then {} else Indices(n - 1) + {n - 1}
  }

  /** Under single assignment the producer is unique. */
  lemma ProducersUnique(nodes: seq<Node>, avail: set<Name>, i: nat, x: Name)
    requires WellFormed(nodes, avail) && i < |nodes| && x in Outs(nodes[i])
    ensures x in Producers(nodes) && Producers(nodes)[x] == i
  {
    ProducersSound(nodes);
    WellFormedIndex(nodes, avail);
    var j := Producers(nodes)[x];
    assert x in Outs(nodes[j]) && x in Outs(nodes[i]);
  }

  /** In a well-formed list a tensor that is read is available or produced earlier. */
  lemma ReadProducedEarlier(nodes: seq<Node>, avail: set<Name>, i: nat, x: Name)
    requires WellFormed(nodes, avail) && i < |nodes| && x in Reads(nodes[i])
    ensures x in avail ==> x !in Producers(nodes)
    ensures x !in avail ==> x in Producers(nodes) && Producers(nodes)[x] < i && x in Outs(nodes[Producers(nodes)[x]])
  {
    ProducersSound(nodes);
    WellFormedIndex(nodes, avail);
    if x !in avail {
      var j :| 0 <= j < |nodes[..i]| && x in Outs(nodes[..i][j]);
      ProducersUnique(nodes, avail, j, x);
    }
  }

  // Backward reachability that does not go behind a stop tensor

  predicate Edge(nodes: seq<Node>, stops: set<Name>, x: Name, y: Name) {
    ProducersSound(nodes);
    x !in stops && x in Producers(nodes) && y in nodes[Producers(nodes)[x]].inputs
  }

  predicate Path(nodes: seq<Node>, stops: set<Name>, p: seq<Name>) {
    p != [] && forall k :: 0 <= k < |p| - 1 ==> Edge(nodes, stops, p[k], p[k + 1])
  }

  ghost predicate Reaches(nodes: seq<Node>, stops: set<Name>, x: Name, y: Name) {
    exists p :: Path(nodes, stops, p) && p[0] == x && p[|p| - 1] == y
  }

  /** Node `i` is entered through some tensor that is reachable from `x` and is not a stop tensor. */
  ghost predicate ReachesNode(nodes: seq<Node>, stops: set<Name>, x: Name, i: nat) {
    exists y :: Reaches(nodes, stops, x, y) && y !in stops && y in Producers(nodes) && Producers(nodes)[y] == i
  }

  lemma ReachesSelf(nodes: seq<Node>, stops: set<Name>, x: Name)
    ensures Reaches(nodes, stops, x, x)
  {
    assert Path(nodes, stops, [x]);
  }

  lemma ReachesExtend(nodes: seq<Node>, stops: set<Name>, x: Name, y: Name, z: Name)
    requires Reaches(nodes, stops, x, y) && Edge(nodes, stops, y, z)
    ensures Reaches(nodes, stops, x, z)
  {
    var p :| Path(nodes, stops, p) && p[0] == x && p[|p| - 1] == y;
    var q := p + [z];
    forall k | 0 <= k < |q| - 1 ensures Edge(nodes, stops, q[k], q[k + 1]) {
      if k < |p| - 1 { assert q[k] == p[k] && q[k + 1] == p[k + 1]; }
    }
    assert Path(nodes, stops, q) && q[0] == x && q[|q| - 1] == z;
  }
}
