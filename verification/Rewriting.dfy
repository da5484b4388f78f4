/** Facts about graph rewrites: expanding one node, renaming a tensor, moving its production later. */
module Rewriting {
  import opened Graphs
  import opened Onnx

  /** A node may be replaced by a block with the same outputs plus fresh ones, built from the node's reads. */
  lemma ExpandStep(n: Node, block: seq<Node>, rest: seq<Node>, avail: set<Name>, extra: set<Name>, added: set<Name>)
    requires NodeOk(n, avail)
    requires WellFormed(block, Reads(n) + extra) && AllOuts(block) == Outs(n) + added
    requires added !! avail + extra + Outs(n) && Outs(n) !! extra
    requires WellFormed(rest, avail + Outs(n) + extra + added)
    ensures WellFormed(block + rest, avail + extra)
  {
    WellFormedExtend(block, Reads(n) + extra, avail - Reads(n));
    assert Reads(n) + extra + (avail - Reads(n)) == avail + extra;
    WellFormedConcat(block, rest, avail + extra);
    assert avail + extra + AllOuts(block) == avail + Outs(n) + extra + added;
  }

  function RenameInputs(xs: seq<Name>, r: Name, f: Name): seq<Name> {
    seq(|xs|, i requires 0 <= i < |xs| => if xs[i] == r then f else xs[i])
  }

  function Rename(nodes: seq<Node>, r: Name, f: Name): seq<Node> {
    seq(|nodes|, i requires 0 <= i < |nodes| => nodes[i].(inputs := RenameInputs(nodes[i].inputs, r, f)))
  }

  lemma RenameUnread(nodes: seq<Node>, r: Name, f: Name)
    requires r != ABSENT && r !in AllReads(nodes)
    ensures Rename(nodes, r, f) == nodes
  {
    forall i | 0 <= i < |nodes| ensures RenameInputs(nodes[i].inputs, r, f) == nodes[i].inputs {
      assert Reads(nodes[i]) <= AllReads(nodes);
    }
  }

  lemma RenameReads(n: Node, r: Name, f: Name)
    requires r != ABSENT && f != ABSENT
    ensures Reads(n.(inputs := RenameInputs(n.inputs, r, f)))
            == if r in Reads(n) then Reads(n) - {r} + {f} else Reads(n)
  {
    var n' := n.(inputs := RenameInputs(n.inputs, r, f));
    forall x | x in Reads(n) ensures (if x == r then f else x) in Reads(n') {
      var i :| 0 <= i < |n.inputs| && n.inputs[i] == x;
      assert n'.inputs[i] == if x == r then f else x;
    }
    forall x | x in Reads(n')
      ensures x in Reads(n) - {r} || (x == f && r in Reads(n)) || (x in Reads(n) && r !in Reads(n))
    {
      var i :| 0 <= i < |n'.inputs| && n'.inputs[i] == x;
      assert n.inputs[i] in n.inputs;
    }
    if r in Reads(n) && r != f {
      assert r !in n'.inputs;
    }
  }

  lemma RenameAllOuts(nodes: seq<Node>, r: Name, f: Name)
    ensures AllOuts(Rename(nodes, r, f)) == AllOuts(nodes)
  {
    var nodes' := Rename(nodes, r, f);
    assert forall i :: 0 <= i < |nodes| ==> Outs(nodes'[i]) == Outs(nodes[i]);
  }

  lemma {:induction false} RenameWellFormed(nodes: seq<Node>, avail: set<Name>, r: Name, f: Name)
    requires r != ABSENT && f != ABSENT && r !in avail
    requires WellFormed(nodes, avail + {r}) && f !in AllOuts(nodes)
    ensures WellFormed(Rename(nodes, r, f), avail + {f})
  {
    if nodes == [] {
    } else {
      var n := nodes[0];
      RenameReads(n, r, f);
      AllOutsCons(nodes);
      assert Rename(nodes, r, f)[1..] == Rename(nodes[1..], r, f);
      assert avail + {r} + Outs(n) == avail + Outs(n) + {r};
      RenameWellFormed(nodes[1..], avail + Outs(n), r, f);
      assert avail + {f} + Outs(n) == avail + Outs(n) + {f};
    }
  }

  /** Remove the producer of `r` at `p`, insert `block` at `pos`, and let the nodes from `pos` on read `f`. */
  function Replaced(nodes: seq<Node>, p: nat, pos: nat, block: seq<Node>, r: Name, f: Name): seq<Node>
    requires p < pos <= |nodes|
  {
    nodes[..p] + nodes[p + 1..pos] + block + Rename(nodes[pos..], r, f)
  }

  lemma SplitAround(nodes: seq<Node>, avail: set<Name>, p: nat, pos: nat)
    requires WellFormed(nodes, avail) && p < pos <= |nodes|
    ensures var a, n, b, c := nodes[..p], nodes[p], nodes[p + 1..pos], nodes[pos..];
      && WellFormed(a, avail) && NodeOk(n, avail + AllOuts(a))
      && WellFormed(b, avail + AllOuts(a) + Outs(n))
      && WellFormed(c, avail + AllOuts(a) + Outs(n) + AllOuts(b))
      && AllOuts(nodes) == AllOuts(a) + Outs(n) + AllOuts(b) + AllOuts(c)
  {
    var a, b, c := nodes[..p], nodes[p + 1..pos], nodes[pos..];
    var t := nodes[p..];
    assert nodes == a + t && t[1..] == b + c;
    WellFormedConcat(a, t, avail);
    WellFormedConcat(b, c, avail + AllOuts(a) + Outs(nodes[p]));
    AllOutsConcat(a, t);
    AllOutsCons(t);
    AllOutsConcat(b, c);
  }

  lemma TailWellFormed(block: seq<Node>, c: seq<Node>, u: set<Name>, read: set<Name>,
                       r: Name, f: Name, inits: set<Name>)
    requires WellFormed(c, u + {r}) && r !in u && r != ABSENT && f != ABSENT
    requires WellFormed(block, read + inits) && read <= u && f in AllOuts(block)
    requires inits + AllOuts(block) !! u + {r} + AllOuts(c)
    ensures WellFormed(block + Rename(c, r, f), u + inits)
  {
    WellFormedExtend(block, read + inits, u - read);
    assert read + inits + (u - read) == u + inits;
    var more := inits + AllOuts(block) - {f};
    WellFormedExtend(c, u + {r}, more);
    assert u + {r} + more == u + more + {r};
    RenameWellFormed(c, u + more, r, f);
    assert u + more + {f} == u + inits + AllOuts(block);
    WellFormedConcat(block, Rename(c, r, f), u + inits);
  }

  lemma BeforeTail(b: seq<Node>, rest: seq<Node>, s: set<Name>, r: Name, inits: set<Name>)
    requires WellFormed(b, s + {r}) && r !in AllReads(b) && r !in s
    requires inits !! s + AllOuts(b)
    requires WellFormed(rest, s + AllOuts(b) + inits)
    ensures WellFormed(b + rest, s + inits)
  {
    WellFormedShrink(b, s + {r}, {r});
    assert s + {r} - {r} == s;
    WellFormedExtend(b, s, inits);
    WellFormedConcat(b, rest, s + inits);
    assert s + inits + AllOuts(b) == s + AllOuts(b) + inits;
  }

  lemma PartsWellFormed(a: seq<Node>, n: Node, b: seq<Node>, c: seq<Node>, avail: set<Name>, block: seq<Node>,
                        r: Name, f: Name, inits: set<Name>)
    requires WellFormed(a, avail) && NodeOk(n, avail + AllOuts(a)) && Outs(n) == {r}
    requires WellFormed(b, avail + AllOuts(a) + {r}) && r !in AllReads(b)
    requires WellFormed(c, avail + AllOuts(a) + {r} + AllOuts(b))
    requires r != ABSENT && f != ABSENT && f in AllOuts(block) && WellFormed(block, Reads(n) + inits)
    requires inits + AllOuts(block) !! avail + AllOuts(a) + {r} + AllOuts(b) + AllOuts(c)
    ensures WellFormed(a + (b + (block + Rename(c, r, f))), avail + inits)
  {
    var s := avail + AllOuts(a);
    var u := s + AllOuts(b);
    DisjointFromOuts(b, s + {r});
    assert s + {r} + AllOuts(b) == u + {r};
    TailWellFormed(block, c, u, Reads(n), r, f, inits);
    BeforeTail(b, block + Rename(c, r, f), s, r, inits);
    WellFormedExtend(a, avail, inits);
    assert avail + inits + AllOuts(a) == s + inits;
    WellFormedConcat(a, b + (block + Rename(c, r, f)), avail + inits);
  }

  /** The rewrite keeps the list sorted and single-assignment. */
  lemma ReplacedWellFormed(nodes: seq<Node>, avail: set<Name>, p: nat, pos: nat, block: seq<Node>,
                           r: Name, f: Name, inits: set<Name>)
    requires WellFormed(nodes, avail) && p < pos <= |nodes|
    requires r != ABSENT && f != ABSENT && Outs(nodes[p]) == {r} && r !in AllReads(nodes[p + 1..pos])
    requires inits + AllOuts(block) !! avail + AllOuts(nodes) && f in AllOuts(block)
    requires WellFormed(block, Reads(nodes[p]) + inits)
    ensures WellFormed(Replaced(nodes, p, pos, block, r, f), avail + inits)
  {
    var a, b, c := nodes[..p], nodes[p + 1..pos], nodes[pos..];
    var n := nodes[p];
    assert WellFormed(a + (b + (block + Rename(c, r, f))), avail + inits) by {
      SplitAround(nodes, avail, p, pos);
      PartsWellFormed(a, n, b, c, avail, block, r, f, inits);
    }
    assert a + (b + (block + Rename(c, r, f))) == a + b + block + Rename(c, r, f);
  }

  lemma DisjointFromOuts(nodes: seq<Node>, avail: set<Name>)
    requires WellFormed(nodes, avail)
    ensures avail !! AllOuts(nodes)
  {
    WellFormedIndex(nodes, avail);
  }

  lemma SolvesRenamed(m: Interp, n: Node, e: Env, e': Env, r: Name, f: Name)
    requires Solves(m, n, e) && SubMap(e, e')
    requires r != ABSENT && f != ABSENT && r in e && f in e' && e'[f] == e[r]
    requires Reads(n) <= e.Keys
    ensures Solves(m, n.(inputs := RenameInputs(n.inputs, r, f)), e')
  {
    var n' := n.(inputs := RenameInputs(n.inputs, r, f));
    forall i | 0 <= i < |n.inputs| ensures Args(n', e')[i] == Args(n, e)[i] {
      assert n.inputs[i] != ABSENT ==> n.inputs[i] in Reads(n);
    }
    assert Args(n', e') == Args(n, e);
  }

  ghost predicate Extends(m: Interp, nodes: seq<Node>, env: Env, r: Name, f: Name, block: seq<Node>, e': Env) {
    && SubMap(Eval(m, nodes, env), e')
    && r in Eval(m, nodes, env) && f in e' && e'[f] == Eval(m, nodes, env)[r]
    && forall n :: n in block ==> Solves(m, n, e')
  }

  lemma RenamedSolves(m: Interp, nodes: seq<Node>, env: Env, i: nat, r: Name, f: Name, block: seq<Node>, e': Env)
    requires WellFormed(nodes, env.Keys) && i < |nodes| && r != ABSENT && f != ABSENT
    requires Extends(m, nodes, env, r, f, block, e')
    ensures Solves(m, nodes[i].(inputs := RenameInputs(nodes[i].inputs, r, f)), e')
  {
    EvalSolves(m, nodes, env);
    assert nodes[i] in nodes;
    ReadsEvaluated(nodes, env.Keys, i);
    SolvesRenamed(m, nodes[i], Eval(m, nodes, env), e', r, f);
  }

  /** A tensor is not read before it is produced, nor by its producer. */
  lemma UnreadBefore(nodes: seq<Node>, avail: set<Name>, p: nat, r: Name)
    requires WellFormed(nodes, avail) && p < |nodes| && r in Outs(nodes[p])
    ensures r !in AllReads(nodes[..p]) && r !in Reads(nodes[p])
  {
    SplitAround(nodes, avail, p, p + 1);
    var a := nodes[..p];
    assert r !in avail + AllOuts(a);
    forall x | x in AllReads(a) ensures x != r {
      var i :| 0 <= i < |a| && x in Reads(a[i]);
      ReadsEvaluated(a, avail, i);
    }
  }

  lemma ReplacedSolves(m: Interp, nodes: seq<Node>, env: Env, p: nat, pos: nat, block: seq<Node>,
                       r: Name, f: Name, e': Env)
    requires WellFormed(nodes, env.Keys) && p < pos <= |nodes|
    requires r != ABSENT && f != ABSENT && Outs(nodes[p]) == {r} && r !in AllReads(nodes[p + 1..pos])
    requires Extends(m, nodes, env, r, f, block, e')
    ensures forall n :: n in Replaced(nodes, p, pos, block, r, f) ==> Solves(m, n, e')
  {
    var a, b, c := nodes[..p], nodes[p + 1..pos], nodes[pos..];
    assert r in Outs(nodes[p]);
    UnreadBefore(nodes, env.Keys, p, r);
    RenameUnread(a, r, f);
    RenameUnread(b, r, f);
    forall n | n in Replaced(nodes, p, pos, block, r, f) ensures Solves(m, n, e') {
      if n !in block {
        RenamedSource(nodes, r, f, p, pos, n);
        var i :| 0 <= i < |nodes| && n == nodes[i].(inputs := RenameInputs(nodes[i].inputs, r, f));
        RenamedSolves(m, nodes, env, i, r, f, block, e');
      }
    }
  }

  lemma ReplacedOuts(nodes: seq<Node>, avail: set<Name>, p: nat, pos: nat, block: seq<Node>, r: Name, f: Name)
    requires WellFormed(nodes, avail) && p < pos <= |nodes|
    ensures AllOuts(nodes) <= AllOuts(Replaced(nodes, p, pos, block, r, f)) + Outs(nodes[p])
  {
    SplitAround(nodes, avail, p, pos);
    var a, b, c := nodes[..p], nodes[p + 1..pos], Rename(nodes[pos..], r, f);
    RenameAllOuts(nodes[pos..], r, f);
    AllOutsConcat(a + b + block, c);
    AllOutsConcat(a + b, block);
    AllOutsConcat(a, b);
  }

  /**
    The rewrite preserves the value of every tensor but `r`: `e'` extends the values of the
    old graph with values that satisfy the inserted nodes and give `f` the value `r` had.
  */
  lemma ReplacedPreserves(m: Interp, nodes: seq<Node>, env: Env, env': Env, p: nat, pos: nat, block: seq<Node>,
                          r: Name, f: Name, e': Env)
    requires WellFormed(nodes, env.Keys) && p < pos <= |nodes|
    requires r != ABSENT && f != ABSENT && Outs(nodes[p]) == {r} && r !in AllReads(nodes[p + 1..pos])
    requires env.Keys <= env'.Keys
    requires (env'.Keys - env.Keys) + AllOuts(block) !! env.Keys + AllOuts(nodes) && f in AllOuts(block)
    requires WellFormed(block, Reads(nodes[p]) + (env'.Keys - env.Keys))
    requires Extends(m, nodes, env, r, f, block, e') && SubMap(env', e')
    ensures var e, r' := Eval(m, nodes, env), Eval(m, Replaced(nodes, p, pos, block, r, f), env');
      && WellFormed(Replaced(nodes, p, pos, block, r, f), env'.Keys)
      && forall x :: x in e && x != r ==> x in r' && r'[x] == e[x]
  {
    var nodes' := Replaced(nodes, p, pos, block, r, f);
    var inits := env'.Keys - env.Keys;
    assert env.Keys + inits == env'.Keys;
    EvalSolves(m, nodes, env);
    ReplacedWellFormed(nodes, env.Keys, p, pos, block, r, f, inits);
    WellFormedReads(nodes', env'.Keys);
    ReplacedSolves(m, nodes, env, p, pos, block, r, f, e');
    SubEval(m, nodes', env', e');
    ReplacedOuts(nodes, env.Keys, p, pos, block, r, f);
  }

  lemma RenamedSource(nodes: seq<Node>, r: Name, f: Name, p: nat, pos: nat, n': Node)
    requires p < pos <= |nodes|
    requires n' in Rename(nodes[..p], r, f) || n' in Rename(nodes[p + 1..pos], r, f) || n' in Rename(nodes[pos..], r, f)
    ensures exists i :: 0 <= i < |nodes| && n' == nodes[i].(inputs := RenameInputs(nodes[i].inputs, r, f))
  {
  }

  lemma ReadsEvaluated(nodes: seq<Node>, avail: set<Name>, i: nat)
    requires WellFormed(nodes, avail) && i < |nodes|
    ensures Reads(nodes[i]) <= avail + AllOuts(nodes)
  {
    WellFormedIndex(nodes, avail);
    forall x | x in Reads(nodes[i]) && x !in avail ensures x in AllOuts(nodes) {
      var j :| 0 <= j < |nodes[..i]| && x in Outs(nodes[..i][j]);
      assert nodes[..i][j] == nodes[j];
    }
  }
}
