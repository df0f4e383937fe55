/**
 Reachability and acyclicity of a finite directed graph, given by its set of arcs.
 The block layer's node graph (qemu/block.c) is seen through this: an arc for every
 parent-child link between two nodes.
 */
module Digraph {

  type Node = nat
  type Arcs = set<(Node, Node)>

  ghost predicate IsPath(e: Arcs, p: seq<Node>) {
    |p| > 0 && forall i | 0 <= i < |p| - 1 :: (p[i], p[i + 1]) in e
  }

  /** `b` can be reached from `a` by following zero or more arcs. */
  ghost predicate Reach(e: Arcs, a: Node, b: Node) {
    exists p :: IsPath(e, p) && p[0] == a && p[|p| - 1] == b
  }

  /** No arc closes a cycle. */
  ghost predicate Acyclic(e: Arcs) {
    forall a, b | (a, b) in e :: !Reach(e, b, a)
  }

  lemma ReachSelf(e: Arcs, a: Node)
    ensures Reach(e, a, a)
  {
    assert IsPath(e, [a]);
  }

  lemma ReachArc(e: Arcs, a: Node, b: Node)
    requires (a, b) in e
    ensures Reach(e, a, b)
  {
    assert IsPath(e, [a, b]);
  }

  lemma ReachTrans(e: Arcs, a: Node, b: Node, c: Node)
    requires Reach(e, a, b) && Reach(e, b, c)
    ensures Reach(e, a, c)
  {
    var p :| IsPath(e, p) && p[0] == a && p[|p| - 1] == b;
    var q :| IsPath(e, q) && q[0] == b && q[|q| - 1] == c;
    var r := p + q[1..];
    forall i | 0 <= i < |r| - 1 ensures (r[i], r[i + 1]) in e {
      if i < |p| - 1 {
        assert (p[i], p[i + 1]) in e;
      } else {
        assert (q[i - |p| + 1], q[i - |p| + 2]) in e;
      }
    }
    assert IsPath(e, r);
  }

  lemma ReachMono(e: Arcs, f: Arcs, a: Node, b: Node)
    requires e <= f && Reach(e, a, b)
    ensures Reach(f, a, b)
  {}

  lemma AcyclicMono(e: Arcs, f: Arcs)
    requires e <= f && Acyclic(f)
    ensures Acyclic(e)
  {}

  /** The first arc of a path that moves. */
  lemma ReachFirst(e: Arcs, a: Node, b: Node) returns (m: Node)
    requires Reach(e, a, b) && a != b
    ensures (a, m) in e && Reach(e, m, b)
  {
    var p :| IsPath(e, p) && p[0] == a && p[|p| - 1] == b;
    m := p[1];
    assert IsPath(e, p[1..]);
  }

  /** A set closed under arcs holds everything reachable from its members. */
  lemma ClosedReach(e: Arcs, s: set<Node>, a: Node, b: Node)
    requires a in s && Reach(e, a, b)
    requires forall x, y | (x, y) in e && x in s :: y in s
    ensures b in s
  {
    var p :| IsPath(e, p) && p[0] == a && p[|p| - 1] == b;
    ClosedPath(e, s, p, |p| - 1);
  }

  lemma {:induction false} ClosedPath(e: Arcs, s: set<Node>, p: seq<Node>, i: nat)
    requires IsPath(e, p) && p[0] in s && i < |p|
    requires forall x, y | (x, y) in e && x in s :: y in s
    ensures p[i] in s
  {
    if i > 0 {
      ClosedPath(e, s, p, i - 1);
      assert (p[i - 1], p[i - 1 + 1]) in e;
    }
  }

  /** Graphs that agree on the arcs out of everything reachable from `a` agree on what that is. */
  lemma SameReach(e: Arcs, f: Arcs, a: Node, b: Node)
    requires forall x: Node, y: Node | Reach(e, a, x) :: (x, y) in e <==> (x, y) in f
    ensures Reach(e, a, b) <==> Reach(f, a, b)
  {
    if Reach(e, a, b) {
      var p :| IsPath(e, p) && p[0] == a && p[|p| - 1] == b;
      SamePath(e, f, a, p);
    }
    if Reach(f, a, b) {
      var p :| IsPath(f, p) && p[0] == a && p[|p| - 1] == b;
      SamePath(e, f, a, p);
    }
  }

  lemma {:induction false} SamePath(e: Arcs, f: Arcs, a: Node, p: seq<Node>)
    requires forall x: Node, y: Node | Reach(e, a, x) :: (x, y) in e <==> (x, y) in f
    requires (IsPath(e, p) || IsPath(f, p)) && p[0] == a
    ensures IsPath(e, p) && IsPath(f, p)
    decreases |p|
  {
    if |p| > 1 {
      var q := p[..|p| - 1];
      SamePath(e, f, a, q);
      assert Reach(e, a, q[|q| - 1]);
      assert (p[|p| - 2], p[|p| - 2 + 1]) in e <==> (p[|p| - 2], p[|p| - 2 + 1]) in f;
      forall i | 0 <= i < |p| - 1 ensures (p[i], p[i + 1]) in e && (p[i], p[i + 1]) in f {
        if i < |q| - 1 { assert (q[i], q[i + 1]) in e && (q[i], q[i + 1]) in f; }
      }
    }
  }

  /** What is reachable once the arc u -> v is there. */
  lemma ReachWithArc(e: Arcs, u: Node, v: Node, a: Node, b: Node)
    requires Reach(e + {(u, v)}, a, b)
    ensures Reach(e, a, b) || (Reach(e, a, u) && Reach(e, v, b))
  {
    var p :| IsPath(e + {(u, v)}, p) && p[0] == a && p[|p| - 1] == b;
    PathWithArc(e, u, v, p);
  }

  lemma {:induction false} PathWithArc(e: Arcs, u: Node, v: Node, p: seq<Node>)
    requires IsPath(e + {(u, v)}, p)
    ensures var a, b := p[0], p[|p| - 1]; Reach(e, a, b) || (Reach(e, a, u) && Reach(e, v, b))
    decreases |p|
  {
    var a, b := p[0], p[|p| - 1];
    if |p| == 1 {
      ReachSelf(e, a);
    } else {
      var q := p[1..];
      assert (p[0], p[0 + 1]) in e + {(u, v)};
      assert IsPath(e + {(u, v)}, q) by {
        forall i | 0 <= i < |q| - 1 ensures (q[i], q[i + 1]) in e + {(u, v)} {
          assert (p[i + 1], p[i + 1 + 1]) in e + {(u, v)};
        }
      }
      PathWithArc(e, u, v, q);
      if (a, q[0]) in e {
        ReachArc(e, a, q[0]);
        if Reach(e, q[0], b) { ReachTrans(e, a, q[0], b); } else { ReachTrans(e, a, q[0], u); }
      } else {
        ReachSelf(e, u);
      }
    }
  }

  /** A new arc u -> v closes a cycle exactly when v already reaches u. */
  lemma AddArc(e: Arcs, u: Node, v: Node)
    requires Acyclic(e)
    ensures Acyclic(e + {(u, v)}) <==> !Reach(e, v, u)
  {
    var f := e + {(u, v)};
    if Reach(e, v, u) {
      ReachMono(e, f, v, u);
      assert (u, v) in f;
    } else {
      forall a, b | (a, b) in f ensures !Reach(f, b, a) { AddArcNoCycle(e, u, v, a, b); }
    }
  }

  lemma AddArcNoCycle(e: Arcs, u: Node, v: Node, a: Node, b: Node)
    requires Acyclic(e) && !Reach(e, v, u) && (a, b) in e + {(u, v)}
    ensures !Reach(e + {(u, v)}, b, a)
  {
    if Reach(e + {(u, v)}, b, a) {
      ReachWithArc(e, u, v, b, a);
      if (a, b) in e {
        ReachArc(e, a, b);
        ReachTrans(e, v, a, b);
        ReachTrans(e, v, b, u);
      }
    }
  }

  /** In an acyclic graph an arc leads to a node that reaches strictly less. */
  ghost function Below(e: Arcs, nodes: set<Node>, a: Node): set<Node> {
    set b | b in nodes && Reach(e, a, b)
  }

  lemma BelowShrinks(e: Arcs, nodes: set<Node>, a: Node, b: Node)
    requires Acyclic(e) && (a, b) in e && a in nodes
    ensures Below(e, nodes, b) < Below(e, nodes, a)
  {
    ReachSelf(e, a);
    forall c | c in Below(e, nodes, b) ensures c in Below(e, nodes, a) {
      ReachArc(e, a, b);
      ReachTrans(e, a, b, c);
    }
    assert a in Below(e, nodes, a) && a !in Below(e, nodes, b);
  }
}
