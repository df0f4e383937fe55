/**
 The node graph of qemu/block.c as a value: nodes, the links (BdrvChild) between parents and
 nodes, the `backing` and `file` slots and `inherits_from`; an absent entry is NULL.  A link is in its parent node's
 children list and in its target's parents list exactly while its `bs` is set, so both lists are
 read off the links.  They are visited in an arbitrary order, which covers every list order.
 */
module BlockGraph {

  import opened Wrappers
  import opened Digraph

  type EdgeId = nat

  /** BLK_PERM_*; a permission mask is a set of them. */
  datatype Perm = ConsistentRead | Write | WriteUnchanged | Resize
  type Perms = set<Perm>
  const BLK_PERM_ALL: Perms := {ConsistentRead, Write, WriteUnchanged, Resize}

  /** BDRV_CHILD_* */
  datatype Role = Role(data: bool, metadata: bool, filtered: bool, cow: bool, primary: bool)

  /** Who holds a link: another node (child_of_bds), a block job (child_job) or a backend (child_root). */
  datatype Parent = NodeParent(node: Node) | JobParent(job: nat) | BackendParent(blk: nat)

  /** BdrvChild */
  datatype Edge = Edge(bs: Option<Node>, parent: Parent, role: Role, perm: Perms, shared: Perms, frozen: bool)

  /** bs->backing and bs->file */
  datatype Slot = BackingSlot | FileSlot

  datatype Graph = Graph(
    nodes: set<Node>,
    edges: map<EdgeId, Edge>,
    slots: map<(Node, Slot), EdgeId>,
    inherits: map<Node, Node>)

  function ChildrenOf(g: Graph, n: Node): set<EdgeId> {
    set c | c in g.edges && g.edges[c].parent == NodeParent(n) && g.edges[c].bs.Some?
  }

  function ParentsOf(g: Graph, n: Node): set<EdgeId> {
    set c | c in g.edges && g.edges[c].bs == Some(n)
  }

  function ArcsOf(g: Graph): Arcs {
    set c | c in g.edges && g.edges[c].parent.NodeParent? && g.edges[c].bs.Some?
      :: (g.edges[c].parent.node, g.edges[c].bs.value)
  }

  /** Every link joins nodes of the graph. */
  ghost predicate Closed(g: Graph) {
    forall c | c in g.edges ::
      && (g.edges[c].bs.Some? ==> g.edges[c].bs.value in g.nodes)
      && (g.edges[c].parent.NodeParent? ==> g.edges[c].parent.node in g.nodes)
  }

  /** klass->stay_at_node: block jobs are never moved to another node. */
  predicate StaysAtNode(p: Parent) {
    p.JobParent?
  }

  lemma ArcOfChild(g: Graph, n: Node, c: EdgeId)
    requires c in ChildrenOf(g, n)
    ensures (n, g.edges[c].bs.value) in ArcsOf(g)
  {}

  lemma ReachFirstChild(g: Graph, bs: Node, child: Node) returns (c: EdgeId)
    requires Reach(ArcsOf(g), bs, child) && bs != child
    ensures c in ChildrenOf(g, bs) && Reach(ArcsOf(g), g.edges[c].bs.value, child)
  {
    var m := ReachFirst(ArcsOf(g), bs, child);
    c :| c in ChildrenOf(g, bs) && g.edges[c].bs.value == m;
  }

  /** bdrv_recurse_has_child */
  method RecurseHasChild(g: Graph, bs: Node, child: Node) returns (r: bool)
    requires Closed(g) && Acyclic(ArcsOf(g)) && bs in g.nodes
    ensures r <==> Reach(ArcsOf(g), bs, child)
    decreases Below(ArcsOf(g), g.nodes, bs)
  {
    ghost var e := ArcsOf(g);
    if bs == child {
      ReachSelf(e, bs);
      return true;
    }
    var todo := ChildrenOf(g, bs);
    while todo != {}
      invariant todo <= ChildrenOf(g, bs)
      invariant forall c | c in ChildrenOf(g, bs) - todo :: !Reach(e, g.edges[c].bs.value, child)
    {
      var c :| c in todo;
      var next := g.edges[c].bs.value;
      ArcOfChild(g, bs, c);
      BelowShrinks(e, g.nodes, bs, next);
      var found := RecurseHasChild(g, next, child);
      if found {
        ReachArc(e, bs, next);
        ReachTrans(e, bs, next, child);
        return true;
      }
      todo := todo - {c};
    }
    if Reach(e, bs, child) {
      var c := ReachFirstChild(g, bs, child);
      assert false;
    }
    return false;
  }

  /** `c` hangs below `to`: some node reachable from `to` has `c` among its children. */
  ghost predicate InSubtree(g: Graph, to: Node, c: EdgeId) {
    exists v :: Reach(ArcsOf(g), to, v) && c in ChildrenOf(g, v)
  }

  /** The search has only found nodes below `to`, and only such nodes are queued. */
  ghost predicate Searched(g: Graph, to: Node, found: set<Node>, queue: seq<Node>) {
    && to in found && found <= g.nodes
    && (forall v | v in queue :: v in found)
    && (forall v | v in found :: Reach(ArcsOf(g), to, v))
  }

  /** `v` has been looked at: `c` is not among its children and they have all been found. */
  ghost predicate Explored(g: Graph, c: EdgeId, v: Node, found: set<Node>) {
    forall x | x in ChildrenOf(g, v) :: x != c && g.edges[x].bs.value in found
  }

  /** The inner loop of should_update_child: queue the unseen children of `v`, stop at `c`. */
  method ScanChildren(g: Graph, c: EdgeId, to: Node, v: Node, found0: set<Node>, queue0: seq<Node>)
    returns (hit: bool, found: set<Node>, queue: seq<Node>)
    requires Closed(g) && c in g.edges && v in found0 && Searched(g, to, found0, queue0)
    ensures Searched(g, to, found, queue) && found0 <= found && queue0 <= queue
    ensures found == found0 + set w | w in queue[|queue0|..]
    ensures found == found0 ==> queue == queue0
    ensures if hit then InSubtree(g, to, c) else Explored(g, c, v, found)
  {
    ghost var e := ArcsOf(g);
    hit, found, queue := false, found0, queue0;
    var todo := ChildrenOf(g, v);
    while todo != {}
      invariant todo <= ChildrenOf(g, v)
      invariant Searched(g, to, found, queue) && found0 <= found && queue0 <= queue
      invariant found == found0 + set w | w in queue[|queue0|..]
      invariant found == found0 ==> queue == queue0
      invariant forall x | x in ChildrenOf(g, v) - todo :: x != c && g.edges[x].bs.value in found
    {
      var c2 :| c2 in todo;
      if c2 == c {
        hit := true;
        break;
      }
      todo := todo - {c2};
      var bs := g.edges[c2].bs.value;
      if bs in found {
        continue;
      }
      ArcOfChild(g, v, c2);
      ReachArc(e, v, bs);
      ReachTrans(e, to, v, bs);
      assert (queue + [bs])[|queue0|..] == queue[|queue0|..] + [bs];
      queue := queue + [bs];
      found := found + {bs};
    }
  }

  lemma StillExplored(g: Graph, c: EdgeId, v: Node, found0: set<Node>, queue0: seq<Node>, found: set<Node>, queue: seq<Node>)
    requires forall w | w in found0 && w !in [v] + queue0 :: Explored(g, c, w, found0)
    requires found0 <= found && queue0 <= queue && Explored(g, c, v, found)
    requires found == found0 + set w | w in queue[|queue0|..]
    ensures forall w | w in found && w !in queue :: Explored(g, c, w, found)
  {}

  /** should_update_child */
  method ShouldUpdateChild(g: Graph, c: EdgeId, to: Node) returns (r: bool)
    requires Closed(g) && c in g.edges && to in g.nodes
    ensures r <==> !g.edges[c].parent.JobParent? && !InSubtree(g, to, c)
  {
    if StaysAtNode(g.edges[c].parent) {
      return false;
    }
    r := true;
    var found, queue := {to}, [to];
    ReachSelf(ArcsOf(g), to);
    while |queue| > 0
      invariant Searched(g, to, found, queue)
      invariant r ==> forall v | v in found && v !in queue :: Explored(g, c, v, found)
      invariant !r ==> InSubtree(g, to, c)
      decreases |g.nodes - found|, |queue|
    {
      var v := queue[0];
      ghost var found0, queue0 := found, queue[1..];
      assert queue == [v] + queue0;
      var hit;
      hit, found, queue := ScanChildren(g, c, to, v, found, queue[1..]);
      if hit {
        r := false;
      }
      if r { StillExplored(g, c, v, found0, queue0, found, queue); }
      if found != found0 { FewerLeft(g.nodes, found0, found); }
    }
    if r { SearchComplete(g, c, to, found); }
  }

  lemma FewerLeft(all: set<Node>, a: set<Node>, b: set<Node>)
    requires a < b <= all
    ensures |all - b| < |all - a|
  {
    var x :| x in b && x !in a;
    assert all - b < all - a;
    SmallerSet(all - b, all - a);
  }

  lemma SmallerSet(a: set<Node>, b: set<Node>)
    requires a < b
    ensures |a| < |b|
  {
    assert b == a + (b - a) && |b - a| > 0;
  }

  lemma SearchComplete(g: Graph, c: EdgeId, to: Node, found: set<Node>)
    requires to in found
    requires forall v | v in found :: Explored(g, c, v, found)
    ensures !InSubtree(g, to, c)
  {
    forall x, y | (x, y) in ArcsOf(g) && x in found ensures y in found {
      var d :| d in ChildrenOf(g, x) && g.edges[d].bs.value == y;
    }
    forall v | Reach(ArcsOf(g), to, v) ensures c !in ChildrenOf(g, v) {
      ClosedReach(ArcsOf(g), found, to, v);
    }
  }

  /** The links after `c` has been pointed at `to`. */
  function Repoint(g: Graph, c: EdgeId, to: Option<Node>): Graph
    requires c in g.edges
  {
    g.(edges := g.edges[c := g.edges[c].(bs := to)])
  }

  lemma RepointArcs(g: Graph, c: EdgeId, to: Option<Node>)
    requires c in g.edges
    ensures ArcsOf(Repoint(g, c, None)) <= ArcsOf(g)
    ensures var p := g.edges[c].parent;
            ArcsOf(Repoint(g, c, to))
            == ArcsOf(Repoint(g, c, None)) + (if p.NodeParent? && to.Some? then {(p.node, to.value)} else {})
  {
    var h, h0 := Repoint(g, c, to), Repoint(g, c, None);
    forall x | x in ArcsOf(h0) ensures x in ArcsOf(g) {
      var d :| d in h0.edges && h0.edges[d].parent.NodeParent? && h0.edges[d].bs.Some?
               && x == (h0.edges[d].parent.node, h0.edges[d].bs.value);
      assert h0.edges[d] == g.edges[d];
    }
    var p := h.edges[c].parent;
    var extra := if p.NodeParent? && to.Some? then {(p.node, to.value)} else {};
    forall x | x in ArcsOf(h) ensures x in ArcsOf(h0) + extra {
      var d :| d in h.edges && h.edges[d].parent.NodeParent? && h.edges[d].bs.Some?
               && x == (h.edges[d].parent.node, h.edges[d].bs.value);
      if d != c { assert h.edges[d] == h0.edges[d]; }
    }
    forall x | x in ArcsOf(h0) ensures x in ArcsOf(h) {
      var d :| d in h0.edges && h0.edges[d].parent.NodeParent? && h0.edges[d].bs.Some?
               && x == (h0.edges[d].parent.node, h0.edges[d].bs.value);
      assert h.edges[d] == h0.edges[d];
    }
    if p.NodeParent? && to.Some? { assert (h.edges[c].parent.node, h.edges[c].bs.value) in ArcsOf(h); }
  }

  /** Moving a link to `to` leaves the graph acyclic exactly when the link is not below `to`. */
  lemma MoveIsAcyclic(g: Graph, c: EdgeId, to: Node)
    requires Acyclic(ArcsOf(g)) && c in g.edges && g.edges[c].bs.Some?
    ensures Acyclic(ArcsOf(Repoint(g, c, Some(to)))) <==> !InSubtree(g, to, c)
  {
    var p := g.edges[c].parent;
    var e, e0 := ArcsOf(g), ArcsOf(Repoint(g, c, None));
    RepointArcs(g, c, Some(to));
    RepointArcs(g, c, g.edges[c].bs);
    assert Repoint(g, c, g.edges[c].bs) == g;
    AcyclicMono(e0, e);
    if p.NodeParent? {
      AddArc(e0, p.node, to);
      if Reach(e, to, p.node) {
        ReachWithArc(e0, p.node, g.edges[c].bs.value, to, p.node);
        assert c in ChildrenOf(g, p.node);
      } else if Reach(e0, to, p.node) {
        ReachMono(e0, e, to, p.node);
      }
    }
  }

  /** `h` looks like `g` from `to` downwards. */
  ghost predicate SameSubtree(g: Graph, h: Graph, to: Node) {
    && (forall v :: Reach(ArcsOf(g), to, v) <==> Reach(ArcsOf(h), to, v))
    && (forall v | Reach(ArcsOf(g), to, v) :: ChildrenOf(h, v) == ChildrenOf(g, v))
  }

  /** Moving a link that is not below `to` changes nothing below `to`. */
  lemma MoveKeepsSubtree(g: Graph, c: EdgeId, to: Node)
    requires c in g.edges && g.edges[c].bs.Some? && !InSubtree(g, to, c)
    ensures SameSubtree(g, Repoint(g, c, Some(to)), to)
  {
    var h := Repoint(g, c, Some(to));
    var e, f := ArcsOf(g), ArcsOf(h);
    forall x | Reach(e, to, x) ensures ChildrenOf(h, x) == ChildrenOf(g, x) {
      assert c !in ChildrenOf(g, x);
    }
    forall x: Node, y: Node | Reach(e, to, x) ensures (x, y) in e <==> (x, y) in f {
      if (x, y) in e {
        var k :| k in ChildrenOf(g, x) && g.edges[k].bs.value == y;
        ArcOfChild(h, x, k);
      }
      if (x, y) in f {
        var k :| k in ChildrenOf(h, x) && h.edges[k].bs.value == y;
        ArcOfChild(g, x, k);
      }
    }
    forall v ensures Reach(e, to, v) <==> Reach(f, to, v) { SameReach(e, f, to, v); }
  }

  lemma SubtreeMembers(g: Graph, h: Graph, to: Node, c: EdgeId)
    requires SameSubtree(g, h, to)
    ensures InSubtree(g, to, c) <==> InSubtree(h, to, c)
  {}
}
