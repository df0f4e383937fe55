/**
 Permissions on the links of the node graph (qemu/block.c): what a node's parents together ask
 for, when they conflict, and what a node passes on to its children.
 */
module Permissions {

  import opened Wrappers
  import opened Digraph
  import opened BlockGraph
  import opened Topological
  import opened Transactions

  /** What the parents of `n` use, and what all of them share. */
  ghost function CumulativePerm(g: Graph, n: Node): Perms {
    set c, p | c in ParentsOf(g, n) && p in g.edges[c].perm :: p
  }

  ghost function CumulativeShared(g: Graph, n: Node): Perms {
    set p | p in BLK_PERM_ALL && forall c | c in ParentsOf(g, n) :: p in g.edges[c].shared
  }

  /** bdrv_get_cumulative_perm */
  method GetCumulativePerm(g: Graph, n: Node) returns (perm: Perms, shared: Perms)
    ensures perm == CumulativePerm(g, n) && shared == CumulativeShared(g, n)
  {
    perm, shared := {}, BLK_PERM_ALL;
    var todo := ParentsOf(g, n);
    while todo != {}
      invariant todo <= ParentsOf(g, n)
      invariant perm == set c, p | c in ParentsOf(g, n) - todo && p in g.edges[c].perm :: p
      invariant shared == set p | p in BLK_PERM_ALL && forall c | c in ParentsOf(g, n) - todo :: p in g.edges[c].shared
    {
      var c :| c in todo;
      perm := perm + g.edges[c].perm;
      shared := shared * g.edges[c].shared;
      todo := todo - {c};
    }
  }

  /** bdrv_a_allow_b: `a` shares everything that `b` uses. */
  predicate Allows(a: Edge, b: Edge) {
    b.perm * a.shared == b.perm
  }

  /** No parent of `n` uses what another one does not share; each pair in both directions. */
  ghost predicate NoConflict(g: Graph, n: Node) {
    forall a, b | a in ParentsOf(g, n) && b in ParentsOf(g, n) && a != b :: Allows(g.edges[a], g.edges[b])
  }

  /** bdrv_parent_perms_conflict */
  method ParentPermsConflict(g: Graph, n: Node) returns (conflict: bool)
    ensures conflict <==> !NoConflict(g, n)
  {
    var outer := ParentsOf(g, n);
    while outer != {}
      invariant outer <= ParentsOf(g, n)
      invariant forall a, b | a in ParentsOf(g, n) - outer && b in ParentsOf(g, n) && a != b :: Allows(g.edges[a], g.edges[b])
    {
      var a :| a in outer;
      var inner := ParentsOf(g, n);
      while inner != {}
        invariant inner <= ParentsOf(g, n)
        invariant forall b | b in ParentsOf(g, n) - inner && a != b :: Allows(g.edges[a], g.edges[b])
      {
        var b :| b in inner;
        inner := inner - {b};
        if a == b {
          continue;
        }
        if !Allows(g.edges[a], g.edges[b]) {
          return true;
        }
      }
      outer := outer - {a};
    }
    return false;
  }

  /** bdrv_child_perm: the driver's answer, with force_share overriding what is shared. */
  function ChildPerm(d: Drivers, n: Node, c: Option<EdgeId>, role: Role, child: Option<Node>, perm: Perms, shared: Perms)
    : (Perms, Perms)
  {
    var (p, s) := d.childPerm(n, c, role, perm, shared);
    (p, if child.Some? && d.forceShare(child.value) then BLK_PERM_ALL else s)
  }

  predicate PassesOn(d: Drivers, n: Node) {
    d.hasDriver(n) && d.hasChildPerm(n)
  }

  /** A link to a child with force_share shares everything; otherwise both masks are what the driver of
      `n` answers for the masks that the parents of `n` have together. */
  ghost predicate HasMasks(d: Drivers, n: Node, c: Option<EdgeId>, perm: Perms, shared: Perms, e: Edge) {
    && e.perm == d.childPerm(n, c, e.role, perm, shared).0
    && (e.bs.Some? && d.forceShare(e.bs.value) ==> e.shared == BLK_PERM_ALL)
    && (e.bs.None? || !d.forceShare(e.bs.value) ==> e.shared == d.childPerm(n, c, e.role, perm, shared).1)
  }

  /** Every child link of `n` carries exactly the driver's function of `n`'s own cumulative permissions. */
  ghost predicate PassedOn(d: Drivers, g: Graph, n: Node) {
    PassesOn(d, n) ==>
      forall c | c in ChildrenOf(g, n) ::
        HasMasks(d, n, Some(c), CumulativePerm(g, n), CumulativeShared(g, n), g.edges[c])
  }

  /** The same links with the same ends; only permissions may differ. */
  ghost predicate SameLinks(g: Graph, h: Graph) {
    && h == g.(edges := h.edges) && h.edges.Keys == g.edges.Keys
    && forall c | c in g.edges ::
         h.edges[c] == g.edges[c].(perm := h.edges[c].perm, shared := h.edges[c].shared)
  }

  /** Permissions differ at most on the links below `n`. */
  ghost predicate ChangedBelow(g: Graph, h: Graph, n: Node) {
    SameLinks(g, h) && forall c | c in g.edges && c !in ChildrenOf(g, n) :: h.edges[c] == g.edges[c]
  }

  lemma SameLists(g: Graph, h: Graph, n: Node)
    requires SameLinks(g, h)
    ensures ChildrenOf(h, n) == ChildrenOf(g, n) && ParentsOf(h, n) == ParentsOf(g, n)
  {}

  lemma SameArcs(g: Graph, h: Graph)
    requires SameLinks(g, h)
    ensures ArcsOf(h) == ArcsOf(g)
  {}

  /** Equal permissions above `n` mean equal cumulative permissions and conflicts at `n`. */
  lemma SameAbove(g: Graph, h: Graph, n: Node)
    requires SameLinks(g, h) && forall c | c in ParentsOf(g, n) :: h.edges[c] == g.edges[c]
    ensures CumulativePerm(h, n) == CumulativePerm(g, n) && CumulativeShared(h, n) == CumulativeShared(g, n)
    ensures NoConflict(h, n) <==> NoConflict(g, n)
  {}

  /** Giving `n`'s links their due does not disturb a node that is not below `n` by a link. */
  lemma Undisturbed(d: Drivers, g: Graph, h: Graph, n: Node, m: Node)
    requires ChangedBelow(g, h, n) && m != n && (n, m) !in ArcsOf(g)
    ensures NoConflict(h, m) <==> NoConflict(g, m)
    ensures SettledAt(d, g, m) ==> SettledAt(d, h, m)
  {
    forall c | c in ParentsOf(g, m) ensures h.edges[c] == g.edges[c] {
      if c in ChildrenOf(g, n) { ArcOfChild(g, n, c); }
    }
    SameAbove(g, h, m);
    SameLists(g, h, m);
  }

  /** What bdrv_node_refresh_perm refuses: writers of a read-only node, writers without `resize` of a
      node whose size is not a multiple of its request alignment, and what .bdrv_check_perm refuses. */
  predicate Refused(d: Drivers, n: Node, perm: Perms, shared: Perms) {
    || (perm * {Write, WriteUnchanged} != {} && (!d.writable(n) || (Resize !in perm && !d.aligned(n))))
    || (d.hasDriver(n) && !d.accepts(n, perm, shared))
  }

  /** No conflict at `n`, no refused writer, and its permissions are passed on. */
  ghost predicate SettledAt(d: Drivers, g: Graph, n: Node) {
    NoConflict(g, n) && PassedOn(d, g, n) && !Refused(d, n, CumulativePerm(g, n), CumulativeShared(g, n))
  }

  ghost predicate Settled(d: Drivers, g: Graph, list: seq<Node>, i: nat)
    requires i <= |list|
  {
    forall j | 0 <= j < i :: SettledAt(d, g, list[j])
  }

  /** One step of the pass over a sorted list: later nodes do not unsettle earlier ones. */
  lemma StepSettles(d: Drivers, g: Graph, h: Graph, list: seq<Node>, i: nat)
    requires Sorted(ArcsOf(g), list) && i < |list| && Settled(d, g, list, i)
    requires ChangedBelow(g, h, list[i]) && SettledAt(d, h, list[i])
    ensures Settled(d, h, list, i + 1)
  {
    forall j | 0 <= j < i ensures SettledAt(d, h, list[j]) {
      if (list[i], list[j]) in ArcsOf(g) { ParentsFirst(ArcsOf(g), list, i, j); }
      Undisturbed(d, g, h, list[i], list[j]);
    }
  }

  /** A node is not its own parent, so changing its children's links leaves its own links alone. */
  lemma OwnLinksSame(g: Graph, h: Graph, n: Node)
    requires Acyclic(ArcsOf(g)) && ChangedBelow(g, h, n)
    ensures CumulativePerm(h, n) == CumulativePerm(g, n) && CumulativeShared(h, n) == CumulativeShared(g, n)
    ensures NoConflict(h, n) <==> NoConflict(g, n)
  {
    forall c | c in ParentsOf(g, n) ensures h.edges[c] == g.edges[c] {
      if c in ChildrenOf(g, n) {
        ArcOfChild(g, n, c);
        ReachSelf(ArcsOf(g), n);
      }
    }
    SameAbove(g, h, n);
  }

  /**
   What a settled graph keeps apart: another parent of the child of `n` uses nothing but what the driver
   of `n` shares on its link, unless the child has force_share; and the link uses only what the other shares.
   */
  lemma NotSharedNotUsed(d: Drivers, g: Graph, n: Node, c: EdgeId, b: EdgeId)
    requires c in ChildrenOf(g, n) && PassesOn(d, n) && SettledAt(d, g, n) && SettledAt(d, g, g.edges[c].bs.value)
    requires b in ParentsOf(g, g.edges[c].bs.value) && b != c
    ensures d.forceShare(g.edges[c].bs.value)
            || g.edges[b].perm <= d.childPerm(n, Some(c), g.edges[c].role, CumulativePerm(g, n), CumulativeShared(g, n)).1
    ensures d.childPerm(n, Some(c), g.edges[c].role, CumulativePerm(g, n), CumulativeShared(g, n)).0 <= g.edges[b].shared
  {
    assert HasMasks(d, n, Some(c), CumulativePerm(g, n), CumulativeShared(g, n), g.edges[c]);
    var m := g.edges[c].bs.value;
    assert c in ParentsOf(g, m) && Allows(g.edges[c], g.edges[b]) && Allows(g.edges[b], g.edges[c]);
  }

  // ---------------------------------------------------------------------------------------
  // The result of a refresh does not depend on the order in which it was computed

  /** The link `c` hangs below a listed node that passes permissions on. */
  ghost predicate Governed(d: Drivers, g: Graph, list: seq<Node>, c: EdgeId)
    requires c in g.edges
  {
    g.edges[c].bs.Some? && g.edges[c].parent.NodeParent?
    && g.edges[c].parent.node in list && PassesOn(d, g.edges[c].parent.node)
  }

  /**
   There is one fixpoint: two graphs with the same links that agree on every link the pass does
   not govern, and in both of which the listed nodes have passed their permissions on, agree on
   every link.
   */
  lemma FixpointUnique(d: Drivers, g: Graph, h: Graph, list: seq<Node>)
    requires SameLinks(g, h) && Sorted(ArcsOf(g), list)
    requires forall n | n in list :: PassedOn(d, g, n) && PassedOn(d, h, n)
    requires forall c | c in g.edges && !Governed(d, g, list, c) :: h.edges[c] == g.edges[c]
    ensures g == h
  {
    forall c | c in g.edges ensures h.edges[c] == g.edges[c] {
      if Governed(d, g, list, c) {
        var i :| 0 <= i < |list| && list[i] == g.edges[c].parent.node;
        FixpointAt(d, g, h, list, i);
      }
    }
    assert h.edges == g.edges;
  }

  lemma {:induction false} FixpointAt(d: Drivers, g: Graph, h: Graph, list: seq<Node>, i: nat)
    requires SameLinks(g, h) && Sorted(ArcsOf(g), list) && i < |list|
    requires forall n | n in list :: PassedOn(d, g, n) && PassedOn(d, h, n)
    requires forall c | c in g.edges && !Governed(d, g, list, c) :: h.edges[c] == g.edges[c]
    ensures forall c | c in ChildrenOf(g, list[i]) :: h.edges[c] == g.edges[c]
    decreases i
  {
    forall c | c in ParentsOf(g, list[i]) ensures h.edges[c] == g.edges[c] {
      if Governed(d, g, list, c) {
        var j :| 0 <= j < |list| && list[j] == g.edges[c].parent.node;
        ArcOfChild(g, list[j], c);
        ParentsFirst(ArcsOf(g), list, j, i);
        FixpointAt(d, g, h, list, j);
      }
    }
    SameAbove(g, h, list[i]);
    SameLists(g, h, list[i]);
    assert PassedOn(d, g, list[i]) && PassedOn(d, h, list[i]);
  }

  // ---------------------------------------------------------------------------------------
  // A refresh fails only if no permissions would do

  /** Only links that the pass governs differ. */
  ghost predicate OnlyGoverned(d: Drivers, g: Graph, h: Graph, list: seq<Node>) {
    SameLinks(g, h) && forall c | c in g.edges && !Governed(d, g, list, c) :: h.edges[c] == g.edges[c]
  }

  /** As far as the pass over the list has come, it agrees with any graph in which all listed nodes are settled. */
  lemma {:induction false} PassAgrees(d: Drivers, g0: Graph, g: Graph, h: Graph, list: seq<Node>, i: nat, k: nat)
    requires Sorted(ArcsOf(g0), list) && k <= i < |list| && Settled(d, g, list, i) && Settled(d, h, list, |list|)
    requires OnlyGoverned(d, g0, g, list) && OnlyGoverned(d, g0, h, list)
    ensures forall c | c in ParentsOf(g0, list[k]) :: h.edges[c] == g.edges[c]
    decreases k
  {
    forall c | c in ParentsOf(g0, list[k])
      ensures h.edges[c] == g.edges[c]
    {
      if Governed(d, g0, list, c) {
        var j :| 0 <= j < |list| && list[j] == g0.edges[c].parent.node;
        ArcOfChild(g0, list[j], c);
        ParentsFirst(ArcsOf(g0), list, j, k);
        PassAgrees(d, g0, g, h, list, i, j);
        SameMasks(d, g0, g, h, list[j], c);
      }
    }
  }

  lemma SameMasks(d: Drivers, g0: Graph, g: Graph, h: Graph, n: Node, c: EdgeId)
    requires SameLinks(g0, g) && SameLinks(g0, h) && PassesOn(d, n) && PassedOn(d, g, n) && PassedOn(d, h, n)
    requires forall b | b in ParentsOf(g0, n) :: h.edges[b] == g.edges[b]
    requires c in ChildrenOf(g0, n)
    ensures h.edges[c] == g.edges[c]
  {
    SameLists(g0, g, n);
    SameLists(g0, h, n);
    SameAbove(g, h, n);
    assert HasMasks(d, n, Some(c), CumulativePerm(g, n), CumulativeShared(g, n), g.edges[c]);
    assert HasMasks(d, n, Some(c), CumulativePerm(g, n), CumulativeShared(g, n), h.edges[c]);
  }

  /** Where the pass stops, every such graph has the same conflict or the same refused masks. */
  lemma StoppedForGood(d: Drivers, g0: Graph, g: Graph, h: Graph, list: seq<Node>, i: nat)
    requires Sorted(ArcsOf(g0), list) && i < |list| && Settled(d, g, list, i)
    requires OnlyGoverned(d, g0, g, list) && OnlyGoverned(d, g0, h, list) && Settled(d, h, list, |list|)
    ensures NoConflict(g, list[i]) && !Refused(d, list[i], CumulativePerm(g, list[i]), CumulativeShared(g, list[i]))
  {
    PassAgrees(d, g0, g, h, list, i, i);
    SameLists(g0, g, list[i]);
    SameAbove(g, h, list[i]);
    assert SettledAt(d, h, list[i]);
  }

  /** There are permissions under which all listed nodes are settled. */
  ghost predicate Satisfiable(d: Drivers, g: Graph, list: seq<Node>) {
    exists h :: OnlyGoverned(d, g, h, list) && Settled(d, h, list, |list|)
  }

  lemma StopIsFinal(d: Drivers, g0: Graph, g: Graph, list: seq<Node>, i: nat)
    requires Sorted(ArcsOf(g0), list) && i < |list| && Settled(d, g, list, i) && OnlyGoverned(d, g0, g, list)
    requires !NoConflict(g, list[i]) || Refused(d, list[i], CumulativePerm(g, list[i]), CumulativeShared(g, list[i]))
    ensures !Satisfiable(d, g0, list)
  {
    hide NoConflict, Refused, Settled, OnlyGoverned;
    if Satisfiable(d, g0, list) {
      var h :| OnlyGoverned(d, g0, h, list) && Settled(d, h, list, |list|);
      StoppedForGood(d, g0, g, h, list, i);
      assert false;
    }
  }

  lemma GovernedStep(d: Drivers, g0: Graph, g: Graph, h: Graph, list: seq<Node>, i: nat)
    requires i < |list| && OnlyGoverned(d, g0, g, list) && ChangedBelow(g, h, list[i])
    requires !PassesOn(d, list[i]) ==> h == g
    ensures OnlyGoverned(d, g0, h, list)
  {}

  /** Some root of the refresh reaches `n`. */
  ghost predicate Covered(g: Graph, roots: seq<Node>, n: Node) {
    exists r :: r in roots && Reach(ArcsOf(g), r, n)
  }

  /** The link `c` hangs below a node that the refresh reaches and that passes permissions on. */
  ghost predicate GovernedFrom(d: Drivers, g: Graph, roots: seq<Node>, c: EdgeId)
    requires c in g.edges
  {
    && g.edges[c].bs.Some? && g.edges[c].parent.NodeParent?
    && Covered(g, roots, g.edges[c].parent.node) && PassesOn(d, g.edges[c].parent.node)
  }

  /** `h` is `g` with new permissions below the roots, in which every node there is settled. */
  ghost predicate Refreshed(d: Drivers, g: Graph, h: Graph, roots: seq<Node>) {
    && SameLinks(g, h)
    && (forall c | c in g.edges && !GovernedFrom(d, g, roots, c) :: h.edges[c] == g.edges[c])
    && (forall n | Covered(g, roots, n) :: SettledAt(d, h, n))
  }

  /** There are permissions under which a refresh from the roots is happy. */
  ghost predicate Refreshable(d: Drivers, g: Graph, roots: seq<Node>) {
    exists h :: Refreshed(d, g, h, roots)
  }

  lemma GovernedIs(d: Drivers, g: Graph, roots: seq<Node>, list: seq<Node>, c: EdgeId)
    requires c in g.edges && forall n :: n in list <==> Covered(g, roots, n)
    ensures Governed(d, g, list, c) <==> GovernedFrom(d, g, roots, c)
  {}

  lemma RefreshableIs(d: Drivers, g: Graph, roots: seq<Node>, list: seq<Node>)
    requires forall n :: n in list <==> Covered(g, roots, n)
    ensures Refreshable(d, g, roots) <==> Satisfiable(d, g, list)
  {
    hide Refreshed, OnlyGoverned, Settled, Covered;
    if Refreshable(d, g, roots) {
      var h :| Refreshed(d, g, h, roots);
      RefreshedIs(d, g, h, roots, list);
    }
    if Satisfiable(d, g, list) {
      var h :| OnlyGoverned(d, g, h, list) && Settled(d, h, list, |list|);
      RefreshedIs(d, g, h, roots, list);
    }
  }

  lemma RefreshedIs(d: Drivers, g: Graph, h: Graph, roots: seq<Node>, list: seq<Node>)
    requires forall n :: n in list <==> Covered(g, roots, n)
    ensures Refreshed(d, g, h, roots) <==> OnlyGoverned(d, g, h, list) && Settled(d, h, list, |list|)
  {
    hide SettledAt, SameLinks, Governed, GovernedFrom, Covered;
    forall c | c in g.edges
      ensures Governed(d, g, list, c) <==> GovernedFrom(d, g, roots, c)
    {
      GovernedIs(d, g, roots, list, c);
    }
    if OnlyGoverned(d, g, h, list) && Settled(d, h, list, |list|) {
      forall n | Covered(g, roots, n)
        ensures SettledAt(d, h, n)
      {
        assert n in list;
      }
    }
  }

  /** The result of a refresh is the only one there is. */
  lemma RefreshUnique(d: Drivers, g: Graph, h: Graph, k: Graph, roots: seq<Node>, list: seq<Node>)
    requires Sorted(ArcsOf(g), list) && forall n :: n in list <==> Covered(g, roots, n)
    requires Refreshed(d, g, h, roots) && Refreshed(d, g, k, roots)
    ensures h == k
  {
    RefreshedIs(d, g, h, roots, list);
    RefreshedIs(d, g, k, roots, list);
    SameArcs(g, h);
    assert forall n | n in list :: SettledAt(d, h, n) && SettledAt(d, k, n);
    assert forall c | c in g.edges :: Governed(d, g, list, c) <==> Governed(d, h, list, c);
    hide SettledAt, Sorted, ArcsOf;
    AcrossSame(g, h, k);
    FixpointUnique(d, h, k, list);
  }

  lemma AcrossSame(g: Graph, h: Graph, k: Graph)
    requires SameLinks(g, h) && SameLinks(g, k)
    ensures SameLinks(h, k)
  {}
}
