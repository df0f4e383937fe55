/**
 bdrv_topological_dfs and the list building of bdrv_list_refresh_perms: a depth-first walk that
 prepends a node after all its children.
 */
module Topological {

  import opened Wrappers
  import opened Digraph
  import opened BlockGraph

  /** Each node once, and every child of a listed node is listed behind it. */
  ghost predicate Sorted(e: Arcs, list: seq<Node>) {
    && (forall i, j | 0 <= i < j < |list| :: list[i] != list[j])
    && (forall i, b | 0 <= i < |list| && (list[i], b) in e :: b in list[i + 1..])
  }

  ghost function Elements(list: seq<Node>): set<Node> {
    set n | n in list
  }

  lemma SortedIsClosed(e: Arcs, list: seq<Node>, a: Node, b: Node)
    requires Sorted(e, list) && a in list && Reach(e, a, b)
    ensures b in list
  {
    forall x, y | (x, y) in e && x in Elements(list) ensures y in Elements(list) {
      var i :| 0 <= i < |list| && list[i] == x;
      assert y in list[i + 1..];
    }
    ClosedReach(e, Elements(list), a, b);
  }

  /** A parent is listed before each of its children. */
  lemma ParentsFirst(e: Arcs, list: seq<Node>, i: nat, j: nat)
    requires Sorted(e, list) && i < |list| && j < |list| && (list[i], list[j]) in e
    ensures i < j
  {}

  lemma Prepend(e: Arcs, list: seq<Node>, bs: Node)
    requires Sorted(e, list) && bs !in list
    requires forall b | (bs, b) in e :: b in list
    ensures Sorted(e, [bs] + list)
  {
    var l := [bs] + list;
    forall i, b | 0 <= i < |l| && (l[i], b) in e ensures b in l[i + 1..] {
      if i == 0 {
        assert l[1..] == list;
      } else {
        assert l[i + 1..] == list[i..];
        assert (list[i - 1], b) in e;
      }
    }
  }

  /** The nodes being visited further up the recursion, all of them ancestors of `bs`. */
  ghost predicate Visiting(e: Arcs, gray: set<Node>, bs: Node) {
    bs !in gray && forall x | x in gray :: Reach(e, x, bs)
  }

  lemma VisitingChild(e: Arcs, gray: set<Node>, bs: Node, child: Node)
    requires Acyclic(e) && Visiting(e, gray, bs) && (bs, child) in e
    ensures Visiting(e, gray + {bs}, child)
  {
    ReachArc(e, bs, child);
    ReachSelf(e, bs);
    assert child != bs && child !in gray;
    forall x | x in gray + {bs} ensures Reach(e, x, child) {
      ReachTrans(e, x, bs, child);
    }
  }

  /**
   bdrv_topological_dfs.  `list` must be sorted and closed under children, as the result of an
   earlier call or empty; `gray` are the nodes whose visit is still in progress.
   */
  method Dfs(g: Graph, list0: seq<Node>, found0: set<Node>, bs: Node, ghost gray: set<Node>)
    returns (list: seq<Node>, found: set<Node>)
    requires Closed(g) && Acyclic(ArcsOf(g)) && bs in g.nodes
    requires Sorted(ArcsOf(g), list0) && found0 <= g.nodes
    requires found0 == Elements(list0) + gray && Visiting(ArcsOf(g), gray, bs)
    ensures Sorted(ArcsOf(g), list) && found <= g.nodes
    ensures found == Elements(list) + gray
    ensures forall n :: n in list <==> n in list0 || Reach(ArcsOf(g), bs, n)
    decreases g.nodes - found0
  {
    ghost var e := ArcsOf(g);
    list, found := list0, found0;
    if bs in found {
      forall n | Reach(e, bs, n) ensures n in list { SortedIsClosed(e, list, bs, n); }
      return;
    }
    found := found + {bs};
    var todo := ChildrenOf(g, bs);
    while todo != {}
      invariant todo <= ChildrenOf(g, bs)
      invariant Sorted(e, list) && found <= g.nodes && bs !in list
      invariant found == Elements(list) + (gray + {bs}) && found0 < found
      invariant forall n | n in list0 :: n in list
      invariant forall n | n in list :: n in list0 || Reach(e, bs, n)
      invariant forall c | c in ChildrenOf(g, bs) - todo :: g.edges[c].bs.value in list
    {
      var child :| child in todo;
      var next := g.edges[child].bs.value;
      ArcOfChild(g, bs, child);
      VisitingChild(e, gray, bs, next);
      ghost var before := list;
      list, found := Dfs(g, list, found, next, gray + {bs});
      ChildAdds(e, list0, before, list, bs, next);
      todo := todo - {child};
    }
    Finish(g, list0, list, bs);
    list := [bs] + list;
    assert forall n | n in list :: n == bs || n in list[1..];
  }

  lemma ChildAdds(e: Arcs, list0: seq<Node>, before: seq<Node>, after: seq<Node>, bs: Node, next: Node)
    requires Acyclic(e) && (bs, next) in e && bs !in before
    requires forall n | n in before :: n in list0 || Reach(e, bs, n)
    requires forall n :: n in after <==> n in before || Reach(e, next, n)
    ensures bs !in after && next in after
    ensures forall n | n in before :: n in after
    ensures forall n | n in after :: n in list0 || Reach(e, bs, n)
  {
    ReachSelf(e, next);
    ReachArc(e, bs, next);
    forall n | Reach(e, next, n) ensures Reach(e, bs, n) { ReachTrans(e, bs, next, n); }
  }

  lemma Finish(g: Graph, list0: seq<Node>, list: seq<Node>, bs: Node)
    requires Sorted(ArcsOf(g), list) && bs !in list
    requires forall n | n in list0 :: n in list
    requires forall n | n in list :: n in list0 || Reach(ArcsOf(g), bs, n)
    requires forall c | c in ChildrenOf(g, bs) :: g.edges[c].bs.value in list
    ensures var l := [bs] + list;
            && Sorted(ArcsOf(g), l)
            && Elements(l) == Elements(list) + {bs}
            && forall n :: n in l <==> n in list0 || Reach(ArcsOf(g), bs, n)
  {
    var e, l := ArcsOf(g), [bs] + list;
    forall b | (bs, b) in e ensures b in list {
      var c :| c in ChildrenOf(g, bs) && g.edges[c].bs.value == b;
    }
    Prepend(e, list, bs);
    ReachSelf(e, bs);
    forall n | Reach(e, bs, n) ensures n in l { SortedIsClosed(e, l, bs, n); }
  }

  /** The loop of bdrv_list_refresh_perms over any list of roots, with repeats. */
  method RefreshList(g: Graph, roots: seq<Node>) returns (list: seq<Node>)
    requires Closed(g) && Acyclic(ArcsOf(g)) && forall r | r in roots :: r in g.nodes
    ensures Sorted(ArcsOf(g), list)
    ensures forall n :: n in list <==> exists r :: r in roots && Reach(ArcsOf(g), r, n)
  {
    ghost var e := ArcsOf(g);
    list := [];
    var found: set<Node> := {};
    for i := 0 to |roots|
      invariant Sorted(e, list) && found == Elements(list) && found <= g.nodes
      invariant forall n :: n in list <==> exists r :: r in roots[..i] && Reach(e, r, n)
    {
      ghost var before := list;
      list, found := Dfs(g, list, found, roots[i], {});
      assert roots[..i + 1] == roots[..i] + [roots[i]];
    }
    assert roots[..|roots|] == roots;
  }
}
