/**
 Reference counts of block nodes (bdrv_ref, bdrv_unref, bdrv_schedule_unref in qemu/block.c):
 who accounts for each reference, through every graph edit, commit and abort.
 */
module References {

  import opened Wrappers
  import opened Digraph
  import opened BlockGraph
  import opened Transactions

  /** The nodes whose reference a replacement record keeps ("moved from @child to @s"). */
  ghost function Saved(log: seq<Action>): multiset<Node> {
    if log == [] then multiset{}
    else Saved(log[..|log| - 1]) + SavedBy(log[|log| - 1])
  }

  ghost function SavedBy(a: Action): multiset<Node> {
    if a.ChildReplaced? && a.oldBs.Some? then multiset{a.oldBs.value} else multiset{}
  }

  /** Reference counts as held by the nodes, and the references nobody's link accounts for. */
  datatype Refs = Refs(count: map<Node, int>, owned: multiset<Node>, scheduled: multiset<Node>)

  /** refcnt = links to the node + old nodes saved in the open transaction + references owned by
      callers + unrefs already scheduled. */
  ghost predicate Balanced(g: Graph, log: seq<Action>, r: Refs) {
    forall n | n in g.nodes ::
      n in r.count && r.count[n] == |ParentsOf(g, n)| + Saved(log)[n] + r.owned[n] + r.scheduled[n]
  }

  function Ref(r: Refs, n: Option<Node>): Refs {
    if n.Some? && n.value in r.count then r.(count := r.count[n.value := r.count[n.value] + 1]) else r
  }

  function Unref(r: Refs, n: Option<Node>): Refs {
    if n.Some? && n.value in r.count then r.(count := r.count[n.value := r.count[n.value] - 1]) else r
  }

  function Schedule(r: Refs, n: Option<Node>): Refs {
    if n.Some? then r.(scheduled := r.scheduled + multiset{n.value}) else r
  }

  lemma SavedAppend(log: seq<Action>, a: Action)
    ensures Saved(log + [a]) == Saved(log) + SavedBy(a)
  {}

  lemma WithoutOne(s: set<EdgeId>, c: EdgeId)
    ensures |s| == |s - {c}| + (if c in s then 1 else 0)
  {}

  /** Pointing a link elsewhere takes one parent from the old node and gives one to the new. */
  lemma RepointParents(g: Graph, c: EdgeId, to: Option<Node>, n: Node)
    requires c in g.edges
    ensures |ParentsOf(Repoint(g, c, to), n)|
            == |ParentsOf(g, n)| - (if g.edges[c].bs == Some(n) then 1 else 0) + (if to == Some(n) then 1 else 0)
  {
    var h := Repoint(g, c, to);
    OtherParents(g, c, to, n);
    assert c in ParentsOf(g, n) <==> g.edges[c].bs == Some(n);
    assert c in ParentsOf(h, n) <==> to == Some(n);
    hide ParentsOf;
    WithoutOne(ParentsOf(g, n), c);
    WithoutOne(ParentsOf(h, n), c);
  }

  lemma OtherParents(g: Graph, c: EdgeId, to: Option<Node>, n: Node)
    requires c in g.edges
    ensures ParentsOf(Repoint(g, c, to), n) - {c} == ParentsOf(g, n) - {c}
  {}

  /** bdrv_replace_child_tran: a reference for the new node, the old one moves into the record. */
  lemma ReplaceBalanced(g: Graph, g1: Graph, c: EdgeId, to: Option<Node>, log: seq<Action>, r: Refs)
    requires Balanced(g, log, r) && c in g.edges && g1 == Repoint(g, c, to).(slots := g1.slots)
    requires to.Some? ==> to.value in g.nodes
    ensures Balanced(g1, log + [ChildReplaced(c, g.edges[c].bs)], Ref(r, to))
  {
    SavedAppend(log, ChildReplaced(c, g.edges[c].bs));
    forall n | n in g1.nodes
      ensures n in Ref(r, to).count
      ensures Ref(r, to).count[n]
              == |ParentsOf(g1, n)| + Saved(log + [ChildReplaced(c, g.edges[c].bs)])[n] + r.owned[n] + r.scheduled[n]
    {
      RepointParents(g, c, to, n);
      assert ParentsOf(g1, n) == ParentsOf(Repoint(g, c, to), n);
    }
  }

  /** bdrv_replace_child_abort: the reference moves back, the new node's is dropped. */
  lemma ReplaceAborted(g: Graph, g1: Graph, c: EdgeId, was: Option<Node>, log: seq<Action>, r: Refs)
    requires Balanced(g, log + [ChildReplaced(c, was)], r) && c in g.edges
    requires g1 == Repoint(g, c, was).(slots := g1.slots)
    requires g.edges[c].bs.Some? ==> g.edges[c].bs.value in g.nodes
    ensures Balanced(g1, log, Unref(r, g.edges[c].bs))
  {
    SavedAppend(log, ChildReplaced(c, was));
    forall n | n in g1.nodes
      ensures var q := Unref(r, g.edges[c].bs);
              n in q.count && q.count[n] == |ParentsOf(g1, n)| + Saved(log)[n] + q.owned[n] + q.scheduled[n]
    {
      RepointParents(g, c, was, n);
      assert ParentsOf(g1, n) == ParentsOf(Repoint(g, c, was), n);
    }
  }

  lemma AttachParents(g: Graph, g1: Graph, c: EdgeId, edge: Edge, n: Node)
    requires c !in g.edges && g1.edges == g.edges[c := edge]
    ensures |ParentsOf(g1, n)| == |ParentsOf(g, n)| + (if edge.bs == Some(n) then 1 else 0)
  {
    WithoutOne(ParentsOf(g1, n), c);
    assert ParentsOf(g1, n) - {c} == ParentsOf(g, n);
  }

  /** A new link comes with a reference of its own. */
  lemma AttachBalanced(g: Graph, g1: Graph, c: EdgeId, edge: Edge, log: seq<Action>, r: Refs)
    requires Balanced(g, log, r) && c !in g.edges && edge.bs.Some? && edge.bs.value in g.nodes
    requires g1 == g.(edges := g.edges[c := edge], slots := g1.slots)
    ensures Balanced(g1, log + [ChildAttached(c)], Ref(r, edge.bs))
  {
    SavedAppend(log, ChildAttached(c));
    var log1 := log + [ChildAttached(c)];
    assert Saved(log1) == Saved(log);
    forall n | n in g1.nodes
      ensures n in Ref(r, edge.bs).count
      ensures Ref(r, edge.bs).count[n] == |ParentsOf(g1, n)| + Saved(log1)[n] + r.owned[n] + r.scheduled[n]
    {
      AttachParents(g, g1, c, edge, n);
    }
  }

  /** A link goes away (abort of an attach, or bdrv_root_unref_child): its reference is scheduled. */
  lemma DetachBalanced(g: Graph, g1: Graph, c: EdgeId, log: seq<Action>, r: Refs)
    requires Balanced(g, log, r) && c in g.edges
    requires g1 == g.(edges := g.edges - {c}, slots := g1.slots)
    ensures Balanced(g1, log, Schedule(r, g.edges[c].bs))
  {
    forall n | n in g1.nodes
      ensures |ParentsOf(g1, n)| == |ParentsOf(g, n)| - (if g.edges[c].bs == Some(n) then 1 else 0)
    {
      WithoutOne(ParentsOf(g, n), c);
      assert ParentsOf(g1, n) == ParentsOf(g, n) - {c};
    }
  }

  /** Records without a saved node, and edits that leave all ends of links alone, change nothing. */
  lemma OtherBalanced(g: Graph, g1: Graph, log: seq<Action>, a: Action, r: Refs)
    requires !a.ChildReplaced? && g1.nodes == g.nodes && g1.edges.Keys == g.edges.Keys
    requires forall c | c in g.edges :: g1.edges[c].bs == g.edges[c].bs
    ensures Balanced(g, log, r) <==> Balanced(g1, log + [a], r)
    ensures Balanced(g, log + [a], r) <==> Balanced(g1, log, r)
  {
    SavedAppend(log, a);
    forall n ensures ParentsOf(g1, n) == ParentsOf(g, n) {}
  }

  /** When a count reaches zero, no link, record, caller or scheduled unref refers to the node. */
  lemma ZeroIsUnused(g: Graph, log: seq<Action>, r: Refs, n: Node)
    requires Balanced(g, log, r) && n in g.nodes
    ensures r.count[n] >= 0
    ensures r.count[n] == 0
            <==> ParentsOf(g, n) == {} && n !in Saved(log) && n !in r.owned && n !in r.scheduled
  {}
}
