/**
 What single edits and whole operations do to the node graph of qemu/block.c, as facts about values:
 well-formedness, rollback, reference counts and the absence of permission conflicts.  The methods of
 BlockLayer are put together from these.
 */
module GraphEdits {

  import opened Wrappers
  import opened Digraph
  import opened BlockGraph
  import opened Topological
  import opened Transactions
  import opened Permissions
  import opened References

  /** What the drivers promise: filters do not support backing files, and a driver that can have
      a filtered or backing child says what permissions that child gets. */
  ghost predicate DriversOk(d: Drivers) {
    forall n :: (d.isFilter(n) ==> !d.supportsBacking(n))
                && (d.isFilter(n) || d.supportsBacking(n) ==> d.hasChildPerm(n))
  }

  lemma ReplaceWf(d: Drivers, g: Graph, c: EdgeId, to: Option<Node>)
    requires Wf(d, g) && c in g.edges && !g.edges[c].frozen && g.edges[c].bs.Some? && g.edges[c].bs != to
    requires to.Some? ==> to.value in g.nodes && Acyclic(ArcsOf(Repoint(g, c, to)))
    ensures Wf(d, ReplaceNoperm(d, g, c, to))
  {
    ReplaceUndone(d, g, c, to);
    var g1 := ReplaceNoperm(d, g, c, to);
    assert ArcsOf(g1) == ArcsOf(Repoint(g, c, to));
    if to.None? {
      RepointArcs(g, c, None);
      AcyclicMono(ArcsOf(Repoint(g, c, None)), ArcsOf(g));
    }
  }

  lemma AttachArcs(g: Graph, g1: Graph, c: EdgeId, edge: Edge)
    requires c !in g.edges && g1.edges == g.edges[c := edge] && edge.bs.Some?
    ensures ArcsOf(g1) == ArcsOf(g) + (if edge.parent.NodeParent? then {(edge.parent.node, edge.bs.value)} else {})
  {
    var g0 := g.(edges := g.edges[c := edge.(bs := None)]);
    RepointArcs(g0, c, edge.bs);
    assert Repoint(g0, c, edge.bs).edges == g1.edges;
    assert Repoint(g0, c, None) == g0;
    assert ArcsOf(g0) == ArcsOf(g) by {
      forall x | x in ArcsOf(g) ensures x in ArcsOf(g0) {
        var e :| e in g.edges && g.edges[e].parent.NodeParent? && g.edges[e].bs.Some?
                 && x == (g.edges[e].parent.node, g.edges[e].bs.value);
        assert g0.edges[e] == g.edges[e];
      }
    }
  }

  lemma AttachWf(d: Drivers, g: Graph, c: EdgeId, edge: Edge)
    requires Wf(d, g) && c !in g.edges && edge.bs.Some? && !edge.frozen && edge.bs.value in g.nodes
    requires CanAttach(d, g, edge.parent, edge.role)
    requires edge.parent.NodeParent? ==>
               && edge.parent.node in g.nodes && d.hasChildPerm(edge.parent.node)
               && !Reach(ArcsOf(g), edge.bs.value, edge.parent.node)
    ensures Wf(d, AttachNew(d, g, c, edge))
  {
    AttachUndone(d, g, c, edge);
    var g1 := AttachNew(d, g, c, edge);
    AttachArcs(g, g1, c, edge);
    if edge.parent.NodeParent? { AddArc(ArcsOf(g), edge.parent.node, edge.bs.value); }
    assert InheritArcs(g1) == InheritArcs(g);
  }

  lemma PermWf(d: Drivers, g: Graph, h: Graph)
    requires Wf(d, g) && SameLinks(g, h)
    ensures Wf(d, h)
  {
    SameArcs(g, h);
  }

  lemma FreshEdge(g: Graph) returns (c: EdgeId)
    ensures c !in g.edges
  {
    c := Above(g.edges.Keys);
  }

  lemma Above(s: set<nat>) returns (m: nat)
    ensures forall x | x in s :: x < m
  {
    if s == {} {
      m := 0;
    } else {
      var x :| x in s;
      m := Above(s - {x});
      if x >= m { m := x + 1; }
      assert s == (s - {x}) + {x};
    }
  }

  /** Permissions differ at most below nodes that are reachable from one of the roots. */
  ghost predicate ChangedBelowAny(g: Graph, h: Graph, roots: seq<Node>) {
    SameLinks(g, h)
    && forall c | c in g.edges && h.edges[c] != g.edges[c] ::
         && g.edges[c].parent.NodeParent?
         && exists r :: r in roots && Reach(ArcsOf(g), r, g.edges[c].parent.node)
  }

  lemma RefreshedBelow(d: Drivers, g: Graph, h: Graph, roots: seq<Node>, list: seq<Node>)
    requires OnlyGoverned(d, g, h, list) && forall n :: n in list <==> Covered(g, roots, n)
    ensures ChangedBelowAny(g, h, roots)
  {}

  /** The state of the block layer: a graph, an open transaction that can take it back through
      well-formed graphs, and reference counts that add up. */
  ghost predicate Good(d: Drivers, g: Graph, log: seq<Action>, r: Refs) {
    DriversOk(d) && Undoable(d, g, log, r.owned) && Balanced(g, log, r)
  }

  /** `g1`, `log1` and `r1` continue the transaction of `g`, `log` and `r`. */
  ghost predicate Continues(d: Drivers, g: Graph, log: seq<Action>, r: Refs, g1: Graph, log1: seq<Action>, r1: Refs)
    requires Good(d, g, log, r)
  {
    && Good(d, g1, log1, r1) && r1.owned == r.owned && r1.scheduled == r.scheduled
    && g1.nodes == g.nodes && Abort(d, g1, log1, r1.owned) == Abort(d, g, log, r.owned)
  }

  lemma ReplaceContinues(d: Drivers, g: Graph, log: seq<Action>, r: Refs, c: EdgeId, to: Option<Node>)
    requires Good(d, g, log, r)
    requires c in g.edges && !g.edges[c].frozen && g.edges[c].bs.Some? && g.edges[c].bs != to
    requires to.Some? ==> to.value in g.nodes && StaysHeld(g, r, to.value) && Acyclic(ArcsOf(Repoint(g, c, to)))
    ensures Continues(d, g, log, r, ReplaceNoperm(d, g, c, to), log + [ChildReplaced(c, g.edges[c].bs)], Ref(r, to))
  {
    assert SlotsAgree(d, g) && Wf(d, g);
    hide SlotsAgree, CanAttach, Balanced, Acyclic, Wf, Undoable, Committable, Abort, ReplaceNoperm, Applicable, Held, StaysHeld;
    var a, g1 := ChildReplaced(c, g.edges[c].bs), ReplaceNoperm(d, g, c, to);
    ReplaceUndone(d, g, c, to);
    ReplaceWf(d, g, c, to);
    ReplaceHeld(d, g, g1, r, c, to);
    ReplaceCommittable(d, g, g1, log, r, c, to);
    Record(d, g, log, r.owned, a, g1);
    ReplaceBalanced(g, g1, c, to, log, r);
  }

  /** A node that a caller or a link holds. */
  ghost predicate StaysHeld(g: Graph, r: Refs, n: Node) {
    n in r.owned || ParentsOf(g, n) != {}
  }

  lemma HeldByLink(g: Graph, r: Refs, c: EdgeId, n: Node)
    requires c in g.edges && g.edges[c].bs == Some(n)
    ensures StaysHeld(g, r, n)
  {
    assert c in ParentsOf(g, n);
  }

  lemma ReplaceHeld(d: Drivers, g: Graph, g1: Graph, r: Refs, c: EdgeId, to: Option<Node>)
    requires c in g.edges && g.edges[c].bs != to && g1.edges == Repoint(g, c, to).edges
    requires to.Some? ==> StaysHeld(g, r, to.value)
    ensures Held(g1, ChildReplaced(c, g.edges[c].bs), r.owned)
  {
    if to.Some? && to.value !in r.owned {
      var k :| k in ParentsOf(g, to.value);
      assert k in ParentsOf(g1, to.value) - {c};
    }
  }

  lemma ReplaceCommittable(d: Drivers, g: Graph, g1: Graph, log: seq<Action>, r: Refs, c: EdgeId, to: Option<Node>)
    requires Undoable(d, g, log, r.owned) && c in g.edges && g.edges[c].bs.Some? && g1.edges == Repoint(g, c, to).edges
    ensures Committable(g1, log + [ChildReplaced(c, g.edges[c].bs)])
  {
    var more := log + [ChildReplaced(c, g.edges[c].bs)];
    assert Committable(g, log) && more[|log|].ChildReplaced?;
    forall i | 0 <= i < |log|
      ensures more[i] == log[i]
    {}
  }

  lemma AttachContinues(d: Drivers, g: Graph, log: seq<Action>, r: Refs, c: EdgeId, edge: Edge)
    requires Good(d, g, log, r)
    requires c !in g.edges && edge.bs.Some? && !edge.frozen && edge.bs.value in g.nodes
    requires CanAttach(d, g, edge.parent, edge.role)
    requires edge.parent.NodeParent? ==>
               && edge.parent.node in g.nodes && d.hasChildPerm(edge.parent.node)
               && !Reach(ArcsOf(g), edge.bs.value, edge.parent.node)
    ensures Continues(d, g, log, r, AttachNew(d, g, c, edge), log + [ChildAttached(c)], Ref(r, edge.bs))
  {
    var g1 := AttachNew(d, g, c, edge);
    AttachUndone(d, g, c, edge);
    AttachWf(d, g, c, edge);
    Record(d, g, log, r.owned, ChildAttached(c), g1);
    AttachBalanced(g, g1, c, edge, log, r);
  }

  lemma PermContinues(d: Drivers, g: Graph, log: seq<Action>, r: Refs, c: EdgeId, perm: Perms, shared: Perms)
    requires Good(d, g, log, r) && c in g.edges
    ensures Continues(d, g, log, r, PutPerm(g, c, perm, shared),
                      log + [PermSet(c, g.edges[c].perm, g.edges[c].shared)], r)
  {
    var a, g1 := PermSet(c, g.edges[c].perm, g.edges[c].shared), PutPerm(g, c, perm, shared);
    PermUndone(d, g, c, perm, shared);
    assert Wf(d, g) && Committable(g, log);
    PermWf(d, g, g1);
    MarkCommittable(g, g1, log, a);
    hide Wf, Balanced, Undoable, Abort, Committable, Held;
    assert Held(g1, a, r.owned) by { NothingHeld(g1, a, r.owned); }
    Record(d, g, log, r.owned, a, g1);
    OtherBalanced(g, g1, log, a, r);
  }

  lemma NothingHeld(g: Graph, a: Action, owned: multiset<Node>)
    requires !a.ChildReplaced?
    ensures Held(g, a, owned)
  {}

  /** A record that frees nothing, with every link pointing where it did. */
  lemma MarkCommittable(g: Graph, g1: Graph, log: seq<Action>, a: Action)
    requires Committable(g, log) && !a.ChildRemoved? && g1.edges.Keys == g.edges.Keys
    requires forall c | c in g.edges :: g1.edges[c].bs == g.edges[c].bs
    ensures Committable(g1, log + [a])
  {
    var more := log + [a];
    assert more[|log|] == a;
    forall i | 0 <= i < |log|
      ensures more[i] == log[i]
    {}
  }

  lemma NotRemoved(g: Graph, log: seq<Action>, c: EdgeId)
    requires Committable(g, log) && c in g.edges && g.edges[c].bs.Some?
    ensures ChildRemoved(c) !in log
  {}

  /** Records whose abort does nothing. */
  lemma MarkContinues(d: Drivers, g: Graph, log: seq<Action>, r: Refs, a: Action)
    requires Good(d, g, log, r)
    requires a.DriverPermSet? || (a.ChildRemoved? && a !in log && a.c in g.edges && g.edges[a.c].bs.None?)
    ensures Continues(d, g, log, r, g, log + [a], r)
  {}

  lemma InheritsWf(d: Drivers, g: Graph, n: Node, from: Option<Node>)
    requires Wf(d, g) && n in g.nodes
    requires from.Some? ==> from.value in g.nodes && !Reach(InheritArcs(PutInherits(g, n, None)), from.value, n)
    ensures Wf(d, PutInherits(g, n, from))
  {
    var g0, g1 := PutInherits(g, n, None), PutInherits(g, n, from);
    AcyclicMono(InheritArcs(g0), InheritArcs(g));
    if from.Some? {
      AddArc(InheritArcs(g0), n, from.value);
      InheritsArc(g, n, from.value);
    }
    assert ArcsOf(g1) == ArcsOf(g);
  }

  lemma InheritsArc(g: Graph, n: Node, from: Node)
    ensures InheritArcs(PutInherits(g, n, Some(from))) == InheritArcs(PutInherits(g, n, None)) + {(n, from)}
  {
    var g0, g1 := PutInherits(g, n, None), PutInherits(g, n, Some(from));
    forall x | x in InheritArcs(g1) ensures x in InheritArcs(g0) + {(n, from)} {
      if x.0 != n { assert x.0 in g0.inherits && g0.inherits[x.0] == x.1; }
    }
    forall x | x in InheritArcs(g0) + {(n, from)} ensures x in InheritArcs(g1) {
      assert x.0 in g1.inherits && g1.inherits[x.0] == x.1;
    }
  }

  /** inherits_from may be cleared, or shortcut along a chain that is already there. */
  lemma InheritsContinues(d: Drivers, g: Graph, log: seq<Action>, r: Refs, n: Node, from: Option<Node>)
    requires Good(d, g, log, r) && n in g.nodes
    requires from.Some? ==> from.value in g.nodes && !Reach(InheritArcs(PutInherits(g, n, None)), from.value, n)
    ensures Continues(d, g, log, r, PutInherits(g, n, from), log + [InheritsSet(n, InheritsOf(g, n))], r)
  {
    var a, g1 := InheritsSet(n, InheritsOf(g, n)), PutInherits(g, n, from);
    InheritsUndone(d, g, n, from);
    InheritsWf(d, g, n, from);
    Record(d, g, log, r.owned, a, g1);
    OtherBalanced(g, g1, log, a, r);
  }

  /** The reference counts after the abort callback of `a`. */
  ghost function UndoRefs(g: Graph, a: Action, r: Refs): Refs {
    if a.ChildReplaced? && a.c in g.edges then Unref(r, g.edges[a.c].bs)
    else if a.ChildAttached? && a.c in g.edges then Schedule(r, g.edges[a.c].bs)
    else r
  }

  lemma UndoCounts(d: Drivers, g: Graph, log: seq<Action>, a: Action, r: Refs)
    requires Balanced(g, log + [a], r) && Applicable(d, g, a) && Closed(g)
    ensures Balanced(Undo(d, g, a), log, UndoRefs(g, a, r))
  {
    hide Balanced, CanAttach, ParentsOf;
    match a
    case ChildReplaced(_, _) => UndoReplaceCounts(d, g, log, a, r);
    case ChildAttached(c) => {
      OtherBalanced(g, g, log, a, r);
      DetachBalanced(g, Undo(d, g, a), c, log, r);
    }
    case _ => OtherBalanced(g, Undo(d, g, a), log, a, r);
  }

  lemma UndoReplaceCounts(d: Drivers, g: Graph, log: seq<Action>, a: Action, r: Refs)
    requires Balanced(g, log + [a], r) && Applicable(d, g, a) && Closed(g) && a.ChildReplaced?
    ensures Balanced(Undo(d, g, a), log, UndoRefs(g, a, r))
  {
    hide Balanced, CanAttach, ParentsOf;
    ReplaceAborted(g, Undo(d, g, a), a.c, a.oldBs, log, r);
  }

  lemma UndoGood(d: Drivers, g: Graph, log: seq<Action>, a: Action, r: Refs)
    requires Good(d, g, log + [a], r)
    ensures Applicable(d, g, a) && Good(d, Undo(d, g, a), log, UndoRefs(g, a, r))
    ensures Abort(d, g, log + [a], r.owned) == Abort(d, Undo(d, g, a), log, r.owned)
    ensures a.ChildReplaced? && g.edges[a.c].bs.Some? ==>
              var n := g.edges[a.c].bs.value; n in r.count && r.count[n] > 1
  {
    assert (log + [a])[..|log + [a]| - 1] == log;
    assert Wf(d, g) && Applicable(d, g, a) && Held(g, a, r.owned) && Closed(g);
    hide Balanced, Wf, Held, Undo, Applicable;
    UndoCounts(d, g, log, a, r);
    if a.ChildReplaced? && a.c in g.edges && g.edges[a.c].bs.Some? {
      HeldTwice(g, log + [a], a, r);
    }
  }

  /** A node that loses the reference of an undone replacement has another one. */
  lemma HeldTwice(g: Graph, log: seq<Action>, a: Action, r: Refs)
    requires a.ChildReplaced? && a.c in g.edges && g.edges[a.c].bs.Some? && Held(g, a, r.owned)
    requires Balanced(g, log, r) && Closed(g)
    ensures var n := g.edges[a.c].bs.value; n in r.count && r.count[n] > 1
  {
    var n := g.edges[a.c].bs.value;
    WithoutOne(ParentsOf(g, n), a.c);
    if n !in r.owned {
      assert |ParentsOf(g, n) - {a.c}| > 0;
    }
  }

  /** The links freed by committing `log`. */
  ghost function Freed(log: seq<Action>): set<EdgeId> {
    set a | a in log && a.ChildRemoved? :: a.c
  }

  function Drop(g: Graph, c: EdgeId): Graph {
    g.(edges := g.edges - {c})
  }

  lemma DropWf(d: Drivers, g: Graph, c: EdgeId)
    requires Wf(d, g) && c in g.edges && g.edges[c].bs.None?
    ensures Wf(d, Drop(g, c))
  {
    var h := Drop(g, c);
    assert ArcsOf(h) == ArcsOf(g) by {
      forall x | x in ArcsOf(g) ensures x in ArcsOf(h) {
        var e :| e in g.edges && g.edges[e].parent.NodeParent? && g.edges[e].bs.Some?
                 && x == (g.edges[e].parent.node, g.edges[e].bs.value);
        assert h.edges[e] == g.edges[e];
      }
    }
    assert InheritArcs(h) == InheritArcs(g);
  }

  lemma FreedStep(log: seq<Action>, i: nat)
    requires i < |log|
    ensures Freed(log[i..]) == Freed(log[i + 1..]) + (if log[i].ChildRemoved? then {log[i].c} else {})
    ensures Freed(log[|log|..]) == {}
  {}

  lemma CommitBalanced(g: Graph, log: seq<Action>, a: Action, r: Refs)
    requires Balanced(g, log + [a], r) && (a.ChildRemoved? ==> a.c in g.edges && g.edges[a.c].bs.None?)
    ensures Balanced(if a.ChildRemoved? then Drop(g, a.c) else g, log, if a.ChildReplaced? then Schedule(r, a.oldBs) else r)
  {
    SavedAppend(log, a);
    if a.ChildRemoved? {
      assert Balanced(g, log, r);
      hide Balanced;
      DetachBalanced(g, Drop(g, a.c), a.c, log, r);
    }
  }

  lemma CommitCommittable(g: Graph, log: seq<Action>, a: Action)
    requires Committable(g, log + [a])
    ensures Committable(if a.ChildRemoved? then Drop(g, a.c) else g, log)
    ensures a.ChildRemoved? ==> a.c in g.edges && g.edges[a.c].bs.None?
  {
    assert (log + [a])[|log|] == a;
    forall i | 0 <= i < |log| ensures (log + [a])[i] == log[i] {}
  }

  /** The commit callback of one record: a saved old node is unreferenced later, a removed link freed. */
  lemma CommitStep(d: Drivers, g: Graph, log: seq<Action>, a: Action, r: Refs)
    requires Wf(d, g) && Committable(g, log + [a]) && Balanced(g, log + [a], r)
    ensures var g1 := if a.ChildRemoved? then Drop(g, a.c) else g;
            var r1 := if a.ChildReplaced? then Schedule(r, a.oldBs) else r;
            Wf(d, g1) && Committable(g1, log) && Balanced(g1, log, r1)
  {
    hide Wf, Committable, Balanced;
    CommitCommittable(g, log, a);
    CommitBalanced(g, log, a, r);
    if a.ChildRemoved? {
      DropWf(d, g, a.c);
    }
  }

  lemma FreedAppend(log: seq<Action>, a: Action)
    ensures Freed(log + [a]) == Freed(log) + (if a.ChildRemoved? then {a.c} else {})
  {}

  // ---------------------------------------------------------------------------------------
  // No two parents of a node conflict, in any state between operations

  ghost predicate Peaceful(g: Graph) {
    forall n :: NoConflict(g, n)
  }

  /** Outside the refreshed part no node has gained a parent or seen one change. */
  ghost predicate FewerParents(g0: Graph, g: Graph, n: Node) {
    forall c | c in ParentsOf(g, n) :: c in ParentsOf(g0, n) && g.edges[c] == g0.edges[c]
  }

  lemma CoveredBelow(g: Graph, roots: seq<Node>, n: Node, m: Node)
    requires Covered(g, roots, n) && (n, m) in ArcsOf(g)
    ensures Covered(g, roots, m)
  {
    var r :| r in roots && Reach(ArcsOf(g), r, n);
    ReachArc(ArcsOf(g), n, m);
    ReachTrans(ArcsOf(g), r, n, m);
  }

  /** Edits that only add parents inside the refreshed part, followed by a successful refresh. */
  lemma StaysPeaceful(d: Drivers, g0: Graph, h: Graph, g: Graph, roots: seq<Node>)
    requires Peaceful(g0) && ChangedBelowAny(h, g, roots)
    requires forall n :: Covered(h, roots, n) || FewerParents(g0, h, n)
    requires forall r, n | r in roots && Reach(ArcsOf(g), r, n) :: SettledAt(d, g, n)
    ensures Peaceful(g)
  {
    SameArcs(h, g);
    forall n ensures NoConflict(g, n) {
      if Covered(h, roots, n) {
        var r :| r in roots && Reach(ArcsOf(h), r, n);
        assert SettledAt(d, g, n);
      } else {
        SameLists(h, g, n);
        forall c | c in ParentsOf(g, n) ensures g.edges[c] == g0.edges[c] && c in ParentsOf(g0, n) {
          if g.edges[c] != h.edges[c] {
            ArcOfChild(h, h.edges[c].parent.node, c);
            CoveredBelow(h, roots, h.edges[c].parent.node, n);
          }
        }
        assert NoConflict(g0, n);
      }
    }
  }

  lemma FreeingIsPeaceful(g: Graph, s: set<EdgeId>)
    requires Peaceful(g) && forall c | c in s && c in g.edges :: g.edges[c].bs.None?
    ensures Peaceful(g.(edges := g.edges - s))
  {
    var h := g.(edges := g.edges - s);
    forall n ensures NoConflict(h, n) {
      assert NoConflict(g, n);
    }
  }

  /** A new link whose target the refresh covers keeps the peace. */
  lemma AttachPeaceful(d: Drivers, g0: Graph, h: Graph, g: Graph, c: EdgeId, roots: seq<Node>)
    requires Peaceful(g0) && c !in g0.edges && c in h.edges && h.edges == g0.edges[c := h.edges[c]]
    requires h.edges[c].bs.Some? && Covered(h, roots, h.edges[c].bs.value)
    requires ChangedBelowAny(h, g, roots)
    requires forall r, n | r in roots && Reach(ArcsOf(g), r, n) :: SettledAt(d, g, n)
    ensures Peaceful(g)
  {
    hide SettledAt, Peaceful;
    forall n ensures Covered(h, roots, n) || FewerParents(g0, h, n) {
      if n != h.edges[c].bs.value { assert c !in ParentsOf(h, n); }
    }
    StaysPeaceful(d, g0, h, g, roots);
  }

  /** The slots once a link with this parent and role has come. */
  ghost function SlotsWith(d: Drivers, g: Graph, c: EdgeId, e: Edge): map<(Node, Slot), EdgeId> {
    if !e.parent.NodeParent? then g.slots
    else match SlotOf(d, e.parent.node, e.role)
         case None => g.slots
         case Some(k) => g.slots[(e.parent.node, k) := c]
  }

  lemma NewShape(d: Drivers, g: Graph, c: EdgeId, e: Edge)
    requires c !in g.edges && e.bs.Some?
    ensures AttachNew(d, g, c, e) == g.(edges := g.edges[c := e], slots := SlotsWith(d, g, c, e))
  {}

  /** Slots depend on parent and role of a link, not on its permissions. */
  lemma SameNew(d: Drivers, g: Graph, c: EdgeId, h: Graph, h': Graph)
    requires c !in g.edges && c in h.edges && h.edges[c].bs.Some? && h == AttachNew(d, g, c, h.edges[c])
    requires SameLinks(h, h')
    ensures SameLinks(AttachNew(d, g, c, h'.edges[c]), h')
  {
    NewShape(d, g, c, h.edges[c]);
    NewShape(d, g, c, h'.edges[c]);
  }

  lemma LinkCovered(h: Graph, c: EdgeId, roots: seq<Node>)
    requires c in h.edges && h.edges[c].bs.Some?
    requires h.edges[c].bs.value in roots || (h.edges[c].parent.NodeParent? && h.edges[c].parent.node in roots)
    ensures Covered(h, roots, h.edges[c].bs.value)
  {
    var n := h.edges[c].bs.value;
    ReachSelf(ArcsOf(h), n);
    if n !in roots {
      ArcOfChild(h, h.edges[c].parent.node, c);
      ReachArc(ArcsOf(h), h.edges[c].parent.node, n);
    }
  }

  /** The link by which bdrv_attach_child_noperm joins `child` to `parent`, with the masks that the driver
      of `parent` answers for a link that is not there yet. */
  ghost function NewLink(d: Drivers, g: Graph, parent: Node, child: Node, role: Role): (e: Edge)
    ensures IsLink(e, child, NodeParent(parent), role)
    ensures HasMasks(d, parent, None, CumulativePerm(g, parent), CumulativeShared(g, parent), e)
  {
    var masks := d.childPerm(parent, None, role, CumulativePerm(g, parent), CumulativeShared(g, parent));
    Edge(Some(child), NodeParent(parent), role, masks.0, if d.forceShare(child) then BLK_PERM_ALL else masks.1, false)
  }

  /** `g` with that link. */
  ghost function Joined(d: Drivers, g: Graph, c: EdgeId, parent: Node, child: Node, role: Role): Graph {
    AttachNew(d, g, c, NewLink(d, g, parent, child, role))
  }

  /** An inactive node can only be read. */
  predicate UsableBy(d: Drivers, child: Node, perm: Perms) {
    d.inactive(child) ==> perm <= {ConsistentRead}
  }

  /** bdrv_attach_child_noperm lets the link be made: no cycle, AioContexts that can be brought together
      (`movable`), and no more than a reader for an inactive child. */
  ghost predicate LinkAllowed(d: Drivers, g: Graph, parent: Node, child: Node, role: Role, movable: bool) {
    && movable && !Reach(ArcsOf(g), child, parent)
    && (d.inactive(child) ==> d.inactive(parent)) && UsableBy(d, child, NewLink(d, g, parent, child, role).perm)
  }

  ghost predicate IsLink(e: Edge, child: Node, parent: Parent, role: Role) {
    e.bs == Some(child) && e.parent == parent && e.role == role && !e.frozen
  }

  /** `g` is `g0` with the new link `c` to `child`, its permissions left open. */
  ghost predicate Linked(d: Drivers, g0: Graph, g: Graph, c: EdgeId, child: Node, parent: Parent, role: Role) {
    && c !in g0.edges && c in g.edges && IsLink(g.edges[c], child, parent, role)
    && SameLinks(AttachNew(d, g0, c, g.edges[c]), g)
  }

  /** should_update_child, decided on the graph before any link has moved. */
  ghost predicate MayMove(g: Graph, c: EdgeId, to: Node)
    requires c in g.edges
  {
    !g.edges[c].parent.JobParent? && !InSubtree(g, to, c)
  }

  /** bdrv_replace_node_noperm lets the link pass: it can be moved, or it is one that may be skipped. */
  ghost predicate Accepted(g: Graph, c: EdgeId, to: Node, autoSkip: bool)
    requires c in g.edges
  {
    if MayMove(g, c, to) then !g.edges[c].frozen else autoSkip
  }

  /** Of the links in `seen`, exactly those that may move now lead to `to`; nothing else changed. */
  ghost predicate MovedAmong(g0: Graph, g: Graph, seen: set<EdgeId>, to: Node) {
    && g == g0.(edges := g.edges) && g.edges.Keys == g0.edges.Keys
    && forall c | c in g0.edges ::
         g.edges[c] == if c in seen && MayMove(g0, c, to) then g0.edges[c].(bs := Some(to)) else g0.edges[c]
  }

  lemma SameSubtreeSelf(g: Graph, to: Node)
    ensures SameSubtree(g, g, to)
  {}

  lemma MoveOne(g0: Graph, g: Graph, seen: set<EdgeId>, c: EdgeId, to: Node)
    requires MovedAmong(g0, g, seen, to) && SameSubtree(g0, g, to)
    requires c in g0.edges && c !in seen && g0.edges[c].bs.Some? && MayMove(g0, c, to)
    ensures !InSubtree(g, to, c)
    ensures var h := Repoint(g, c, Some(to));
            MovedAmong(g0, h, seen + {c}, to) && SameSubtree(g0, h, to)
  {
    SubtreeMembers(g0, g, to, c);
    MoveKeepsSubtree(g, c, to);
  }

  /** Moving parents over to `to`, which the refresh covers, keeps the peace. */
  lemma MovePeaceful(d: Drivers, g0: Graph, h: Graph, g: Graph, seen: set<EdgeId>, to: Node, roots: seq<Node>)
    requires Peaceful(g0) && MovedAmong(g0, h, seen, to) && to in roots && ChangedBelowAny(h, g, roots)
    requires forall r, n | r in roots && Reach(ArcsOf(g), r, n) :: SettledAt(d, g, n)
    ensures Peaceful(g)
  {
    hide SettledAt, Peaceful, MayMove;
    forall n ensures Covered(h, roots, n) || FewerParents(g0, h, n) {
      if n == to { ReachSelf(ArcsOf(h), to); }
    }
    StaysPeaceful(d, g0, h, g, roots);
  }

  /** `g0` with the links in `seen` that may move leading to `to`. */
  ghost function MoveAll(g0: Graph, seen: set<EdgeId>, to: Node): Graph {
    g0.(edges := map c | c in g0.edges ::
          if c in seen && MayMove(g0, c, to) then g0.edges[c].(bs := Some(to)) else g0.edges[c])
  }

  lemma MovedIsMoveAll(g0: Graph, g: Graph, seen: set<EdgeId>, to: Node)
    requires MovedAmong(g0, g, seen, to)
    ensures g == MoveAll(g0, seen, to)
  {}

  /** Whose links follow: those of backends always, those of jobs never, and those of nodes exactly if the
      node is not below `to`, where the link would close a cycle. */
  lemma WhoFollows(g: Graph, from: Node, to: Node, c: EdgeId)
    requires c in ParentsOf(g, from) && from != to
    ensures c in MoveAll(g, ParentsOf(g, from), to).edges
    ensures var p, bs := g.edges[c].parent, MoveAll(g, ParentsOf(g, from), to).edges[c].bs;
            bs == match p
                  case BackendParent(_) => Some(to)
                  case JobParent(_) => Some(from)
                  case NodeParent(n) => if Reach(ArcsOf(g), to, n) then Some(from) else Some(to)
  {}

  // --- detaching a subchain

  /** bdrv_filter_or_cow_child: the filtered child of a filter, the backing child of any other node. */
  function FilterOrCow(d: Drivers, g: Graph, n: Node): Option<EdgeId> {
    if !d.hasDriver(n) then None
    else if (n, BackingSlot) in g.slots then Some(g.slots[(n, BackingSlot)])
    else if d.isFilter(n) && (n, FileSlot) in g.slots then Some(g.slots[(n, FileSlot)])
    else None
  }

  /** That is the one FILTERED child of a filter and the one COW child of any other node, as its assertions say. */
  lemma StandsOn(d: Drivers, g: Graph, n: Node, c: EdgeId)
    requires SlotsAgree(d, g)
    ensures FilterOrCow(d, g, n) == Some(c)
            <==> d.hasDriver(n) && c in ChildrenOf(g, n)
                 && if d.isFilter(n) then g.edges[c].role.filtered else g.edges[c].role.cow
  {
    if c in ChildrenOf(g, n) {
      assert RoleOk(d, n, g.edges[c].role);
    }
    if FilterOrCow(d, g, n).Some? {
      var e := FilterOrCow(d, g, n).value;
      assert g.edges[e].parent == NodeParent(n) && RoleOk(d, n, g.edges[e].role);
    }
  }

  /** `c` is the link by which `p` stands on the next node of its chain. */
  ghost predicate ChainLink(d: Drivers, g: Graph, p: Node, c: EdgeId) {
    FilterOrCow(d, g, p) == Some(c) && c in g.edges && g.edges[c].bs.Some?
  }

  ghost function ChainArcs(d: Drivers, g: Graph): Arcs {
    set p, c | p in g.nodes && c in g.edges && ChainLink(d, g, p, c) :: (p, g.edges[c].bs.value)
  }

  /** The next node of a chain that goes on to `to`. */
  lemma ChainStep(d: Drivers, g: Graph, p: Node, to: Node) returns (c: EdgeId)
    requires SlotsAgree(d, g) && Closed(g) && Acyclic(ArcsOf(g)) && p in g.nodes && p != to && Reach(ChainArcs(d, g), p, to)
    ensures ChainLink(d, g, p, c) && g.edges[c].parent == NodeParent(p) && g.edges[c].bs.value in g.nodes
    ensures Reach(ChainArcs(d, g), g.edges[c].bs.value, to)
    ensures Below(ArcsOf(g), g.nodes, g.edges[c].bs.value) < Below(ArcsOf(g), g.nodes, p)
  {
    var m := ReachFirst(ChainArcs(d, g), p, to);
    c :| c in g.edges && ChainLink(d, g, p, c) && g.edges[c].bs.value == m;
    assert g.edges[c].parent == NodeParent(p);
    hide SlotsAgree, Acyclic, ChainArcs;
    ArcOfChild(g, p, c);
    BelowShrinks(ArcsOf(g), g.nodes, p, m);
  }

  lemma ChainReaches(d: Drivers, g: Graph, from: Node, p: Node, c: EdgeId)
    requires Reach(ChainArcs(d, g), from, p) && p in g.nodes && ChainLink(d, g, p, c)
    ensures Reach(ChainArcs(d, g), from, g.edges[c].bs.value)
  {
    ReachArc(ChainArcs(d, g), p, g.edges[c].bs.value);
    ReachTrans(ChainArcs(d, g), from, p, g.edges[c].bs.value);
  }

  lemma ChainInLinks(d: Drivers, g: Graph)
    requires SlotsAgree(d, g)
    ensures ChainArcs(d, g) <= ArcsOf(g)
  {
    forall x | x in ChainArcs(d, g) ensures x in ArcsOf(g) {
      var c :| c in g.edges && ChainLink(d, g, x.0, c) && g.edges[c].bs.value == x.1;
      ArcOfChild(g, x.0, c);
    }
  }

  /** The chain goes on to the node below by that one link. */
  lemma FirstOfChain(d: Drivers, g: Graph, p: Node, c: EdgeId)
    requires SlotsAgree(d, g) && Closed(g) && Acyclic(ArcsOf(g)) && p in g.nodes && FilterOrCow(d, g, p) == Some(c)
    ensures ChainLink(d, g, p, c) && g.edges[c].bs.value in g.nodes && g.edges[c].bs.value != p
    ensures Reach(ChainArcs(d, g), p, g.edges[c].bs.value)
    ensures forall q, k | Reach(ChainArcs(d, g), p, q) && ChainLink(d, g, q, k) && g.edges[k].bs == g.edges[c].bs :: k == c
  {
    var e, to := ChainArcs(d, g), g.edges[c].bs.value;
    assert g.edges[c].parent == NodeParent(p);
    ArcOfChild(g, p, c);
    ReachArc(e, p, to);
    ReachSelf(ArcsOf(g), p);
    ChainInLinks(d, g);
    forall q, k | Reach(e, p, q) && ChainLink(d, g, q, k) && g.edges[k].bs == Some(to)
      ensures k == c
    {
      if q != p {
        var m := ReachFirst(e, p, q);
        assert m == to;
        ReachMono(e, ArcsOf(g), to, q);
        ArcOfChild(g, q, k);
      }
    }
  }

  /** The search for the node above `to` in the chain of `from`; its link to `to` is what gets detached. */
  method CowParent(d: Drivers, g: Graph, from: Node, to: Node) returns (c: EdgeId)
    requires SlotsAgree(d, g) && Closed(g) && Acyclic(ArcsOf(g)) && from in g.nodes && from != to
    requires Reach(ChainArcs(d, g), from, to)
    ensures c in g.edges && g.edges[c].bs == Some(to) && g.edges[c].parent.NodeParent?
    ensures ChainLink(d, g, g.edges[c].parent.node, c) && Reach(ChainArcs(d, g), from, g.edges[c].parent.node)
  {
    hide SlotsAgree, Closed, Acyclic, ArcsOf, ChainArcs, Below, Reach;
    var cur := from;
    ReachSelf(ChainArcs(d, g), from);
    while true
      invariant cur in g.nodes && cur != to && Reach(ChainArcs(d, g), cur, to) && Reach(ChainArcs(d, g), from, cur)
      decreases Below(ArcsOf(g), g.nodes, cur)
    {
      ghost var k := ChainStep(d, g, cur, to);
      ChainReaches(d, g, from, cur, k);
      c := FilterOrCow(d, g, cur).value;
      if g.edges[c].bs.value == to {
        return;
      }
      cur := g.edges[c].bs.value;
    }
  }

  lemma BelowAnySame(h: Graph, g: Graph, roots: seq<Node>)
    requires ChangedBelowAny(h, g, roots)
    ensures SameLinks(h, g)
  {}

  /** The replacement of parents followed by the removal of `c`. */
  lemma DetachPeaceful(d: Drivers, g0: Graph, h: Graph, h2: Graph, g: Graph, seen: set<EdgeId>, to: Node, c: EdgeId, roots: seq<Node>)
    requires Peaceful(g0) && MovedAmong(g0, h, seen, to) && to in roots && c in h.edges
    requires h2.edges == Repoint(h, c, None).edges && ChangedBelowAny(h2, g, roots)
    requires forall r, n | r in roots && Reach(ArcsOf(g), r, n) :: SettledAt(d, g, n)
    ensures Peaceful(g)
  {
    hide SettledAt, Peaceful, MayMove;
    forall n ensures Covered(h2, roots, n) || FewerParents(g0, h2, n) {
      if n == to { ReachSelf(ArcsOf(h2), to); }
    }
    StaysPeaceful(d, g0, h2, g, roots);
  }

  /** Committing frees the removed link and disturbs nothing. */
  lemma DetachFreed(d: Drivers, h: Graph, g: Graph, log: seq<Action>, c: EdgeId, roots: seq<Node>)
    requires Peaceful(g) && Committable(g, log) && Freed(log) == {c} && SameLinks(h, g)
    requires forall r, n | r in roots && Reach(ArcsOf(g), r, n) :: SettledAt(d, g, n)
    ensures var k := g.(edges := g.edges - Freed(log));
            && Peaceful(k) && SameLinks(Drop(h, c), k)
            && (forall r, n | r in roots && Reach(ArcsOf(k), r, n) :: SettledAt(d, k, n))
  {
    forall e | e in Freed(log) && e in g.edges ensures g.edges[e].bs.None? {
      var i :| 0 <= i < |log| && log[i] == ChildRemoved(e);
    }
    FreeingIsPeaceful(g, Freed(log));
    FreeingKeeps(d, g, Freed(log));
  }

  /** The links of `from` that lead elsewhere stay as they are when its parents move. */
  lemma MovedKeepsLink(g0: Graph, h: Graph, from: Node, to: Node, c: EdgeId)
    requires MovedAmong(g0, h, ParentsOf(g0, from), to) && c in g0.edges && g0.edges[c].bs == Some(to) && from != to
    ensures c in h.edges && h.edges[c] == g0.edges[c] && h.nodes == g0.nodes
  {}

  lemma MoveAllKeys(g0: Graph, seen: set<EdgeId>, to: Node)
    ensures MoveAll(g0, seen, to).edges.Keys == g0.edges.Keys
  {}

  lemma AppendPeaceful(d: Drivers, g0: Graph, h1: Graph, h2: Graph, g: Graph, c: EdgeId, seen: set<EdgeId>, bsNew: Node)
    requires Peaceful(g0) && c !in g0.edges && c in h1.edges && h1.edges == g0.edges[c := h1.edges[c]]
    requires h1.edges[c].bs.Some? && h1.edges[c].parent == NodeParent(bsNew)
    requires MovedAmong(h1, h2, seen, bsNew) && ChangedBelowAny(h2, g, [bsNew])
    requires forall n | Reach(ArcsOf(g), bsNew, n) :: SettledAt(d, g, n)
    ensures Peaceful(g)
  {
    hide SettledAt, Peaceful;
    var bsTop := h1.edges[c].bs.value;
    ReachSelf(ArcsOf(h1), bsNew);
    assert c in ChildrenOf(h1, bsNew);
    assert InSubtree(h1, bsNew, c);
    LinkCovered(h2, c, [bsNew]);
    ReachSelf(ArcsOf(h2), bsNew);
    forall n ensures Covered(h2, [bsNew], n) || FewerParents(g0, h2, n) {
      if n != bsTop && n != bsNew {
        forall k | k in ParentsOf(h2, n) ensures k in ParentsOf(g0, n) && h2.edges[k] == g0.edges[k] {
          assert k != c;
        }
      }
    }
    StaysPeaceful(d, g0, h2, g, [bsNew]);
  }

  /** `g` is `g0` with a new link from bsNew down to bsTop, and then every parent of bsTop that may,
      switched to bsNew; permissions left open. */
  ghost predicate Appended(d: Drivers, g0: Graph, g: Graph, c: EdgeId, bsNew: Node, bsTop: Node) {
    c !in g0.edges
    && exists e: Edge ::
         && IsLink(e, bsTop, NodeParent(bsNew), BackingRole(d, bsNew))
         && var h := AttachNew(d, g0, c, e);
         && SameLinks(MoveAll(h, ParentsOf(h, bsTop), bsNew), g)
  }

  /** `g0` with `bsNew` on top of `bsTop`, before permissions are refreshed. */
  ghost function OnTop(d: Drivers, g0: Graph, c: EdgeId, bsNew: Node, bsTop: Node): Graph {
    var h := Joined(d, g0, c, bsNew, bsTop, BackingRole(d, bsNew));
    MoveAll(h, ParentsOf(h, bsTop), bsNew)
  }

  /** bdrv_append gets as far as refreshing permissions. */
  ghost predicate AppendAllowed(d: Drivers, g0: Graph, c: EdgeId, bsNew: Node, bsTop: Node, movable: bool) {
    && LinkAllowed(d, g0, bsNew, bsTop, BackingRole(d, bsNew), movable)
    && var h := Joined(d, g0, c, bsNew, bsTop, BackingRole(d, bsNew));
       forall k | k in ParentsOf(h, bsTop) :: Accepted(h, k, bsNew, true)
  }

  /** The node on top stands on the one it was put on. */
  lemma NewNodeStands(d: Drivers, g: Graph, c: EdgeId, bsNew: Node, bsTop: Node)
    requires SlotsAgree(d, g) && c !in g.edges && d.hasDriver(bsNew)
    requires CanAttach(d, g, NodeParent(bsNew), BackingRole(d, bsNew))
    ensures ChainLink(d, Joined(d, g, c, bsNew, bsTop, BackingRole(d, bsNew)), bsNew, c)
  {
    var e := NewLink(d, g, bsNew, bsTop, BackingRole(d, bsNew));
    var h := Joined(d, g, c, bsNew, bsTop, BackingRole(d, bsNew));
    hide SlotsAgree, CanAttach, AttachNew;
    AttachFits(d, g, c, e);
    assert h.edges[c] == e;
    StandsOn(d, h, bsNew, c);
  }

  lemma PutPermSame(g: Graph, c: EdgeId, perm: Perms, shared: Perms)
    requires c in g.edges
    ensures var h := PutPerm(g, c, perm, shared);
            SameLinks(g, h) && forall k | k in g.edges && k != c :: h.edges[k] == g.edges[k]
  {}

  /** A refresh below the target of `c` leaves `c` itself alone. */
  lemma NotOwnParent(g: Graph, h: Graph, k: Graph, c: EdgeId)
    requires SameLinks(g, h) && Acyclic(ArcsOf(g)) && c in g.edges && g.edges[c].bs.Some?
    requires ChangedBelowAny(h, k, [g.edges[c].bs.value])
    ensures k.edges[c] == h.edges[c] && SameLinks(g, k)
  {
    SameArcs(g, h);
    if h.edges[c].parent.NodeParent? { ArcOfChild(g, g.edges[c].parent.node, c); }
  }

  lemma Within(a: Perms, b: Perms)
    ensures a - b == {} <==> a <= b
  {
    if a - b == {} { assert forall p | p in a :: p in a - b || p in b; }
  }

  lemma PermPeaceful(d: Drivers, g0: Graph, h: Graph, g: Graph, c: EdgeId)
    requires Peaceful(g0) && c in g0.edges && g0.edges[c].bs.Some? && SameLinks(g0, h)
    requires forall k | k in g0.edges && k != c :: h.edges[k] == g0.edges[k]
    requires var roots := [g0.edges[c].bs.value];
             && ChangedBelowAny(h, g, roots)
             && forall r, n | r in roots && Reach(ArcsOf(g), r, n) :: SettledAt(d, g, n)
    ensures Peaceful(g)
  {
    hide SettledAt, Peaceful;
    var bs := g0.edges[c].bs.value;
    ReachSelf(ArcsOf(h), bs);
    forall n ensures Covered(h, [bs], n) || FewerParents(g0, h, n) {
      if n != bs { SameLists(g0, h, n); }
    }
    StaysPeaceful(d, g0, h, g, [bs]);
  }

  /** Some inherits_from pointers to `root` have been cleared, nothing else has changed. */
  ghost predicate InheritsCleared(g0: Graph, g: Graph, root: Node) {
    && g == g0.(inherits := g.inherits) && g.inherits.Keys <= g0.inherits.Keys
    && (forall n | n in g.inherits :: g.inherits[n] == g0.inherits[n])
    && (forall n | n in g0.inherits && n !in g.inherits :: g0.inherits[n] == root)
  }

  lemma ClearedArcs(g0: Graph, g: Graph, root: Node)
    requires InheritsCleared(g0, g, root)
    ensures ArcsOf(g) == ArcsOf(g0) && InheritArcs(g) <= InheritArcs(g0)
    ensures g.edges == g0.edges && g.nodes == g0.nodes
  {}

  /** The links that bdrv_unset_inherits_from visits: `c` and every link below it. */
  ghost function Walk(g: Graph, c: EdgeId): set<EdgeId>
    requires c in g.edges && g.edges[c].bs.Some?
  {
    {c} + set k | k in g.edges && InSubtree(g, g.edges[c].bs.value, k)
  }

  /** No other link of `root` leads to where `k` leads. */
  ghost predicate LastLink(g: Graph, root: Node, k: EdgeId)
    requires k in g.edges
  {
    forall c2 | c2 in ChildrenOf(g, root) && c2 != k :: g.edges[c2].bs != g.edges[k].bs
  }

  /** `m` inherits from `root`, and one of the links `s` is the last that joins `root` to it. */
  ghost predicate Loses(g: Graph, root: Node, s: set<EdgeId>, m: Node) {
    InheritsOf(g, m) == Some(root)
    && exists k :: k in s && k in g.edges && g.edges[k].bs == Some(m) && LastLink(g, root, k)
  }

  /** Exactly the nodes that lose `root` by a visit of `s` have inherits_from cleared. */
  ghost function Unset(g: Graph, root: Node, s: set<EdgeId>): Graph {
    g.(inherits := map m | m in g.inherits && !Loses(g, root, s, m) :: g.inherits[m])
  }

  lemma UnsetTwice(g: Graph, root: Node, s: set<EdgeId>, t: set<EdgeId>)
    ensures Unset(Unset(g, root, s), root, t) == Unset(g, root, s + t)
  {
    var h, u := Unset(g, root, s), Unset(g, root, s + t);
    forall m | m in h.inherits
      ensures Loses(h, root, t, m) <==> Loses(g, root, t, m)
    {
      LosesSame(g, h, root, t, m);
    }
    forall m
      ensures Loses(g, root, s + t, m) <==> Loses(g, root, s, m) || Loses(g, root, t, m)
    {
      LosesEither(g, root, s, t, m);
    }
    assert Unset(h, root, t).inherits == u.inherits;
  }

  lemma LosesSame(g: Graph, h: Graph, root: Node, s: set<EdgeId>, m: Node)
    requires g.edges == h.edges && InheritsOf(g, m) == InheritsOf(h, m)
    ensures Loses(h, root, s, m) <==> Loses(g, root, s, m)
  {
    assert forall k | k in g.edges :: LastLink(g, root, k) == LastLink(h, root, k);
  }

  lemma LosesEither(g: Graph, root: Node, s: set<EdgeId>, t: set<EdgeId>, m: Node)
    ensures Loses(g, root, s + t, m) <==> Loses(g, root, s, m) || Loses(g, root, t, m)
  {}

  lemma UnsetClears(g: Graph, root: Node, s: set<EdgeId>)
    ensures InheritsCleared(g, Unset(g, root, s), root)
  {}

  /** The visit of a single link. */
  lemma UnsetOne(g: Graph, root: Node, c: EdgeId)
    requires c in g.edges && g.edges[c].bs.Some?
    ensures var n := g.edges[c].bs.value;
            Unset(g, root, {c}) == if InheritsOf(g, n) == Some(root) && LastLink(g, root, c) then PutInherits(g, n, None) else g
  {
    var n := g.edges[c].bs.value;
    forall m
      ensures Loses(g, root, {c}, m) <==> m == n && InheritsOf(g, n) == Some(root) && LastLink(g, root, c)
    {}
  }

  /** The links visited through any of `ks`. */
  ghost function WalkAll(g: Graph, ks: set<EdgeId>): set<EdgeId> {
    set k | k in g.edges && Visited(g, ks, k)
  }

  ghost predicate Visited(g: Graph, ks: set<EdgeId>, k: EdgeId) {
    exists x :: x in ks && x in g.edges && g.edges[x].bs.Some? && k in Walk(g, x)
  }

  lemma WalkMore(g: Graph, ks: set<EdgeId>, x: EdgeId)
    requires x in g.edges && g.edges[x].bs.Some?
    ensures WalkAll(g, ks + {x}) == WalkAll(g, ks) + Walk(g, x)
  {
    forall k
      ensures Visited(g, ks + {x}, k) <==> Visited(g, ks, k) || k in Walk(g, x)
    {
      if Visited(g, ks + {x}, k) {
        var y :| y in ks + {x} && y in g.edges && g.edges[y].bs.Some? && k in Walk(g, y);
        assert y == x || Visited(g, ks, k);
      }
    }
  }

  lemma WalkNone(g: Graph)
    ensures WalkAll(g, {}) == {}
  {}

  /** Links and arcs stay as they are, and a child's node reaches less than `n`. */
  lemma UnsetFrame(g: Graph, root: Node, s: set<EdgeId>, n: Node, k: EdgeId)
    requires Acyclic(ArcsOf(g)) && n in g.nodes && k in ChildrenOf(g, n)
    ensures var h := Unset(g, root, s);
            && h.edges == g.edges && h.nodes == g.nodes && k in h.edges && h.edges[k].bs.Some?
            && Below(ArcsOf(h), h.nodes, h.edges[k].bs.value) < Below(ArcsOf(g), g.nodes, n)
  {
    UnsetClears(g, root, s);
    ClearedArcs(g, Unset(g, root, s), root);
    ArcOfChild(g, n, k);
    BelowShrinks(ArcsOf(g), g.nodes, n, g.edges[k].bs.value);
  }

  /** Visiting `k` after the links seen so far. */
  lemma UnsetMore(g: Graph, root: Node, c: EdgeId, seen: set<EdgeId>, k: EdgeId)
    requires k in g.edges && g.edges[k].bs.Some?
    ensures var h := Unset(g, root, {c} + WalkAll(g, seen));
            Unset(h, root, Walk(h, k)) == Unset(g, root, {c} + WalkAll(g, seen + {k}))
  {
    var s := {c} + WalkAll(g, seen);
    var h := Unset(g, root, s);
    WalkSame(g, h, k);
    WalkMore(g, seen, k);
    hide Unset, WalkAll, Walk;
    UnsetTwice(g, root, s, Walk(g, k));
    assert s + Walk(g, k) == {c} + WalkAll(g, seen + {k});
  }

  lemma WalkSame(g: Graph, h: Graph, c: EdgeId)
    requires g.edges == h.edges && c in g.edges && g.edges[c].bs.Some?
    ensures Walk(h, c) == Walk(g, c)
  {
    var n := g.edges[c].bs.value;
    assert ArcsOf(g) == ArcsOf(h);
    assert forall v :: ChildrenOf(g, v) == ChildrenOf(h, v);
    assert forall k :: InSubtree(g, n, k) == InSubtree(h, n, k);
  }

  /** A visit goes to the link and then through the children of its node. */
  lemma WalkUnfold(g: Graph, c: EdgeId)
    requires c in g.edges && g.edges[c].bs.Some?
    ensures Walk(g, c) == {c} + WalkAll(g, ChildrenOf(g, g.edges[c].bs.value))
  {
    var n := g.edges[c].bs.value;
    forall k | k in g.edges
      ensures InSubtree(g, n, k) <==> Visited(g, ChildrenOf(g, n), k)
    {
      if InSubtree(g, n, k) {
        BelowOneChild(g, n, k);
      }
      if Visited(g, ChildrenOf(g, n), k) {
        BelowChildIsBelow(g, n, k);
      }
    }
  }

  lemma BelowOneChild(g: Graph, n: Node, k: EdgeId)
    requires InSubtree(g, n, k) && k in g.edges
    ensures Visited(g, ChildrenOf(g, n), k)
  {
    var v :| Reach(ArcsOf(g), n, v) && k in ChildrenOf(g, v);
    if v == n {
      assert k in Walk(g, k);
    } else {
      var x := ReachFirstChild(g, n, v);
      assert InSubtree(g, g.edges[x].bs.value, k);
      assert k in Walk(g, x);
    }
  }

  lemma BelowChildIsBelow(g: Graph, n: Node, k: EdgeId)
    requires Visited(g, ChildrenOf(g, n), k)
    ensures InSubtree(g, n, k)
  {
    var x :| x in ChildrenOf(g, n) && k in Walk(g, x);
    var m := g.edges[x].bs.value;
    ReachSelf(ArcsOf(g), n);
    if k != x {
      var v :| Reach(ArcsOf(g), m, v) && k in ChildrenOf(g, v);
      ArcOfChild(g, n, x);
      ReachArc(ArcsOf(g), n, m);
      ReachTrans(ArcsOf(g), n, m, v);
    }
  }

  lemma InheritStep(g: Graph, n: Node, parent: Node)
    requires Acyclic(InheritArcs(g)) && n in g.nodes && n != parent
    ensures Reach(InheritArcs(g), n, parent) <==> n in g.inherits && Reach(InheritArcs(g), g.inherits[n], parent)
    ensures n in g.inherits ==>
              Below(InheritArcs(g), g.nodes, g.inherits[n]) < Below(InheritArcs(g), g.nodes, n)
  {
    var e := InheritArcs(g);
    if Reach(e, n, parent) {
      var m := ReachFirst(e, n, parent);
    }
    if n in g.inherits {
      BelowShrinks(e, g.nodes, n, g.inherits[n]);
      ReachArc(e, n, g.inherits[n]);
      if Reach(e, g.inherits[n], parent) { ReachTrans(e, n, g.inherits[n], parent); }
    }
  }

  /** With its slot empty, a child of a fitting role can come. */
  lemma VacantFits(d: Drivers, g: Graph, p: Node, k: Slot, role: Role)
    requires SlotsAgree(d, g) && (p, k) !in g.slots && RoleOk(d, p, role) && SlotOf(d, p, role) == Some(k)
    ensures CanAttach(d, g, NodeParent(p), role)
  {}

  /** inherits_from once the child in slot `k` of `p` is gone. */
  ghost function InheritsWithout(g: Graph, p: Node, k: Slot): map<Node, Node> {
    if (p, k) in g.slots && g.slots[(p, k)] in g.edges && g.edges[g.slots[(p, k)]].bs.Some?
    then Unset(g, p, Walk(g, g.slots[(p, k)])).inherits else g.inherits
  }

  /** ... and once `child` has come, which inherits from `p` from now on if it did through a chain. */
  ghost function InheritsWith(g: Graph, p: Node, k: Slot, child: Option<Node>): map<Node, Node> {
    if child.Some? && Reach(InheritArcs(g), child.value, p) then InheritsWithout(g, p, k)[child.value := p]
    else InheritsWithout(g, p, k)
  }

  /** After the change `child` inherits from `p` exactly if it did before, directly or through a chain. */
  lemma InheritsPassedOn(g: Graph, p: Node, k: Slot, child: Node)
    ensures child in InheritsWith(g, p, k, Some(child)) && InheritsWith(g, p, k, Some(child))[child] == p
            <==> Reach(InheritArcs(g), child, p)
  {
    if child in g.inherits && g.inherits[child] == p {
      ReachArc(InheritArcs(g), child, p);
    }
  }

  /** The link in slot `k` of `p` is emptied, and inherits_from cleared below it. */
  ghost predicate Vacated(g0: Graph, g: Graph, p: Node, k: Slot) {
    && g.nodes == g0.nodes && g.slots == g0.slots - {(p, k)} && g.inherits == InheritsWithout(g0, p, k)
    && g.edges == (if (p, k) in g0.slots && g0.slots[(p, k)] in g0.edges
                   then Repoint(g0, g0.slots[(p, k)], None).edges else g0.edges)
  }

  /** The child in slot `k` of `p` is gone and `child`, if any, is there instead; inherits_from follows. */
  ghost predicate Swapped(d: Drivers, g0: Graph, g: Graph, p: Node, k: Slot, child: Option<Node>) {
    Relinked(d, g0, g, p, k, child) && g.inherits == InheritsWith(g0, p, k, child)
  }

  ghost predicate Relinked(d: Drivers, g0: Graph, g: Graph, p: Node, k: Slot, child: Option<Node>) {
    && g.nodes == g0.nodes
    && (forall c | c in g0.edges ::
          c in g.edges && g.edges[c] == if (p, k) in g0.slots && g0.slots[(p, k)] == c
                                        then g0.edges[c].(bs := None) else g0.edges[c])
    && (forall c | c in g.edges && c !in g0.edges :: child.Some? && (p, k) in g.slots && g.slots[(p, k)] == c)
    && (forall s | s != (p, k) :: s in g.slots <==> s in g0.slots)
    && (forall s | s != (p, k) && s in g.slots :: g.slots[s] == g0.slots[s])
    && (if child.None? then (p, k) !in g.slots
        else && (p, k) in g.slots && g.slots[(p, k)] !in g0.edges && g.slots[(p, k)] in g.edges
             && g.edges[g.slots[(p, k)]].bs == child && g.edges[g.slots[(p, k)]].parent == NodeParent(p))
  }

  lemma SwappedInherits(d: Drivers, g0: Graph, g: Graph, h: Graph, p: Node, k: Slot, child: Option<Node>)
    requires Relinked(d, g0, g, p, k, child) && h == g.(inherits := InheritsWith(g0, p, k, child))
    ensures Swapped(d, g0, h, p, k, child)
  {}

  lemma SwappedNodes(d: Drivers, g0: Graph, g: Graph, p: Node, k: Slot, child: Option<Node>)
    requires Relinked(d, g0, g, p, k, child)
    ensures g.nodes == g0.nodes
  {}

  lemma SwappedParts(d: Drivers, g0: Graph, g: Graph, p: Node, k: Slot, child: Option<Node>)
    requires Swapped(d, g0, g, p, k, child)
    ensures Relinked(d, g0, g, p, k, child) && g.inherits == InheritsWith(g0, p, k, child)
  {}

  lemma VacatedRelinked(d: Drivers, g0: Graph, g: Graph, p: Node, k: Slot)
    requires SlotsAgree(d, g0) && Vacated(g0, g, p, k)
    ensures Relinked(d, g0, g, p, k, None)
  {
    hide InheritsWithout;
    if (p, k) in g0.slots {
      SlotHolds(d, g0, p, k);
    }
    hide SlotsAgree;
  }

  lemma VacatedSwapped(d: Drivers, g0: Graph, g: Graph, p: Node, k: Slot)
    requires SlotsAgree(d, g0) && Vacated(g0, g, p, k)
    ensures Swapped(d, g0, g, p, k, None)
  {
    VacatedRelinked(d, g0, g, p, k);
    hide Relinked, SlotsAgree, InheritsWithout;
  }

  lemma AttachedSwapped(d: Drivers, g0: Graph, g1: Graph, g: Graph, p: Node, k: Slot, c: EdgeId)
    requires SlotsAgree(d, g0) && Vacated(g0, g1, p, k) && c !in g1.edges && c in g.edges
    requires g == AttachNew(d, g1, c, g.edges[c]) && g.edges[c].bs.Some?
    requires g.edges[c].parent == NodeParent(p) && SlotOf(d, p, g.edges[c].role) == Some(k)
    ensures Relinked(d, g0, g, p, k, g.edges[c].bs) && g.inherits == g1.inherits
  {
    hide AttachNew, SlotsAgree, InheritsWithout;
    NewShape(d, g1, c, g.edges[c]);
    VacatedRelinked(d, g0, g1, p, k);
  }

  /** The child in the slot, if there is to be one, has the role. */
  ghost predicate NewChild(g: Graph, p: Node, k: Slot, child: Option<Node>, role: Role) {
    child.Some? ==> (p, k) in g.slots && g.slots[(p, k)] in g.edges && g.edges[g.slots[(p, k)]].role == role
  }

  lemma IsNewChild(g: Graph, p: Node, k: Slot, child: Node, c: EdgeId)
    requires (p, k) in g.slots && g.slots[(p, k)] == c && c in g.edges
    ensures NewChild(g, p, k, Some(child), g.edges[c].role)
  {}

  lemma NoNewChild(g: Graph, p: Node, k: Slot, role: Role)
    ensures NewChild(g, p, k, None, role)
  {}

  lemma AttachedRole(d: Drivers, g0: Graph, g1: Graph, g: Graph, p: Node, k: Slot, c: EdgeId)
    requires Vacated(g0, g1, p, k) && c !in g1.edges && c in g.edges
    requires g == AttachNew(d, g1, c, g.edges[c]) && g.edges[c].bs.Some?
    requires g.edges[c].parent == NodeParent(p) && SlotOf(d, p, g.edges[c].role) == Some(k)
    ensures (p, k) in g.slots && g.slots[(p, k)] == c
  {
    hide Vacated;
    NewShape(d, g1, c, g.edges[c]);
  }

  lemma SwapPeaceful(d: Drivers, g0: Graph, h: Graph, g: Graph, p: Node, k: Slot, child: Option<Node>)
    requires Peaceful(g0) && Swapped(d, g0, h, p, k, child) && ChangedBelowAny(h, g, [p])
    requires forall r, n | r in [p] && Reach(ArcsOf(g), r, n) :: SettledAt(d, g, n)
    ensures Peaceful(g)
  {
    hide SettledAt, Peaceful;
    if child.Some? { LinkCovered(h, h.slots[(p, k)], [p]); }
    forall n ensures Covered(h, [p], n) || FewerParents(g0, h, n) {}
    StaysPeaceful(d, g0, h, g, [p]);
  }

  /** A chain of inherits_from pointers may be shortcut. */
  lemma ShortcutInherits(g0: Graph, g1: Graph, g: Graph, child: Node, p: Node)
    requires Acyclic(InheritArcs(g0)) && Reach(InheritArcs(g0), child, p) && child != p
    requires InheritArcs(g1) <= InheritArcs(g0) && g.inherits == g1.inherits
    ensures !Reach(InheritArcs(PutInherits(g, child, None)), p, child)
  {
    var h := PutInherits(g, child, None);
    assert InheritArcs(h) <= InheritArcs(g1);
    if Reach(InheritArcs(h), p, child) {
      ReachMono(InheritArcs(h), InheritArcs(g0), p, child);
      var m := ReachFirst(InheritArcs(g0), child, p);
      ReachTrans(InheritArcs(g0), m, p, child);
    }
  }

  lemma RemoveVacates(d: Drivers, g0: Graph, g1: Graph, p: Node, k: Slot)
    requires SlotsAgree(d, g1) && g1 == g0.(inherits := InheritsWithout(g0, p, k)) && (p, k) in g1.slots
    ensures var c := g1.slots[(p, k)];
            && c in g1.edges && g1.edges[c].bs.Some? && g1.edges[c].parent == NodeParent(p)
            && Vacated(g0, ReplaceNoperm(d, g1, c, None), p, k)
  {}

  lemma SlotHolds(d: Drivers, g: Graph, p: Node, k: Slot)
    requires SlotsAgree(d, g) && (p, k) in g.slots
    ensures var c := g.slots[(p, k)]; c in g.edges && g.edges[c].bs.Some? && g.edges[c].parent == NodeParent(p)
  {}

  /** What bdrv_set_file_or_backing_noperm accepts. */
  predicate SlotMayChange(d: Drivers, g: Graph, p: Node, k: Slot) {
    && d.hasDriver(p)
    && ((p, k) in g.slots && g.slots[(p, k)] in g.edges ==> !g.edges[g.slots[(p, k)]].frozen)
    && (d.isFilter(p) || (if k == BackingSlot then d.supportsBacking(p) else (p, k) in g.slots))
  }

  /** The role of the new child: that of a filter's only child, of a backing file, or of the child it replaces. */
  function NewRole(d: Drivers, g: Graph, p: Node, k: Slot): Role {
    if d.isFilter(p) then Role(false, false, true, false, true)
    else if k == BackingSlot || (p, k) !in g.slots || g.slots[(p, k)] !in g.edges then Role(false, false, false, true, false)
    else g.edges[g.slots[(p, k)]].role
  }

  /** The slot may change, and the new child can be linked once the old one is gone. */
  ghost predicate SwapAllowed(d: Drivers, g: Graph, p: Node, k: Slot, child: Option<Node>, movable: bool) {
    && SlotMayChange(d, g, p, k)
    && (child.Some? ==>
          exists v :: Vacated(g, v, p, k) && LinkAllowed(d, v, p, child.value, NewRole(d, g, p, k), movable))
  }

  lemma SwapNeedsSlot(d: Drivers, g: Graph, p: Node, k: Slot, child: Option<Node>, movable: bool)
    ensures !SlotMayChange(d, g, p, k) ==> !SwapAllowed(d, g, p, k, child, movable)
    ensures SwapAllowed(d, g, p, k, None, movable) <==> SlotMayChange(d, g, p, k)
  {
    hide LinkAllowed, SlotMayChange;
  }

  lemma SwapAllowedIs(d: Drivers, g: Graph, v: Graph, p: Node, k: Slot, child: Node, movable: bool)
    requires SlotMayChange(d, g, p, k) && Vacated(g, v, p, k)
    ensures SwapAllowed(d, g, p, k, Some(child), movable)
            <==> LinkAllowed(d, v, p, child, NewRole(d, g, p, k), movable)
  {
    hide LinkAllowed;
    forall w | Vacated(g, w, p, k)
      ensures w == v
    {}
  }

  ghost function OldBacking(g: Graph, bs: Node): set<EdgeId> {
    if (bs, BackingSlot) in g.slots then {g.slots[(bs, BackingSlot)]} else {}
  }

  /** Committing the swap frees the old, empty link and disturbs nothing. */
  lemma SwapFreed(d: Drivers, g0: Graph, h: Graph, g: Graph, log: seq<Action>, bs: Node, backing: Option<Node>)
    requires Peaceful(g) && Committable(g, log) && Freed(log) == OldBacking(g0, bs)
    requires Swapped(d, g0, h, bs, BackingSlot, backing) && SameLinks(h, g)
    requires forall n | Reach(ArcsOf(g), bs, n) :: SettledAt(d, g, n)
    ensures var k := g.(edges := g.edges - Freed(log));
            && Peaceful(k)
            && SameLinks(h.(edges := h.edges - OldBacking(g0, bs)), k)
            && (forall n | Reach(ArcsOf(k), bs, n) :: SettledAt(d, k, n))
  {
    hide Swapped;
    forall c | c in Freed(log) && c in g.edges ensures g.edges[c].bs.None? {
      var i :| 0 <= i < |log| && log[i] == ChildRemoved(c);
    }
    FreeingIsPeaceful(g, Freed(log));
    var k := g.(edges := g.edges - Freed(log));
    FreeingKeeps(d, g, Freed(log));
    assert SameLinks(h.(edges := h.edges - OldBacking(g0, bs)), k);
  }

  /** Freeing empty links changes no arc, no parent and no child of any node. */
  lemma FreeingKeeps(d: Drivers, g: Graph, s: set<EdgeId>)
    requires forall c | c in s && c in g.edges :: g.edges[c].bs.None?
    ensures var k := g.(edges := g.edges - s);
            && ArcsOf(k) == ArcsOf(g)
            && forall n :: SettledAt(d, g, n) ==> SettledAt(d, k, n)
  {
    var k := g.(edges := g.edges - s);
    forall x | x in ArcsOf(g) ensures x in ArcsOf(k) {
      var c :| c in g.edges && g.edges[c].parent.NodeParent? && g.edges[c].bs.Some?
               && x == (g.edges[c].parent.node, g.edges[c].bs.value);
      assert k.edges[c] == g.edges[c];
    }
    forall n | SettledAt(d, g, n) ensures SettledAt(d, k, n) {
      assert ParentsOf(k, n) == ParentsOf(g, n) && ChildrenOf(k, n) == ChildrenOf(g, n);
      assert CumulativePerm(k, n) == CumulativePerm(g, n) && CumulativeShared(k, n) == CumulativeShared(g, n);
    }
  }

  /** Taking a link away keeps the graph well-formed, the counts balanced and the peace. */
  lemma UnrefGood(d: Drivers, g: Graph, r: Refs, c: EdgeId)
    requires Good(d, g, [], r) && Peaceful(g) && c in g.edges && !g.edges[c].frozen && g.edges[c].bs.Some?
    ensures var h := Drop(ReplaceNoperm(d, g, c, None), c);
            && Good(d, h, [], Schedule(r, g.edges[c].bs)) && Peaceful(h)
            && g.edges[c].bs.value in h.nodes
  {
    hide Balanced, SlotsAgree, Peaceful;
    var g1 := ReplaceNoperm(d, g, c, None);
    ReplaceWf(d, g, c, None);
    DropWf(d, g1, c);
    var h := Drop(g1, c);
    DropShape(d, g, c);
    DetachBalanced(g, h, c, [], r);
  }

  lemma DropShape(d: Drivers, g: Graph, c: EdgeId)
    requires c in g.edges
    ensures var h := Drop(ReplaceNoperm(d, g, c, None), c);
            && h == g.(edges := g.edges - {c}, slots := h.slots)
            && (Peaceful(g) ==> Peaceful(h))
  {
    var h := Drop(ReplaceNoperm(d, g, c, None), c);
    assert h.edges == g.edges - {c};
    if Peaceful(g) {
      forall n ensures NoConflict(h, n) { assert NoConflict(g, n); }
    }
  }

  lemma RefreshPeaceful(d: Drivers, h: Graph, g: Graph, roots: seq<Node>)
    requires Peaceful(h) && ChangedBelowAny(h, g, roots)
    requires forall r, n | r in roots && Reach(ArcsOf(g), r, n) :: SettledAt(d, g, n)
    ensures Peaceful(g)
  {
    hide SettledAt, Peaceful;
    StaysPeaceful(d, h, h, g, roots);
  }

  lemma UnrefCounts(g: Graph, r: Refs, n: Node)
    requires Balanced(g, [], r) && n in g.nodes && n in r.scheduled
    ensures n in r.count && r.count[n] > 0
    ensures Balanced(g, [], r.(count := r.count[n := r.count[n] - 1], scheduled := r.scheduled - multiset{n}))
    ensures r.count[n] == 1 <==> ParentsOf(g, n) == {} && n !in r.owned && r.scheduled[n] == 1
  {}

  /** The links in `gone` are gone; every other link joins the same ends as before. */
  ghost predicate FewerLinks(g0: Graph, g: Graph, gone: set<EdgeId>) {
    && g.nodes == g0.nodes && g.edges.Keys == g0.edges.Keys - gone
    && forall k | k in g.edges ::
         g.edges[k] == g0.edges[k].(perm := g.edges[k].perm, shared := g.edges[k].shared)
  }

  lemma FewerAfterUnref(d: Drivers, g0: Graph, h: Graph, g: Graph, c: EdgeId)
    requires h == g0.(inherits := h.inherits) && c in h.edges
    requires SameLinks(Drop(ReplaceNoperm(d, h, c, None), c), g)
    ensures FewerLinks(g0, g, {c})
  {
    DropShape(d, h, c);
  }

  lemma FewerMore(g0: Graph, h: Graph, g: Graph, gone: set<EdgeId>, c: EdgeId)
    requires FewerLinks(g0, h, gone) && FewerLinks(h, g, {c})
    ensures FewerLinks(g0, g, gone + {c})
  {}

  lemma FewerLists(g0: Graph, g: Graph, c: EdgeId, n: Node)
    requires FewerLinks(g0, g, {c}) && c in ChildrenOf(g0, n) && ParentsOf(g0, n) == {}
    requires forall k | k in ChildrenOf(g0, n) :: !g0.edges[k].frozen
    ensures ChildrenOf(g, n) == ChildrenOf(g0, n) - {c} && ParentsOf(g, n) == {}
    ensures forall k | k in ChildrenOf(g, n) :: !g.edges[k].frozen
  {}

  lemma FewerNone(g: Graph, s: set<EdgeId>)
    ensures FewerLinks(g, g, s - s)
  {}

  lemma SlotIsChild(d: Drivers, g: Graph, n: Node, k: Slot)
    requires SlotsAgree(d, g) && (n, k) in g.slots
    ensures g.slots[(n, k)] in ChildrenOf(g, n)
  {}

  lemma NoSlotsLeft(d: Drivers, g: Graph, n: Node)
    requires SlotsAgree(d, g) && ChildrenOf(g, n) == {}
    ensures (n, BackingSlot) !in g.slots && (n, FileSlot) !in g.slots
  {
    if (n, BackingSlot) in g.slots {
      SlotIsChild(d, g, n, BackingSlot);
    }
    if (n, FileSlot) in g.slots {
      SlotIsChild(d, g, n, FileSlot);
    }
  }

  /** After a link to `n` has gone, permissions below it are refreshed if that is possible, and left alone otherwise. */
  ghost predicate Loosened(d: Drivers, h: Graph, g: Graph, n: Node) {
    if Refreshable(d, h, [n]) then Refreshed(d, h, g, [n]) else g == h
  }

  lemma ClearedPeaceful(g0: Graph, g: Graph, root: Node)
    requires Peaceful(g0) && InheritsCleared(g0, g, root)
    ensures Peaceful(g)
  {
    forall n ensures NoConflict(g, n) { assert NoConflict(g0, n); }
  }

  function BackingRole(d: Drivers, n: Node): Role {
    if d.hasDriver(n) && d.isFilter(n)
    then Role(false, false, true, false, true) else Role(false, false, false, true, false)
  }

  lemma CountKnown(g: Graph, log: seq<Action>, r: Refs, n: Node)
    requires Balanced(g, log, r) && n in g.nodes
    ensures n in r.count
  {}

  // ---------------------------------------------------------------------------------------
  // Where every run begins

  function EmptyGraph(): Graph {
    Graph({}, map[], map[], map[])
  }

  lemma EmptyGood(d: Drivers)
    requires DriversOk(d)
    ensures Good(d, EmptyGraph(), [], Refs(map[], multiset{}, multiset{})) && Peaceful(EmptyGraph())
  {}

  function WithNode(g: Graph, n: Node, from: Option<Node>): Graph {
    g.(nodes := g.nodes + {n}, inherits := if from.Some? then g.inherits[n := from.value] else g.inherits)
  }

  /** Nobody inherits from a node that is not there, so a new node closes no circle. */
  lemma WithNodeInherits(d: Drivers, g: Graph, n: Node, from: Node)
    requires Wf(d, g) && n !in g.nodes && from in g.nodes
    ensures Acyclic(InheritArcs(PutInherits(g, n, Some(from))))
  {
    var e := InheritArcs(g);
    assert n !in g.inherits;
    assert PutInherits(g, n, None) == g;
    if Reach(e, from, n) {
      ClosedReach(e, g.nodes, from, n);
    }
    InheritsArc(g, n, from);
    AddArc(e, n, from);
  }

  lemma WithNodeWf(d: Drivers, g: Graph, n: Node, from: Option<Node>)
    requires Wf(d, g) && n !in g.nodes && (from.Some? ==> from.value in g.nodes)
    ensures Wf(d, WithNode(g, n, from))
  {
    var h := WithNode(g, n, from);
    if from.Some? {
      WithNodeInherits(d, g, n, from.value);
      assert InheritArcs(h) == InheritArcs(PutInherits(g, n, from));
    } else {
      assert InheritArcs(h) == InheritArcs(g);
    }
    assert ArcsOf(h) == ArcsOf(g);
    hide Acyclic;
  }

  lemma WithNodeCounts(d: Drivers, g: Graph, r: Refs, n: Node, from: Option<Node>)
    requires Wf(d, g) && Balanced(g, [], r) && n !in g.nodes && n !in r.owned && n !in r.scheduled
    ensures Balanced(WithNode(g, n, from), [], r.(count := r.count[n := 1], owned := r.owned + multiset{n}))
  {}

  lemma WithNodeGood(d: Drivers, g: Graph, r: Refs, n: Node, from: Option<Node>)
    requires Good(d, g, [], r) && Peaceful(g) && n !in g.nodes && n !in r.owned && n !in r.scheduled
    requires from.Some? ==> from.value in g.nodes
    ensures Good(d, WithNode(g, n, from), [], r.(count := r.count[n := 1], owned := r.owned + multiset{n}))
    ensures Peaceful(WithNode(g, n, from))
  {
    WithNodeWf(d, g, n, from);
    WithNodeCounts(d, g, r, n, from);
    hide Wf, Balanced;
    forall m
      ensures NoConflict(WithNode(g, n, from), m)
    {
      assert NoConflict(g, m);
    }
  }
}
