/**
 The graph operations of qemu/block.c on the mutable node graph: attach, detach, set backing,
 replace node, append and permission changes, each inside a transaction that commits or rolls
 back.  Drain, AioContext and block-limit side effects are not part of this module.
 */
module BlockLayer {

  import opened Wrappers
  import opened Digraph
  import opened BlockGraph
  import opened Topological
  import opened Transactions
  import opened Permissions
  import opened References
  import opened GraphEdits

  class BlockLayer {
    const d: Drivers
    var g: Graph
    var refcnt: map<Node, int>
    var scheduled: multiset<Node>    // bottom halves of bdrv_schedule_unref that have not run
    var tran: seq<Action>            // the open transaction, newest record last
    ghost var owned: multiset<Node>  // references held by callers

    ghost function R(): Refs
      reads this
    {
      Refs(refcnt, owned, scheduled)
    }

    ghost predicate Valid()
      reads this
    {
      Good(d, g, tran, R())
    }

    /** The graph before the open transaction began. */
    ghost function Base(): Graph
      reads this
      requires Valid()
    {
      Abort(d, g, tran, owned)
    }

    constructor (d: Drivers)
      requires DriversOk(d)
      ensures Idle() && this.d == d && g == EmptyGraph() && owned == multiset{} && scheduled == multiset{}
    {
      this.d := d;
      g, refcnt, scheduled, tran, owned := EmptyGraph(), map[], multiset{}, [], multiset{};
      new;
      EmptyGood(d);
    }

    /** bdrv_new: the caller owns the one reference.  A node opened for `from` inherits from it (bdrv_open_inherit). */
    method NewNode(n: Node, from: Option<Node>)
      requires Idle() && n !in g.nodes && n !in owned && n !in scheduled && (from.Some? ==> from.value in g.nodes)
      modifies this`g, this`refcnt, this`owned
      ensures Idle() && g == WithNode(old(g), n, from) && refcnt == old(refcnt)[n := 1] && owned == old(owned) + multiset{n}
      ensures scheduled == old(scheduled)
    {
      WithNodeGood(d, g, R(), n, from);
      hide Good, Peaceful;
      g := WithNode(g, n, from);
      refcnt := refcnt[n := 1];
      owned := owned + multiset{n};
    }

    /** bdrv_replace_child_tran */
    method ReplaceChildTran(c: EdgeId, to: Option<Node>)
      requires Valid() && c in g.edges && !g.edges[c].frozen && g.edges[c].bs.Some? && g.edges[c].bs != to
      requires to.Some? ==> to.value in g.nodes && StaysHeld(g, R(), to.value) && Acyclic(ArcsOf(Repoint(g, c, to)))
      modifies this`g, this`refcnt, this`tran
      ensures Valid() && Base() == old(Base())
      ensures g == ReplaceNoperm(d, old(g), c, to) && Freed(tran) == Freed(old(tran))
      ensures tran == old(tran) + [ChildReplaced(c, old(g).edges[c].bs)]
    {
      hide Wf, Undoable, Balanced, ReplaceNoperm, Abort;
      ReplaceContinues(d, g, tran, R(), c, to);
      FreedAppend(tran, ChildReplaced(c, g.edges[c].bs));
      tran := tran + [ChildReplaced(c, g.edges[c].bs)];
      if to.Some? {
        CountKnown(old(g), old(tran), old(R()), to.value);
        refcnt := refcnt[to.value := refcnt[to.value] + 1];
      }
      g := ReplaceNoperm(d, g, c, to);
    }

    /** bdrv_remove_child */
    method RemoveChildTran(c: EdgeId)
      requires Valid() && c in g.edges && !g.edges[c].frozen && g.edges[c].bs.Some?
      modifies this`g, this`refcnt, this`tran
      ensures Valid() && Base() == old(Base())
      ensures g == ReplaceNoperm(d, old(g), c, None) && Freed(tran) == Freed(old(tran)) + {c}
    {
      hide Wf;
      NotRemoved(g, tran, c);
      ReplaceChildTran(c, None);
      MarkContinues(d, g, tran, R(), ChildRemoved(c));
      FreedAppend(tran, ChildRemoved(c));
      tran := tran + [ChildRemoved(c)];
    }

    /** bdrv_child_set_perm */
    method SetPermTran(c: EdgeId, perm: Perms, shared: Perms)
      requires Valid() && c in g.edges
      modifies this`g, this`tran
      ensures Freed(tran) == Freed(old(tran))
      ensures Valid() && Base() == old(Base())
      ensures g == PutPerm(old(g), c, perm, shared)
      ensures tran == old(tran) + [PermSet(c, old(g).edges[c].perm, old(g).edges[c].shared)]
    {
      PermContinues(d, g, tran, R(), c, perm, shared);
      FreedAppend(tran, PermSet(c, g.edges[c].perm, g.edges[c].shared));
      tran := tran + [PermSet(c, g.edges[c].perm, g.edges[c].shared)];
      g := PutPerm(g, c, perm, shared);
    }

    /** tran_add(&bdrv_drv_set_perm_drv) */
    method MarkDriverPerm(n: Node)
      requires Valid()
      modifies this`tran
      ensures Freed(tran) == Freed(old(tran)) && tran == old(tran) + [DriverPermSet(n)]
      ensures Valid() && Base() == old(Base())
    {
      hide Wf;
      MarkContinues(d, g, tran, R(), DriverPermSet(n));
      FreedAppend(tran, DriverPermSet(n));
      tran := tran + [DriverPermSet(n)];
    }

    /** bdrv_node_refresh_perm; what the driver's .bdrv_check_perm answers is part of `d`. */
    method NodeRefreshPerm(n: Node) returns (ok: bool)
      requires Valid() && NoConflict(g, n)
      modifies this`g, this`tran
      ensures Freed(tran) == Freed(old(tran))
      ensures Valid() && Base() == old(Base()) && ChangedBelow(old(g), g, n)
      ensures ok ==> SettledAt(d, g, n)
      ensures ok <==> !Refused(d, n, CumulativePerm(old(g), n), CumulativeShared(old(g), n))
      ensures !PassesOn(d, n) ==> g == old(g)
      ensures old(tran) <= tran && (ok && d.hasDriver(n) ==> DriverPermSet(n) in tran)
    {
      ghost var g0 := g;
      var perm, shared := GetCumulativePerm(g, n);
      if perm * {Write, WriteUnchanged} != {} && !d.writable(n) {
        return false;
      }
      if perm * {Write, WriteUnchanged} != {} && Resize !in perm && !d.aligned(n) {
        return false;
      }
      if !d.hasDriver(n) {
        return true;
      }
      if !d.accepts(n, perm, shared) {
        return false;
      }
      MarkDriverPerm(n);
      if !d.hasChildPerm(n) {
        return true;
      }
      SetChildrenPerm(n, perm, shared);
      assert Wf(d, g0);
      OwnLinksSame(g0, g, n);
      SameLists(g0, g, n);
      return true;
    }

    /** The loop over the children in bdrv_node_refresh_perm. */
    method SetChildrenPerm(n: Node, perm: Perms, shared: Perms)
      requires Valid()
      modifies this`g, this`tran
      ensures Freed(tran) == Freed(old(tran))
      ensures Valid() && Base() == old(Base()) && ChangedBelow(old(g), g, n)
      ensures forall c | c in ChildrenOf(g, n) :: HasMasks(d, n, Some(c), perm, shared, g.edges[c])
      ensures old(tran) <= tran
    {
      hide Wf, Undoable, Balanced, Abort;
      ghost var g0 := g;
      var todo := ChildrenOf(g, n);
      while todo != {}
        invariant Valid() && Base() == old(Base()) && Freed(tran) == Freed(old(tran))
        invariant ChangedBelow(g0, g, n) && todo <= ChildrenOf(g0, n) && old(tran) <= tran
        invariant forall c | c in ChildrenOf(g0, n) - todo :: HasMasks(d, n, Some(c), perm, shared, g.edges[c])
      {
        var c :| c in todo;
        var (p, s) := ChildPerm(d, n, Some(c), g.edges[c].role, g.edges[c].bs, perm, shared);
        SetPermTran(c, p, s);
        todo := todo - {c};
      }
      SameLists(g0, g, n);
    }

    /** bdrv_do_refresh_perms: one pass over a topologically sorted list. */
    method DoRefreshPerms(list: seq<Node>) returns (ok: bool)
      requires Valid() && Sorted(ArcsOf(g), list)
      modifies this`g, this`tran
      ensures Freed(tran) == Freed(old(tran))
      ensures Valid() && Base() == old(Base()) && OnlyGoverned(d, old(g), g, list)
      ensures ok ==> Settled(d, g, list, |list|)
      ensures ok <==> Satisfiable(d, old(g), list)
      ensures ok ==> forall n | n in list && d.hasDriver(n) :: DriverPermSet(n) in tran
    {
      hide Wf;
      ghost var g0 := g;
      var i := 0;
      while i < |list|
        invariant i <= |list| && Valid() && Base() == old(Base()) && Freed(tran) == Freed(old(tran))
        invariant OnlyGoverned(d, g0, g, list)
        invariant Settled(d, g, list, i)
        invariant forall n | n in list[..i] && d.hasDriver(n) :: DriverPermSet(n) in tran
      {
        var conflict := ParentPermsConflict(g, list[i]);
        if conflict {
          StopIsFinal(d, g0, g, list, i);
          return false;
        }
        ghost var h := g;
        ok := NodeRefreshPerm(list[i]);
        GovernedStep(d, g0, h, g, list, i);
        if !ok {
          StopIsFinal(d, g0, h, list, i);
          return false;
        }
        SameArcs(g0, h);
        StepSettles(d, h, g, list, i);
        assert list[..i + 1] == list[..i] + [list[i]];
        i := i + 1;
      }
      assert list[..i] == list;
      return true;
    }

    /** bdrv_list_refresh_perms; bdrv_refresh_perms is the case of one root. */
    method ListRefreshPerms(roots: seq<Node>) returns (ok: bool)
      requires Valid() && forall r | r in roots :: r in g.nodes
      modifies this`g, this`tran
      ensures Freed(tran) == Freed(old(tran))
      ensures Valid() && Base() == old(Base()) && ChangedBelowAny(old(g), g, roots)
      ensures ok ==> forall r, n | r in roots && Reach(ArcsOf(g), r, n) :: SettledAt(d, g, n)
      ensures ok ==> Refreshed(d, old(g), g, roots)
      ensures ok <==> Refreshable(d, old(g), roots)
      ensures ok ==> forall n | Covered(old(g), roots, n) && d.hasDriver(n) :: DriverPermSet(n) in tran
    {
      ghost var g0 := g;
      assert Wf(d, g);
      var list := RefreshList(g, roots);
      RefreshableIs(d, g, roots, list);
      ok := DoRefreshPerms(list);
      RefreshedBelow(d, g0, g, roots, list);
      RefreshedIs(d, g0, g, roots, list);
      SameArcs(g0, g);
      if ok {
        forall r, n | r in roots && Reach(ArcsOf(g), r, n) ensures SettledAt(d, g, n) {
          assert n in list;
        }
      }
    }

    /** The abort callback of the newest record. */
    method UndoLast()
      requires Valid() && tran != []
      modifies this`g, this`refcnt, this`scheduled, this`tran
      ensures Valid() && Base() == old(Base())
      ensures g == Undo(d, old(g), old(tran)[|old(tran)| - 1]) && tran == old(tran)[..|old(tran)| - 1]
    {
      hide Wf, Undoable, Balanced;
      var a := tran[|tran| - 1];
      assert tran == tran[..|tran| - 1] + [a];
      UndoGood(d, g, tran[..|tran| - 1], a, R());
      match a {
        case ChildReplaced(c, was) =>
          var newBs := g.edges[c].bs;
          g := ReplaceNoperm(d, g, c, was);
          if newBs.Some? {
            refcnt := refcnt[newBs.value := refcnt[newBs.value] - 1];
            assert refcnt[newBs.value] > 0;   // so bdrv_unref does not delete the node here
          }
        case ChildAttached(c) =>
          var bs := g.edges[c].bs;
          g := ReplaceNoperm(d, g, c, None);
          scheduled := scheduled + multiset{bs.value};
          g := g.(edges := g.edges - {c});
        case PermSet(c, perm, shared) => g := PutPerm(g, c, perm, shared);
        case InheritsSet(n, from) => g := PutInherits(g, n, from);
        case DriverPermSet(_) =>
        case ChildRemoved(_) =>
      }
      tran := tran[..|tran| - 1];
    }

    /** tran_abort: the graph is what it was when the transaction began. */
    method TranAbort()
      requires Valid()
      modifies this`g, this`refcnt, this`scheduled, this`tran
      ensures Valid() && tran == [] && g == old(Base())
    {
      hide Wf;
      while tran != []
        invariant Valid() && Base() == old(Base())
        decreases |tran|
      {
        UndoLast();
      }
    }

    /** The commit callback of the newest record of `log`. */
    method CommitLast(log: seq<Action>)
      requires log != [] && Wf(d, g) && Committable(g, log) && Balanced(g, log, R())
      modifies this`g, this`scheduled
      ensures Wf(d, g) && Committable(g, log[..|log| - 1]) && Balanced(g, log[..|log| - 1], R())
      ensures g == if log[|log| - 1].ChildRemoved? then Drop(old(g), log[|log| - 1].c) else old(g)
    {
      hide Wf, Balanced, Committable;
      var a := log[|log| - 1];
      assert log == log[..|log| - 1] + [a];
      CommitStep(d, g, log[..|log| - 1], a, R());
      if a.ChildReplaced? && a.oldBs.Some? {
        scheduled := scheduled + multiset{a.oldBs.value};
      }
      if a.ChildRemoved? {
        g := Drop(g, a.c);
      }
    }

    /** tran_commit: removed links are freed and the references saved in records are dropped later. */
    method TranCommit()
      requires Valid()
      modifies this`g, this`scheduled, this`tran
      ensures Valid() && tran == [] && g == old(g).(edges := old(g).edges - Freed(old(tran)))
    {
      hide Wf, Balanced;
      var log := tran;
      tran := [];
      assert old(tran)[..|log|] == log;
      assert old(g).edges - Freed(old(tran)[|log|..]) == old(g).edges;
      while log != []
        invariant tran == [] && |log| <= |old(tran)| && log == old(tran)[..|log|]
        invariant Wf(d, g) && Committable(g, log) && Balanced(g, log, R())
        invariant g == old(g).(edges := old(g).edges - Freed(old(tran)[|log|..]))
        decreases |log|
      {
        FreedStep(old(tran), |log| - 1);
        CommitLast(log);
        log := log[..|log| - 1];
        assert g.edges == old(g).edges - Freed(old(tran)[|log|..]);
      }
      assert old(tran)[0..] == old(tran);
    }

    /** tran_finalize */
    method TranFinalize(ok: bool)
      requires Valid()
      modifies this`g, this`refcnt, this`scheduled, this`tran
      ensures Valid() && tran == []
      ensures ok ==> g == old(g).(edges := old(g).edges - Freed(old(tran))) && refcnt == old(refcnt)
      ensures !ok ==> g == old(Base())
    {
      if ok {
        TranCommit();
      } else {
        TranAbort();
      }
    }

    /** bdrv_attach_child_common; `movable` says whether the AioContexts of parent and child can be brought together. */
    method AttachChildCommon(child: Node, parent: Parent, role: Role, perm: Perms, shared: Perms, movable: bool)
      returns (r: Option<EdgeId>)
      requires Valid() && child in g.nodes && CanAttach(d, g, parent, role)
      requires parent.NodeParent? ==>
                 && parent.node in g.nodes && d.hasChildPerm(parent.node)
                 && !Reach(ArcsOf(g), child, parent.node)
      modifies this`g, this`refcnt, this`tran
      ensures Valid() && Base() == old(Base()) && Freed(tran) == Freed(old(tran))
      ensures r.None? ==> g == old(g)
      ensures r.Some? <==> movable && UsableBy(d, child, perm)
      ensures r.Some? ==>
                && r.value !in old(g).edges
                && g == AttachNew(d, old(g), r.value, Edge(Some(child), parent, role, perm, shared, false))
    {
      hide Wf, Undoable, Balanced, CanAttach, AttachNew, Abort;
      Within(perm, {ConsistentRead});
      if d.inactive(child) && perm - {ConsistentRead} != {} {
        return None;
      }
      if !movable {
        return None;
      }
      ghost var unused := FreshEdge(g);
      var c: EdgeId :| c !in g.edges;
      var edge := Edge(Some(child), parent, role, perm, shared, false);
      AttachContinues(d, g, tran, R(), c, edge);
      FreedAppend(tran, ChildAttached(c));
      CountKnown(g, tran, R(), child);
      refcnt := refcnt[child := refcnt[child] + 1];
      g := AttachNew(d, g, c, edge);
      tran := tran + [ChildAttached(c)];
      return Some(c);
    }

    /** bdrv_attach_child_noperm: refuses a link that would close a cycle. */
    method AttachChildNoperm(parent: Node, child: Node, role: Role, movable: bool) returns (r: Option<EdgeId>)
      requires Valid() && parent in g.nodes && child in g.nodes
      requires d.hasChildPerm(parent) && CanAttach(d, g, NodeParent(parent), role)
      modifies this`g, this`refcnt, this`tran
      ensures Valid() && Base() == old(Base()) && Freed(tran) == Freed(old(tran))
      ensures r.None? ==> g == old(g)
      ensures r.Some? ==>
                && r.value !in old(g).edges && r.value in g.edges
                && g.edges[r.value] == NewLink(d, old(g), parent, child, role)
                && g == AttachNew(d, old(g), r.value, g.edges[r.value])
      ensures r.Some? <==> LinkAllowed(d, old(g), parent, child, role, movable)
    {
      assert Wf(d, g);
      hide Wf, Undoable, Balanced, CanAttach, SlotsAgree, Abort, AttachNew;
      var cycle := RecurseHasChild(g, child, parent);
      if cycle {
        return None;
      }
      if d.inactive(child) && !d.inactive(parent) {
        return None;
      }
      var perm, shared := GetCumulativePerm(g, parent);
      var (childPerm, childShared) := ChildPerm(d, parent, None, role, Some(child), perm, shared);
      r := AttachChildCommon(child, NodeParent(parent), role, childPerm, childShared, movable);
      if r.Some? {
        NewShape(d, old(g), r.value, Edge(Some(child), NodeParent(parent), role, childPerm, childShared, false));
      }
    }

    /** Between operations: no transaction is open and no node has conflicting parents. */
    ghost predicate Idle()
      reads this
    {
      Valid() && tran == [] && Peaceful(g)
    }

    /** bdrv_schedule_unref of a reference that a caller gives up. */
    method GiveUp(n: Node)
      requires Idle() && n in owned
      modifies this`owned, this`scheduled
      ensures Idle() && owned == old(owned) - multiset{n} && scheduled == old(scheduled) + multiset{n}
    {
      hide Wf, Peaceful;
      scheduled := scheduled + multiset{n};
      owned := owned - multiset{n};
    }

    /** tran_finalize where the transaction frees no link. */
    method Finish(ok: bool)
      requires Valid() && Freed(tran) == {}
      modifies this`g, this`refcnt, this`scheduled, this`tran
      ensures Valid() && tran == [] && g == if ok then old(g) else old(Base())
    {
      hide Wf, Undoable, Balanced;
      assert g.edges - {} == g.edges;
      TranFinalize(ok);
    }

    /** The part of bdrv_attach_child inside its transaction. */
    method AttachAndRefresh(parent: Node, child: Node, role: Role, movable: bool) returns (ok: bool, c: EdgeId)
      requires Idle() && parent in g.nodes && child in g.nodes
      requires d.hasChildPerm(parent) && CanAttach(d, g, NodeParent(parent), role)
      modifies this`g, this`refcnt, this`tran
      ensures Valid() && Base() == old(g) && Freed(tran) == {}
      ensures ok ==>
                && Peaceful(g) && !Reach(ArcsOf(old(g)), child, parent)
                && Linked(d, old(g), g, c, child, NodeParent(parent), role)
                && Refreshed(d, Joined(d, old(g), c, parent, child, role), g, [parent])
                && forall n | Reach(ArcsOf(g), parent, n) :: SettledAt(d, g, n)
      ensures ok <==> LinkAllowed(d, old(g), parent, child, role, movable)
                      && Refreshable(d, Joined(d, old(g), c, parent, child, role), [parent])
    {
      hide Wf, Undoable, Balanced, CanAttach, SlotsAgree, SettledAt, Peaceful, Refreshed, Refreshable, UsableBy;
      var r := AttachChildNoperm(parent, child, role, movable);
      if r.None? {
        return false, 0;
      }
      c := r.value;
      ghost var h := g;
      ok := ListRefreshPerms([parent]);
      if ok {
        NewShape(d, old(g), c, h.edges[c]);
        LinkCovered(h, c, [parent]);
        AttachPeaceful(d, old(g), h, g, c, [parent]);
        SameNew(d, old(g), c, h, g);
      }
    }

    /**
     bdrv_attach_child: the caller's reference to `child` is consumed either way.  It succeeds exactly if
     the link, `c`, may be made and there are permissions under which nobody below `parent` objects.
     */
    method AttachChild(parent: Node, child: Node, role: Role, movable: bool) returns (r: Option<EdgeId>, ghost c: EdgeId)
      requires Idle() && parent in g.nodes && child in g.nodes && child in owned
      requires d.hasChildPerm(parent) && CanAttach(d, g, NodeParent(parent), role)
      modifies this
      ensures Idle() && owned == old(owned) - multiset{child}
      ensures r.None? ==> g == old(g)
      ensures Reach(ArcsOf(old(g)), child, parent) ==> r.None?
      ensures r.Some? ==>
                && r.value == c && Linked(d, old(g), g, c, child, NodeParent(parent), role)
                && Refreshed(d, Joined(d, old(g), c, parent, child, role), g, [parent])
                && forall n | Reach(ArcsOf(g), parent, n) :: SettledAt(d, g, n)
      ensures r.Some? <==> LinkAllowed(d, old(g), parent, child, role, movable)
                           && Refreshable(d, Joined(d, old(g), c, parent, child, role), [parent])
    {
      hide Wf, Undoable, Balanced, CanAttach, SettledAt, Peaceful, Linked, Refreshed, Refreshable, UsableBy;
      var ok, e := AttachAndRefresh(parent, child, role, movable);
      c := e;
      Finish(ok);
      GiveUp(child);
      r := if ok then Some(e) else None;
    }

    /** bdrv_replace_node_noperm */
    method ReplaceNodeNoperm(from: Node, to: Node, autoSkip: bool) returns (ok: bool)
      requires Valid() && from in g.nodes && to in g.nodes && from != to && StaysHeld(g, R(), to)
      modifies this`g, this`refcnt, this`tran
      ensures Valid() && Base() == old(Base()) && Freed(tran) == Freed(old(tran))
      ensures ok ==> MovedAmong(old(g), g, ParentsOf(old(g), from), to)
      ensures ok <==> forall c | c in ParentsOf(old(g), from) :: Accepted(old(g), c, to, autoSkip)
    {
      hide Undoable, Balanced, SlotsAgree, InSubtree, SameSubtree;
      ghost var g0 := g;
      var todo := ParentsOf(g, from);
      SameSubtreeSelf(g, to);
      while todo != {}
        invariant Valid() && Base() == old(Base()) && Freed(tran) == Freed(old(tran))
        invariant todo <= ParentsOf(g0, from) && SameSubtree(g0, g, to)
        invariant MovedAmong(g0, g, ParentsOf(g0, from) - todo, to)
        invariant forall c | c in ParentsOf(g0, from) - todo :: Accepted(g0, c, to, autoSkip)
      {
        var c :| c in todo;
        ok := MoveParent(c, from, to, autoSkip, g0, ParentsOf(g0, from) - todo);
        if !ok {
          return false;
        }
        assert ParentsOf(g0, from) - (todo - {c}) == ParentsOf(g0, from) - todo + {c};
        todo := todo - {c};
      }
      assert ParentsOf(g0, from) - {} == ParentsOf(g0, from);
      return true;
    }

    /** The body of its loop: one parent of `from`. */
    method MoveParent(c: EdgeId, from: Node, to: Node, autoSkip: bool, ghost g0: Graph, ghost seen: set<EdgeId>)
      returns (ok: bool)
      requires Valid() && to in g.nodes && from != to && StaysHeld(g, R(), to)
      requires MovedAmong(g0, g, seen, to) && SameSubtree(g0, g, to) && c in ParentsOf(g0, from) && c !in seen
      modifies this`g, this`refcnt, this`tran
      ensures Valid() && Base() == old(Base()) && Freed(tran) == Freed(old(tran))
      ensures ok ==> MovedAmong(g0, g, seen + {c}, to) && SameSubtree(g0, g, to)
      ensures ok <==> Accepted(g0, c, to, autoSkip)
    {
      assert Wf(d, g);
      hide Undoable, Balanced, SlotsAgree, InSubtree, SameSubtree;
      SubtreeMembers(g0, g, to, c);
      var should := ShouldUpdateChild(g, c, to);
      if !should {
        return autoSkip;
      }
      if g.edges[c].frozen {
        return false;
      }
      MoveOne(g0, g, seen, c, to);
      MoveIsAcyclic(g, c, to);
      ReplaceUndone(d, g, c, Some(to));
      ReplaceChildTran(c, Some(to));
      return true;
    }

    /** bdrv_replace_node_common without detach_subchain: all parents of `from` that may, switch to `to`. */
    method ReplaceNode(from: Node, to: Node, autoSkip: bool) returns (ok: bool)
      requires Idle() && from in g.nodes && to in g.nodes && from != to && StaysHeld(g, R(), to)
      modifies this`g, this`refcnt, this`scheduled, this`tran
      ensures Idle()
      ensures !ok ==> g == old(g)
      ensures ok ==>
                && SameLinks(MoveAll(old(g), ParentsOf(old(g), from), to), g)
                && (forall c | c in ParentsOf(old(g), from) :: Accepted(old(g), c, to, autoSkip))
                && (forall n | Reach(ArcsOf(g), from, n) || Reach(ArcsOf(g), to, n) :: SettledAt(d, g, n))
                && Refreshed(d, MoveAll(old(g), ParentsOf(old(g), from), to), g, [from, to])
      ensures ok <==> (forall c | c in ParentsOf(old(g), from) :: Accepted(old(g), c, to, autoSkip))
                      && Refreshable(d, MoveAll(old(g), ParentsOf(old(g), from), to), [from, to])
    {
      hide Wf, Undoable, Balanced, SettledAt, Peaceful, MayMove, Refreshed, Refreshable;
      ok := ReplaceNodeNoperm(from, to, autoSkip);
      ghost var h := g;
      if ok {
        ok := ListRefreshPerms([from, to]);
        MovedIsMoveAll(old(g), h, ParentsOf(old(g), from), to);
        if ok { MovePeaceful(d, old(g), h, g, ParentsOf(old(g), from), to, [from, to]); }
      }
      Finish(ok);
      assert ok ==> from in [from, to] && to in [from, to];
    }

    /** The part of bdrv_replace_node_common with detach_subchain inside its transaction. */
    method ReplaceAndDetach(from: Node, to: Node, autoSkip: bool, c: EdgeId) returns (ok: bool)
      requires Idle() && from in g.nodes && to in g.nodes && from != to
      requires c in g.edges && g.edges[c].bs == Some(to) && !g.edges[c].frozen
      modifies this`g, this`refcnt, this`tran
      ensures Valid() && Base() == old(g)
      ensures ok ==>
                && Peaceful(g) && Freed(tran) == {c}
                && SameLinks(ReplaceNoperm(d, MoveAll(old(g), ParentsOf(old(g), from), to), c, None), g)
                && (forall e | e in ParentsOf(old(g), from) :: Accepted(old(g), e, to, autoSkip))
                && (forall r, n | r in [from, to] && Reach(ArcsOf(g), r, n) :: SettledAt(d, g, n))
                && Refreshed(d, ReplaceNoperm(d, MoveAll(old(g), ParentsOf(old(g), from), to), c, None), g, [from, to])
      ensures ok <==> (forall e | e in ParentsOf(old(g), from) :: Accepted(old(g), e, to, autoSkip))
                      && Refreshable(d, ReplaceNoperm(d, MoveAll(old(g), ParentsOf(old(g), from), to), c, None), [from, to])
    {
      hide Wf, Undoable, Balanced, SettledAt, Peaceful, MayMove, Accepted, ReplaceNoperm, StaysHeld, MovedAmong, MoveAll,
           Refreshed, Refreshable, SlotsAgree, Good, ChangedBelowAny, SameLinks, ArcsOf, Applicable, Undo, Committable;
      HeldByLink(g, R(), c, to);
      ok := ReplaceNodeNoperm(from, to, autoSkip);
      if !ok {
        return;
      }
      ghost var h := g;
      MovedKeepsLink(old(g), h, from, to, c);
      MovedIsMoveAll(old(g), h, ParentsOf(old(g), from), to);
      SlotsOfValid();
      ReplaceUndone(d, h, c, None);
      RemoveChildTran(c);
      ghost var h2 := g;
      ok := ListRefreshPerms([from, to]);
      BelowAnySame(h2, g, [from, to]);
      if ok { DetachPeaceful(d, old(g), h, h2, g, ParentsOf(old(g), from), to, c, [from, to]); }
    }

    /**
     bdrv_replace_node_common with detach_subchain: the parents of `from` that may, switch to `to`, a node
     further down the chain, and the link by which the chain reached `to` goes.
     */
    method ReplaceNodeDetaching(from: Node, to: Node, autoSkip: bool) returns (ok: bool, ghost c: EdgeId)
      requires Idle() && from in g.nodes && to in g.nodes && from != to && Reach(ChainArcs(d, g), from, to)
      requires forall p, k | Reach(ChainArcs(d, g), from, p) && ChainLink(d, g, p, k) && g.edges[k].bs == Some(to) ::
                 !g.edges[k].frozen
      modifies this`g, this`refcnt, this`scheduled, this`tran
      ensures Idle()
      ensures c in old(g).edges && old(g).edges[c].bs == Some(to) && old(g).edges[c].parent.NodeParent?
      ensures var p := old(g).edges[c].parent.node;
              ChainLink(d, old(g), p, c) && Reach(ChainArcs(d, old(g)), from, p)
      ensures !ok ==> g == old(g)
      ensures ok ==>
                && SameLinks(Drop(ReplaceNoperm(d, MoveAll(old(g), ParentsOf(old(g), from), to), c, None), c), g)
                && (forall e | e in ParentsOf(old(g), from) :: Accepted(old(g), e, to, autoSkip))
                && (forall r, n | r in [from, to] && Reach(ArcsOf(g), r, n) :: SettledAt(d, g, n))
      ensures ok <==> (forall e | e in ParentsOf(old(g), from) :: Accepted(old(g), e, to, autoSkip))
                      && Refreshable(d, ReplaceNoperm(d, MoveAll(old(g), ParentsOf(old(g), from), to), c, None), [from, to])
    {
      hide Wf, Undoable, Balanced, SettledAt, Peaceful, MayMove, Accepted, ReplaceNoperm, ChainLink, ChainArcs, SlotsAgree,
           Refreshed, Refreshable,
           Acyclic, ArcsOf, MoveAll, SameLinks, Good;
      LinksOfValid();
      SlotsOfValid();
      var link := CowParent(d, g, from, to);
      c := link;
      ok := ReplaceAndDetach(from, to, autoSkip, link);
      SlotsOfValid();
      MoveAllKeys(old(g), ParentsOf(old(g), from), to);
      ghost var h := ReplaceNoperm(d, MoveAll(old(g), ParentsOf(old(g), from), to), c, None);
      if ok { DetachFreed(d, h, g, tran, c, [from, to]); }
      TranFinalize(ok);
    }

    /** bdrv_drop_filter: a node hands its parents to the child it stands on, and lets go of that child. */
    method DropFilter(bs: Node) returns (ok: bool)
      requires Idle() && bs in g.nodes
      requires FilterOrCow(d, g, bs).Some? && FilterOrCow(d, g, bs).value in g.edges && !g.edges[FilterOrCow(d, g, bs).value].frozen
      modifies this`g, this`refcnt, this`scheduled, this`tran
      ensures Idle()
      ensures !ok ==> g == old(g)
      ensures ok ==> (var c := FilterOrCow(d, old(g), bs).value;
                      && old(g).edges[c].bs.Some?
                      && var to := old(g).edges[c].bs.value;
                      && SameLinks(Drop(ReplaceNoperm(d, MoveAll(old(g), ParentsOf(old(g), bs), to), c, None), c), g)
                      && (forall r, n | r in [bs, to] && Reach(ArcsOf(g), r, n) :: SettledAt(d, g, n)))
      ensures var c := FilterOrCow(d, old(g), bs).value;
              && old(g).edges[c].bs.Some?
              && var to := old(g).edges[c].bs.value;
              (ok <==> (forall e | e in ParentsOf(old(g), bs) :: Accepted(old(g), e, to, true))
                       && Refreshable(d, ReplaceNoperm(d, MoveAll(old(g), ParentsOf(old(g), bs), to), c, None), [bs, to]))
    {
      LinksOfValid();
      SlotsOfValid();
      var c := FilterOrCow(d, g, bs).value;
      FirstOfChain(d, g, bs, c);
      hide Wf, Undoable, Balanced, Good, SlotsAgree, Acyclic, SettledAt, Peaceful, ReplaceNoperm, ChainArcs, ArcsOf, Refreshable,
           Accepted, MoveAll;
      ghost var k;
      ok, k := ReplaceNodeDetaching(bs, g.edges[c].bs.value, true);
    }

    /** The part of bdrv_append inside its transaction. */
    method AppendInTran(bsNew: Node, bsTop: Node, movable: bool) returns (ok: bool, c: EdgeId)
      requires Idle() && bsNew in g.nodes && bsTop in g.nodes && bsNew in owned
      requires d.hasChildPerm(bsNew) && CanAttach(d, g, NodeParent(bsNew), BackingRole(d, bsNew))
      modifies this`g, this`refcnt, this`tran
      ensures Valid() && Base() == old(g) && Freed(tran) == {}
      ensures ok ==>
                && Peaceful(g) && !Reach(ArcsOf(old(g)), bsTop, bsNew)
                && Appended(d, old(g), g, c, bsNew, bsTop) && Refreshed(d, OnTop(d, old(g), c, bsNew, bsTop), g, [bsNew])
                && (forall n | Reach(ArcsOf(g), bsNew, n) :: SettledAt(d, g, n))
      ensures ok <==> AppendAllowed(d, old(g), c, bsNew, bsTop, movable)
                      && Refreshable(d, OnTop(d, old(g), c, bsNew, bsTop), [bsNew])
    {
      hide Wf, Undoable, Balanced, CanAttach, SettledAt, Peaceful, MayMove, SlotsAgree, Refreshed, Refreshable, UsableBy;
      var r := AttachChildNoperm(bsNew, bsTop, BackingRole(d, bsNew), movable);
      if r.None? {
        return false, 0;
      }
      c := r.value;
      ghost var h1 := g;
      NewShape(d, old(g), c, h1.edges[c]);
      ReachSelf(ArcsOf(old(g)), bsTop);
      ok := ReplaceNodeNoperm(bsTop, bsNew, true);
      if !ok {
        return;
      }
      ghost var h2 := g;
      MovedIsMoveAll(h1, h2, ParentsOf(h1, bsTop), bsNew);
      ok := ListRefreshPerms([bsNew]);
      if ok { AppendPeaceful(d, old(g), h1, h2, g, c, ParentsOf(h1, bsTop), bsNew); }
    }

    /** bdrv_append; `c` is the link from the new node to the one below it. */
    method Append(bsNew: Node, bsTop: Node, movable: bool) returns (ok: bool, ghost c: EdgeId)
      requires Idle() && bsNew in g.nodes && bsTop in g.nodes && bsNew in owned
      requires d.hasChildPerm(bsNew) && CanAttach(d, g, NodeParent(bsNew), BackingRole(d, bsNew))
      modifies this`g, this`refcnt, this`scheduled, this`tran
      ensures Idle()
      ensures !ok ==> g == old(g)
      ensures Reach(ArcsOf(old(g)), bsTop, bsNew) ==> !ok
      ensures ok ==>
                && Appended(d, old(g), g, c, bsNew, bsTop) && Refreshed(d, OnTop(d, old(g), c, bsNew, bsTop), g, [bsNew])
                && (forall n | Reach(ArcsOf(g), bsNew, n) :: SettledAt(d, g, n))
      ensures ok <==> AppendAllowed(d, old(g), c, bsNew, bsTop, movable)
                      && Refreshable(d, OnTop(d, old(g), c, bsNew, bsTop), [bsNew])
    {
      hide Wf, Undoable, Balanced, CanAttach, SettledAt, Peaceful, Appended, Refreshed, Refreshable, UsableBy, OnTop;
      var e;
      ok, e := AppendInTran(bsNew, bsTop, movable);
      c := e;
      Finish(ok);
    }

    /** bdrv_root_attach_child: a job or a backend takes over the caller's reference. */
    method RootAttachChild(child: Node, parent: Parent, role: Role, perm: Perms, shared: Perms, movable: bool)
      returns (r: Option<EdgeId>, ghost c: EdgeId)
      requires Idle() && child in g.nodes && child in owned && !parent.NodeParent?
      modifies this
      ensures Idle() && owned == old(owned) - multiset{child}
      ensures r.None? ==> g == old(g)
      ensures r.Some? ==>
                && r.value == c && Linked(d, old(g), g, r.value, child, parent, role)
                && Refreshed(d, AttachNew(d, old(g), c, Edge(Some(child), parent, role, perm, shared, false)), g, [child])
                && g.edges[r.value].perm == perm && g.edges[r.value].shared == shared
                && (forall n | Reach(ArcsOf(g), child, n) :: SettledAt(d, g, n))
      ensures r.Some? <==>
                && movable && UsableBy(d, child, perm)
                && Refreshable(d, AttachNew(d, old(g), c, Edge(Some(child), parent, role, perm, shared, false)), [child])
    {
      hide Wf, Undoable, Balanced, SlotsAgree, SettledAt, Peaceful, Refreshed, Refreshable, UsableBy;
      r := AttachChildCommon(child, parent, role, perm, shared, movable);
      var ok := r.Some?;
      c := 0;
      if ok {
        ghost var h := g;
        c := r.value;
        NewShape(d, old(g), c, Edge(Some(child), parent, role, perm, shared, false));
        ok := ListRefreshPerms([child]);
        if ok {
          LinkCovered(h, c, [child]);
          AttachPeaceful(d, old(g), h, g, c, [child]);
          SameNew(d, old(g), c, h, g);
        }
      }
      Finish(ok);
      GiveUp(child);
      r := if ok then r else None;
    }

    /** The part of bdrv_child_try_set_perm inside its transaction. */
    method SetPermAndRefresh(c: EdgeId, perm: Perms, shared: Perms) returns (ok: bool)
      requires Idle() && c in g.edges && g.edges[c].bs.Some?
      modifies this`g, this`tran
      ensures Valid() && Base() == old(g) && Freed(tran) == {}
      ensures ok ==>
                && Peaceful(g) && SameLinks(old(g), g) && g.edges[c].perm == perm && g.edges[c].shared == shared
                && (forall n | Reach(ArcsOf(g), g.edges[c].bs.value, n) :: SettledAt(d, g, n))
                && Refreshed(d, PutPerm(old(g), c, perm, shared), g, [old(g).edges[c].bs.value])
      ensures ok <==> Refreshable(d, PutPerm(old(g), c, perm, shared), [old(g).edges[c].bs.value])
    {
      assert Wf(d, g);
      hide Wf, Undoable, Balanced, SlotsAgree, SettledAt, Peaceful, SameLinks, ChangedBelowAny, Refreshed, Refreshable;
      ghost var g0 := g;
      PutPermSame(g, c, perm, shared);
      SetPermTran(c, perm, shared);
      ghost var h := g;
      ok := ListRefreshPerms([g.edges[c].bs.value]);
      if ok {
        NotOwnParent(g0, h, g, c);
        PermPeaceful(d, g0, h, g, c);
      }
    }

    /** bdrv_child_try_set_perm: `applied` says whether the permissions were taken; a failure to
        loosen them is not reported. */
    method ChildTrySetPerm(c: EdgeId, perm: Perms, shared: Perms) returns (success: bool, applied: bool)
      requires Idle() && c in g.edges && g.edges[c].bs.Some?
      modifies this`g, this`refcnt, this`scheduled, this`tran
      ensures Idle()
      ensures !applied ==> g == old(g)
      ensures applied ==>
                && SameLinks(old(g), g) && g.edges[c].perm == perm && g.edges[c].shared == shared
                && (forall n | Reach(ArcsOf(g), g.edges[c].bs.value, n) :: SettledAt(d, g, n))
                && Refreshed(d, PutPerm(old(g), c, perm, shared), g, [old(g).edges[c].bs.value])
      ensures applied <==> Refreshable(d, PutPerm(old(g), c, perm, shared), [old(g).edges[c].bs.value])
      ensures success <==> applied || (perm <= old(g).edges[c].perm && old(g).edges[c].shared <= shared)
    {
      hide Wf, Undoable, Balanced, SettledAt, Peaceful, SameLinks, Refreshed, Refreshable;
      Within(perm, g.edges[c].perm);
      Within(g.edges[c].shared, shared);
      applied := SetPermAndRefresh(c, perm, shared);
      Finish(applied);
      success := applied || !(perm - g.edges[c].perm != {} || g.edges[c].shared - shared != {});
    }

    /** bdrv_set_inherits_from */
    method SetInheritsTran(n: Node, from: Option<Node>)
      requires Valid() && n in g.nodes
      requires from.Some? ==> from.value in g.nodes && !Reach(InheritArcs(PutInherits(g, n, None)), from.value, n)
      modifies this`g, this`tran
      ensures Valid() && Base() == old(Base()) && Freed(tran) == Freed(old(tran))
      ensures g == PutInherits(old(g), n, from)
    {
      hide Wf, Undoable, Balanced;
      var a := InheritsSet(n, InheritsOf(g, n));
      InheritsContinues(d, g, tran, R(), n, from);
      FreedAppend(tran, a);
      tran := tran + [a];
      g := PutInherits(g, n, from);
    }

    /** Clear one pointer to `root`, unless another link still joins `root` to the same node. */
    method ClearInherits(root: Node, c: EdgeId)
      requires Valid() && c in g.edges && g.edges[c].bs.Some? && g.edges[c].bs.value in g.nodes
      modifies this`g, this`tran
      ensures Valid() && Base() == old(Base()) && Freed(tran) == Freed(old(tran))
      ensures g == Unset(old(g), root, {c})
    {
      UnsetOne(g, root, c);
      hide Wf, Undoable, Balanced, Unset;
      var n := g.edges[c].bs.value;
      if InheritsOf(g, n) == Some(root)
         && !(exists c2 :: c2 in ChildrenOf(g, root) && c2 != c && g.edges[c2].bs == Some(n)) {
        SetInheritsTran(n, None);
      }
    }

    /**
     bdrv_unset_inherits_from: of the nodes below the link `c`, exactly those lose inherits_from that
     name `root` and to which a visited link is the last from `root`.
     */
    method UnsetInheritsFrom(root: Node, c: EdgeId)
      requires Valid() && c in g.edges && g.edges[c].bs.Some?
      modifies this`g, this`tran
      ensures Valid() && Base() == old(Base()) && Freed(tran) == Freed(old(tran))
      ensures g == Unset(old(g), root, Walk(old(g), c))
      decreases Below(ArcsOf(g), g.nodes, g.edges[c].bs.value)
    {
      hide Wf, Undoable, Balanced, Good, SlotsAgree, Below, Unset, Walk, WalkAll, Abort, Acyclic, ArcsOf;
      LinksOfValid();
      ghost var g0 := g;
      var n := g.edges[c].bs.value;
      var todo := ChildrenOf(g, n);
      ClearInherits(root, c);
      ghost var seen: set<EdgeId> := {};
      WalkNone(g0);
      assert {c} + {} == {c};
      while todo != {}
        invariant Valid() && Base() == old(Base()) && Freed(tran) == Freed(old(tran))
        invariant todo <= ChildrenOf(g0, n) && seen == ChildrenOf(g0, n) - todo
        invariant g == Unset(g0, root, {c} + WalkAll(g0, seen))
      {
        var k :| k in todo;
        UnsetFrame(g0, root, {c} + WalkAll(g0, seen), n, k);
        UnsetInheritsFrom(root, k);
        UnsetMore(g0, root, c, seen, k);
        todo := todo - {k};
        seen := seen + {k};
      }
      assert seen == ChildrenOf(g0, n);
      WalkUnfold(g0, c);
    }

    /** bdrv_inherits_from_recursive */
    method InheritsFromRecursive(child: Option<Node>, parent: Node) returns (r: bool)
      requires Valid() && (child.Some? ==> child.value in g.nodes)
      ensures r <==> child.Some? && Reach(InheritArcs(g), child.value, parent)
    {
      assert Wf(d, g);
      var cur := child;
      while cur.Some? && cur.value != parent
        invariant cur.Some? ==> cur.value in g.nodes
        invariant (child.Some? && Reach(InheritArcs(g), child.value, parent))
                  <==> (cur.Some? && Reach(InheritArcs(g), cur.value, parent))
        decreases cur.Some?, if cur.Some? then Below(InheritArcs(g), g.nodes, cur.value) else {}
      {
        InheritStep(g, cur.value, parent);
        cur := InheritsOf(g, cur.value);
      }
      if cur.Some? { ReachSelf(InheritArcs(g), parent); }
      return cur.Some?;
    }

    /** The removal of the present child in bdrv_set_file_or_backing_noperm. */
    method VacateSlot(p: Node, k: Slot)
      requires Valid() && ((p, k) in g.slots ==> g.slots[(p, k)] in g.edges && !g.edges[g.slots[(p, k)]].frozen)
      modifies this`g, this`refcnt, this`tran
      ensures Valid() && Base() == old(Base()) && Vacated(old(g), g, p, k)
      ensures InheritArcs(g) <= InheritArcs(old(g))
      ensures Freed(tran) == Freed(old(tran)) + if (p, k) in old(g).slots then {old(g).slots[(p, k)]} else {}
    {
      hide Good, Wf, Abort, SlotsAgree, Unset, Walk;
      SlotsOfValid();
      if (p, k) !in g.slots {
        assert g.slots - {(p, k)} == g.slots;
        return;
      }
      var c := g.slots[(p, k)];
      SlotHolds(d, g, p, k);
      UnsetInheritsFrom(p, c);
      UnsetClears(old(g), p, Walk(old(g), c));
      ClearedArcs(old(g), g, p);
      SlotsOfValid();
      RemoveVacates(d, old(g), g, p, k);
      RemoveChildTran(c);
    }

    lemma LinksOfValid()
      requires Valid()
      ensures Closed(g) && Acyclic(ArcsOf(g))
    {
      SlotsOfValid();
      hide Undoable, Balanced, Good;
    }

    lemma SlotsOfValid()
      requires Valid()
      ensures Wf(d, g) && SlotsAgree(d, g) && Committable(g, tran)
    {}

    /** The role of the new child in bdrv_set_file_or_backing_noperm, or None where it refuses. */
    method RoleForSlot(p: Node, k: Slot) returns (role: Option<Role>)
      requires Valid() && (d.hasDriver(p) && d.isFilter(p) ==> (k == BackingSlot <==> d.filteredIsBacking(p)))
      ensures role.Some? <==> SlotMayChange(d, g, p, k)
      ensures role.Some? ==>
                && role.value == NewRole(d, g, p, k)
                && RoleOk(d, p, role.value) && SlotOf(d, p, role.value) == Some(k) && d.hasChildPerm(p)
                && ((p, k) in g.slots ==> g.slots[(p, k)] in g.edges && !g.edges[g.slots[(p, k)]].frozen)
    {
      SlotsOfValid();
      hide Undoable, Balanced;
      if !d.hasDriver(p) {
        return None;
      }
      if (p, k) in g.slots && g.edges[g.slots[(p, k)]].frozen {
        return None;
      }
      if k == BackingSlot && !d.isFilter(p) && !d.supportsBacking(p) {
        return None;
      }
      if d.isFilter(p) {
        return Some(Role(false, false, true, false, true));
      } else if k == BackingSlot {
        return Some(Role(false, false, false, true, false));
      } else if (p, k) !in g.slots {
        return None;
      } else {
        return Some(g.edges[g.slots[(p, k)]].role);
      }
    }

    /** The second half of bdrv_set_file_or_backing_noperm: attach the new child and pass on inherits_from. */
    method FillSlot(p: Node, child: Node, k: Slot, role: Role, inherit: bool, movable: bool, ghost g0: Graph) returns (ok: bool)
      requires Valid() && SlotsAgree(d, g0) && Vacated(g0, g, p, k) && p in g0.nodes && child in g0.nodes
      requires RoleOk(d, p, role) && SlotOf(d, p, role) == Some(k) && d.hasChildPerm(p)
      requires Acyclic(InheritArcs(g0)) && InheritArcs(g) <= InheritArcs(g0)
      requires inherit <==> Reach(InheritArcs(g0), child, p)
      modifies this`g, this`refcnt, this`tran
      ensures Valid() && Base() == old(Base()) && Freed(tran) == Freed(old(tran))
      ensures ok ==> Swapped(d, g0, g, p, k, Some(child)) && NewChild(g, p, k, Some(child), role)
      ensures ok <==> LinkAllowed(d, old(g), p, child, role, movable)
    {
      assert p in g.nodes && child in g.nodes && (p, k) !in g.slots;
      hide Good, Wf, Abort, SlotsAgree, CanAttach, RoleOk, Vacated, Swapped, Relinked, AttachNew, Acyclic, InheritsWith,
           LinkAllowed, NewChild, HasMasks, InheritArcs, ArcsOf;
      SlotsOfValid();
      VacantFits(d, g, p, k, role);
      var r := AttachChildNoperm(p, child, role, movable);
      if r.None? {
        return false;
      }
      AttachedRole(d, g0, old(g), g, p, k, r.value);
      AttachedSwapped(d, g0, old(g), g, p, k, r.value);
      ReachSelf(ArcsOf(old(g)), p);
      SwappedNodes(d, g0, g, p, k, Some(child));
      ghost var g2 := g;
      if inherit {
        ShortcutInherits(g0, old(g), g, child, p);
        SetInheritsTran(child, Some(p));
      }
      SwappedInherits(d, g0, g2, g, p, k, Some(child));
      IsNewChild(g, p, k, child, r.value);
      return true;
    }

    /** bdrv_set_file_or_backing_noperm; for filters, `k` must be the slot their driver uses. */
    method SetFileOrBackingNoperm(p: Node, child: Option<Node>, k: Slot, movable: bool) returns (ok: bool)
      requires Valid() && p in g.nodes && (child.Some? ==> child.value in g.nodes)
      requires d.hasDriver(p) && d.isFilter(p) ==> (k == BackingSlot <==> d.filteredIsBacking(p))
      modifies this`g, this`refcnt, this`tran
      ensures Valid() && Base() == old(Base())
      ensures ok ==> Swapped(d, old(g), g, p, k, child) && NewChild(g, p, k, child, NewRole(d, old(g), p, k))
      ensures ok <==> SwapAllowed(d, old(g), p, k, child, movable)
      ensures ok && child.Some? ==> (InheritsOf(g, child.value) == Some(p) <==> Reach(InheritArcs(old(g)), child.value, p))
      ensures ok ==>
                Freed(tran) == Freed(old(tran)) + if (p, k) in old(g).slots then {old(g).slots[(p, k)]} else {}
    {
      assert Acyclic(InheritArcs(g));
      hide Good, Wf, Abort, SlotsAgree, RoleOk, Vacated, Swapped, Acyclic, LinkAllowed, NewRole, SwapAllowed,
           SlotMayChange, NewChild;
      SwapNeedsSlot(d, g, p, k, child, movable);
      SlotsOfValid();
      var updateInherits := InheritsFromRecursive(child, p);
      var role := RoleForSlot(p, k);
      if role.None? {
        return false;
      }
      VacateSlot(p, k);
      if child.None? {
        VacatedSwapped(d, old(g), g, p, k);
        NoNewChild(g, p, k, role.value);
        return true;
      }
      SwapAllowedIs(d, old(g), g, p, k, child.value, movable);
      ok := FillSlot(p, child.value, k, role.value, updateInherits, movable, old(g));
      if ok {
        InheritsPassedOn(old(g), p, k, child.value);
        SwappedParts(d, old(g), g, p, k, child);
      }
    }

    /** The part of bdrv_set_backing_hd_drained inside its transaction. */
    method SwapBacking(bs: Node, backing: Option<Node>, movable: bool) returns (ok: bool, ghost h: Graph)
      requires Idle() && bs in g.nodes && (backing.Some? ==> backing.value in g.nodes)
      requires d.hasDriver(bs) && d.isFilter(bs) ==> d.filteredIsBacking(bs)
      modifies this`g, this`refcnt, this`tran
      ensures Valid() && Base() == old(g)
      ensures ok ==>
                && Peaceful(g) && Freed(tran) == OldBacking(old(g), bs)
                && SameLinks(h, g) && Refreshed(d, h, g, [bs])
                && (forall n | Reach(ArcsOf(g), bs, n) :: SettledAt(d, g, n))
      ensures SwapAllowed(d, old(g), bs, BackingSlot, backing, movable) ==>
                && Swapped(d, old(g), h, bs, BackingSlot, backing)
                && NewChild(h, bs, BackingSlot, backing, NewRole(d, old(g), bs, BackingSlot))
      ensures ok <==> SwapAllowed(d, old(g), bs, BackingSlot, backing, movable) && Refreshable(d, h, [bs])
    {
      hide Wf, Undoable, Balanced, SettledAt, Peaceful, Swapped, SwapAllowed, Refreshed, Refreshable, NewRole;
      ok := SetFileOrBackingNoperm(bs, backing, BackingSlot, movable);
      h := g;
      if !ok {
        return;
      }
      SwappedParts(d, old(g), g, bs, BackingSlot, backing);
      SwappedNodes(d, old(g), g, bs, BackingSlot, backing);
      ok := ListRefreshPerms([bs]);
      if ok { SwapPeaceful(d, old(g), h, g, bs, BackingSlot, backing); }
    }

    /** bdrv_set_backing_hd_drained; `h` is the graph with the new backing child, before permissions are refreshed. */
    method SetBackingHd(bs: Node, backing: Option<Node>, movable: bool) returns (ok: bool, ghost h: Graph)
      requires Idle() && bs in g.nodes && (backing.Some? ==> backing.value in g.nodes)
      requires d.hasDriver(bs) && d.isFilter(bs) ==> d.filteredIsBacking(bs)
      modifies this`g, this`refcnt, this`scheduled, this`tran
      ensures Idle()
      ensures !ok ==> g == old(g)
      ensures ok ==>
                && SameLinks(h.(edges := h.edges - OldBacking(old(g), bs)), g)
                && (forall n | Reach(ArcsOf(g), bs, n) :: SettledAt(d, g, n))
      ensures SwapAllowed(d, old(g), bs, BackingSlot, backing, movable) ==>
                && Swapped(d, old(g), h, bs, BackingSlot, backing)
                && NewChild(h, bs, BackingSlot, backing, NewRole(d, old(g), bs, BackingSlot))
      ensures ok <==> SwapAllowed(d, old(g), bs, BackingSlot, backing, movable) && Refreshable(d, h, [bs])
    {
      hide Wf, Undoable, Balanced, Swapped, SwapAllowed, Refreshed, Refreshable, NewRole;
      ok, h := SwapBacking(bs, backing, movable);
      SlotsOfValid();
      if ok { SwapFreed(d, old(g), h, g, tran, bs, backing); }
      TranFinalize(ok);
    }

    /** bdrv_root_unref_child; the node's permissions are loosened, and a failure of that is ignored. */
    method RootUnrefChild(c: EdgeId)
      requires Idle() && c in g.edges && !g.edges[c].frozen && g.edges[c].bs.Some?
      modifies this`g, this`refcnt, this`scheduled, this`tran
      ensures Idle() && SameLinks(Drop(ReplaceNoperm(d, old(g), c, None), c), g)
      ensures Loosened(d, Drop(ReplaceNoperm(d, old(g), c, None), c), g, old(g).edges[c].bs.value)
    {
      hide Wf, Undoable, Balanced, Peaceful, SlotsAgree, Refreshed, Refreshable;
      var bs := g.edges[c].bs.value;
      UnrefGood(d, g, R(), c);
      g := Drop(ReplaceNoperm(d, g, c, None), c);
      scheduled := scheduled + multiset{bs};
      ghost var h := g;
      var ok := ListRefreshPerms([bs]);
      if ok { RefreshPeaceful(d, h, g, [bs]); }
      Finish(ok);
    }

    /** bdrv_unref_child; without a transaction the inherits_from changes stay. */
    method UnrefChild(parent: Node, c: EdgeId)
      requires Idle() && c in g.edges && !g.edges[c].frozen && g.edges[c].bs.Some?
      modifies this`g, this`refcnt, this`scheduled, this`tran
      ensures Idle() && FewerLinks(old(g), g, {c})
      ensures SameLinks(Drop(ReplaceNoperm(d, Unset(old(g), parent, Walk(old(g), c)), c, None), c), g)
      ensures Loosened(d, Drop(ReplaceNoperm(d, Unset(old(g), parent, Walk(old(g), c)), c, None), c), g, old(g).edges[c].bs.value)
    {
      hide Wf, Undoable, Balanced, Peaceful, SlotsAgree, SameLinks, Unset, Walk, Loosened;
      UnsetInheritsFrom(parent, c);
      UnsetClears(old(g), parent, Walk(old(g), c));
      ClearedPeaceful(old(g), g, parent);
      Finish(true);
      ghost var h := g;
      RootUnrefChild(c);
      FewerAfterUnref(d, old(g), h, g, c);
    }

    /** bdrv_close: all links to the children go. */
    method Close(n: Node)
      requires Idle() && ParentsOf(g, n) == {} && forall c | c in ChildrenOf(g, n) :: !g.edges[c].frozen
      modifies this`g, this`refcnt, this`scheduled, this`tran
      ensures Idle() && ParentsOf(g, n) == {} && ChildrenOf(g, n) == {}
      ensures (n, BackingSlot) !in g.slots && (n, FileSlot) !in g.slots
      ensures FewerLinks(old(g), g, ChildrenOf(old(g), n))
    {
      hide Good, Wf, Undoable, Balanced, Peaceful, Loosened, FewerLinks, SlotsAgree, SameLinks, Unset, Walk, Drop, ReplaceNoperm;
      ghost var g0 := g;
      var todo := ChildrenOf(g, n);
      FewerNone(g, todo);
      while todo != {}
        invariant Idle() && ParentsOf(g, n) == {} && todo == ChildrenOf(g, n)
        invariant forall c | c in todo :: !g.edges[c].frozen
        invariant todo <= ChildrenOf(g0, n) && FewerLinks(g0, g, ChildrenOf(g0, n) - todo)
      {
        var c :| c in todo;
        ghost var h := g;
        UnrefChild(n, c);
        FewerLists(h, g, c, n);
        FewerMore(g0, h, g, ChildrenOf(g0, n) - todo, c);
        assert ChildrenOf(g0, n) - (todo - {c}) == ChildrenOf(g0, n) - todo + {c};
        todo := todo - {c};
      }
      assert ChildrenOf(g0, n) - {} == ChildrenOf(g0, n);
      SlotsOfValid();
      NoSlotsLeft(d, g, n);
    }

    /** The bottom half of bdrv_schedule_unref: bdrv_unref, and bdrv_delete once the count is zero. */
    method UnrefBh(n: Node) returns (deleted: bool)
      requires Idle() && n in scheduled && n in g.nodes
      requires forall c | c in ChildrenOf(g, n) :: !g.edges[c].frozen
      modifies this`g, this`refcnt, this`scheduled, this`tran
      ensures Idle()
      ensures deleted <==> ParentsOf(old(g), n) == {} && n !in owned && old(scheduled)[n] == 1
      ensures deleted ==> ParentsOf(g, n) == {} && ChildrenOf(g, n) == {}
                          && (n, BackingSlot) !in g.slots && (n, FileSlot) !in g.slots
                          && FewerLinks(old(g), g, ChildrenOf(old(g), n))
      ensures !deleted ==> g == old(g)
    {
      assert Saved([]) == multiset{};
      UnrefCounts(g, R(), n);
      hide Wf, Undoable, Balanced, Peaceful;
      scheduled := scheduled - multiset{n};
      refcnt := refcnt[n := refcnt[n] - 1];
      deleted := refcnt[n] == 0;
      if deleted {
        Close(n);
      }
    }
  }
}
