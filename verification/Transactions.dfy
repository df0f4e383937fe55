/**
 The graph edits of qemu/block.c that are recorded in a Transaction, and their undoing.
 util/transactions.c keeps the records in a list that grows at its head and replays it from the
 head on, so the newest record is undone first.
 */
module Transactions {

  import opened Wrappers
  import opened Digraph
  import opened BlockGraph

  /** What the block drivers and node options contribute; all of it is left open. */
  datatype Drivers = Drivers(
    hasDriver: Node -> bool,
    isFilter: Node -> bool,
    supportsBacking: Node -> bool,
    filteredIsBacking: Node -> bool,
    hasChildPerm: Node -> bool,
    childPerm: (Node, Option<EdgeId>, Role, Perms, Perms) -> (Perms, Perms),
    forceShare: Node -> bool,
    accepts: (Node, Perms, Perms) -> bool,
    writable: Node -> bool,
    aligned: Node -> bool,
    inactive: Node -> bool)

  /** A record in the transaction; the comment names the C state it stands for. */
  datatype Action =
    | PermSet(c: EdgeId, oldPerm: Perms, oldShared: Perms)    // BdrvChildSetPermState
    | DriverPermSet(n: Node)                                     // bdrv_drv_set_perm_drv
    | ChildReplaced(c: EdgeId, oldBs: Option<Node>)            // BdrvReplaceChildState
    | ChildAttached(c: EdgeId)                                  // BdrvAttachChildCommonState
    | ChildRemoved(c: EdgeId)                                  // bdrv_remove_child_drv
    | InheritsSet(n: Node, oldFrom: Option<Node>)             // BdrvSetInheritsFrom

  // ---------------------------------------------------------------------------------------
  // Slots

  /** Which slot of its parent a child goes into (bdrv_child_cb_attach). */
  function SlotOf(d: Drivers, p: Node, role: Role): Option<Slot> {
    if d.isFilter(p) || role.filtered then
      if !role.primary then None else if d.filteredIsBacking(p) then Some(BackingSlot) else Some(FileSlot)
    else if role.cow then Some(BackingSlot)
    else if role.primary then Some(FileSlot)
    else None
  }

  /** The role assertions of bdrv_child_cb_attach, and that filters neither support backing files
      nor have COW children, which its comment states. */
  predicate RoleOk(d: Drivers, p: Node, role: Role) {
    if d.isFilter(p) || role.filtered then
      && !role.cow && role.primary == role.filtered && !d.supportsBacking(p)
      && (!d.isFilter(p) ==> !d.filteredIsBacking(p))
    else
      role.cow ==> d.supportsBacking(p) && !role.primary
  }

  /** The slot assertions of bdrv_child_cb_attach: what must be empty before the child comes. */
  predicate SlotFree(d: Drivers, g: Graph, p: Node, role: Role) {
    match SlotOf(d, p, role)
    case None => true
    case Some(k) =>
      (p, k) !in g.slots && (role.filtered ==> (p, BackingSlot) !in g.slots && (p, FileSlot) !in g.slots)
  }

  predicate CanAttach(d: Drivers, g: Graph, parent: Parent, role: Role) {
    parent.NodeParent? ==> RoleOk(d, parent.node, role) && SlotFree(d, g, parent.node, role)
  }

  /** The slots hold exactly the attached children that belong there. */
  ghost predicate SlotsAgree(d: Drivers, g: Graph) {
    && (forall k | k in g.slots ::
          && var c := g.slots[k];
          && c in g.edges && g.edges[c].bs.Some? && g.edges[c].parent == NodeParent(k.0)
          && SlotOf(d, k.0, g.edges[c].role) == Some(k.1))
    && (forall c | c in g.edges && g.edges[c].bs.Some? && g.edges[c].parent.NodeParent? ::
          && var p := g.edges[c].parent.node;
          && RoleOk(d, p, g.edges[c].role)
          && (match SlotOf(d, p, g.edges[c].role)
              case None => true
              case Some(k) => (p, k) in g.slots && g.slots[(p, k)] == c))
  }

  /** bdrv_child_cb_detach */
  function Detach(g: Graph, c: EdgeId): Graph
    requires c in g.edges
  {
    var parent := g.edges[c].parent;
    if !parent.NodeParent? then g
    else
      var b, f := (parent.node, BackingSlot), (parent.node, FileSlot);
      if b in g.slots && g.slots[b] == c then g.(slots := g.slots - {b})
      else if f in g.slots && g.slots[f] == c then g.(slots := g.slots - {f})
      else g
  }

  /** bdrv_child_cb_attach */
  function Attach(d: Drivers, g: Graph, c: EdgeId): Graph
    requires c in g.edges
  {
    var parent := g.edges[c].parent;
    if !parent.NodeParent? then g
    else match SlotOf(d, parent.node, g.edges[c].role)
         case None => g
         case Some(k) => g.(slots := g.slots[(parent.node, k) := c])
  }

  /** bdrv_replace_child_noperm */
  function ReplaceNoperm(d: Drivers, g: Graph, c: EdgeId, to: Option<Node>): Graph
    requires c in g.edges
  {
    var g1 := if g.edges[c].bs.Some? then Detach(g, c) else g;
    var g2 := Repoint(g1, c, to);
    if to.Some? then Attach(d, g2, c) else g2
  }

  /** A new BdrvChild, linked in (bdrv_attach_child_common). */
  function AttachNew(d: Drivers, g: Graph, c: EdgeId, edge: Edge): Graph {
    ReplaceNoperm(d, g.(edges := g.edges[c := edge.(bs := None)]), c, edge.bs)
  }

  function PutPerm(g: Graph, c: EdgeId, perm: Perms, shared: Perms): Graph
    requires c in g.edges
  {
    g.(edges := g.edges[c := g.edges[c].(perm := perm, shared := shared)])
  }

  function PutInherits(g: Graph, n: Node, from: Option<Node>): Graph {
    g.(inherits := if from.Some? then g.inherits[n := from.value] else g.inherits - {n})
  }

  function InheritsOf(g: Graph, n: Node): Option<Node> {
    if n in g.inherits then Some(g.inherits[n]) else None
  }

  ghost function InheritArcs(g: Graph): Arcs {
    set n | n in g.inherits :: (n, g.inherits[n])
  }

  /** The invariant of the graph: no cycle through links or through inherits_from, slots that agree
      with the links, and no children below a driver that cannot give them permissions. */
  ghost predicate Wf(d: Drivers, g: Graph) {
    && Closed(g) && SlotsAgree(d, g)
    && Acyclic(ArcsOf(g)) && Acyclic(InheritArcs(g))
    && (forall n | n in g.inherits :: n in g.nodes && g.inherits[n] in g.nodes)
    && (forall c | c in g.edges && g.edges[c].parent.NodeParent? :: d.hasChildPerm(g.edges[c].parent.node))
  }

  // ---------------------------------------------------------------------------------------
  // Undoing

  /** The assertions of the abort callbacks hold. */
  ghost predicate Applicable(d: Drivers, g: Graph, a: Action) {
    match a
    case PermSet(c, _, _) => c in g.edges
    case ChildReplaced(c, was) =>
      c in g.edges && !g.edges[c].frozen && g.edges[c].bs != was
      && (was.Some? ==> CanAttach(d, if g.edges[c].bs.Some? then Detach(g, c) else g,
                                  g.edges[c].parent, g.edges[c].role))
    case ChildAttached(c) => c in g.edges && !g.edges[c].frozen && g.edges[c].bs.Some?
    case _ => true
  }

  /** The .abort callback of one record. */
  function Undo(d: Drivers, g: Graph, a: Action): Graph
    requires Applicable(d, g, a)
  {
    match a
    case PermSet(c, perm, shared) => PutPerm(g, c, perm, shared)
    case ChildReplaced(c, was) => ReplaceNoperm(d, g, c, was)
    case ChildAttached(c) => var h := ReplaceNoperm(d, g, c, None); h.(edges := h.edges - {c})
    case InheritsSet(n, from) => PutInherits(g, n, from)
    case _ => g
  }

  /** Every record can be undone, newest first, through well-formed graphs, and undoing a
      replacement drops a reference to a node that a caller (`owned`) or another link still holds. */
  ghost predicate Undoable(d: Drivers, g: Graph, log: seq<Action>, owned: multiset<Node>)
    decreases |log|
  {
    && Wf(d, g) && Committable(g, log)
    && (log == [] ||
        var a := log[|log| - 1];
        && Applicable(d, g, a) && Held(g, a, owned)
        && Undoable(d, Undo(d, g, a), log[..|log| - 1], owned))
  }

  /** The links that a commit frees (bdrv_child_free) are empty, and each is freed once. */
  ghost predicate Committable(g: Graph, log: seq<Action>) {
    && (forall i | 0 <= i < |log| && log[i].ChildRemoved? :: log[i].c in g.edges && g.edges[log[i].c].bs.None?)
    && (forall i, j | 0 <= i < j < |log| && log[i].ChildRemoved? && log[j].ChildRemoved? :: log[i].c != log[j].c)
  }

  ghost predicate Held(g: Graph, a: Action, owned: multiset<Node>) {
    a.ChildReplaced? && a.c in g.edges && g.edges[a.c].bs.Some? ==>
      g.edges[a.c].bs.value in owned || ParentsOf(g, g.edges[a.c].bs.value) - {a.c} != {}
  }

  /** tran_abort */
  ghost function Abort(d: Drivers, g: Graph, log: seq<Action>, owned: multiset<Node>): Graph
    requires Undoable(d, g, log, owned)
    decreases |log|
  {
    if log == [] then g else Abort(d, Undo(d, g, log[|log| - 1]), log[..|log| - 1], owned)
  }

  /** A record that takes `g1` back to `g` can be put on top of a log that takes `g` back. */
  lemma Record(d: Drivers, g: Graph, log: seq<Action>, owned: multiset<Node>, a: Action, g1: Graph)
    requires Undoable(d, g, log, owned) && Wf(d, g1) && Committable(g1, log + [a])
    requires Applicable(d, g1, a) && Held(g1, a, owned) && Undo(d, g1, a) == g
    ensures Undoable(d, g1, log + [a], owned)
    ensures Abort(d, g1, log + [a], owned) == Abort(d, g, log, owned)
  {}

  // ---------------------------------------------------------------------------------------
  // Each edit is undone exactly by its record

  /** The slot a link occupies is vacated by detaching it, and nothing else changes. */
  lemma DetachVacates(d: Drivers, g: Graph, c: EdgeId)
    requires SlotsAgree(d, g) && c in g.edges && g.edges[c].bs.Some?
    ensures var h := Detach(g, c);
            && h == g.(slots := h.slots)
            && CanAttach(d, h, g.edges[c].parent, g.edges[c].role)
            && Attach(d, h, c) == g
            && (forall k | k in h.slots :: k in g.slots && h.slots[k] == g.slots[k] && g.slots[k] != c)
            && (forall k | k in g.slots && g.slots[k] != c :: k in h.slots)
  {
    var parent, role := g.edges[c].parent, g.edges[c].role;
    if parent.NodeParent? {
      var p := parent.node;
      var h := Detach(g, c);
      match SlotOf(d, p, role) {
        case None =>
        case Some(k) =>
          assert g.slots[(p, k)] == c;
          assert h.slots == g.slots - {(p, k)};
          assert h.slots[(p, k) := c] == g.slots;
      }
    }
  }

  lemma DetachedAgrees(d: Drivers, g: Graph, c: EdgeId)
    requires SlotsAgree(d, g) && c in g.edges && g.edges[c].bs.Some?
    ensures SlotsAgree(d, Repoint(Detach(g, c), c, None))
  {
    DetachVacates(d, g, c);
  }

  lemma AttachedAgrees(d: Drivers, g: Graph, c: EdgeId, to: Node)
    requires SlotsAgree(d, g) && c in g.edges && g.edges[c].bs.None?
    requires CanAttach(d, g, g.edges[c].parent, g.edges[c].role)
    ensures SlotsAgree(d, Attach(d, Repoint(g, c, Some(to)), c))
  {}

  /** bdrv_replace_child_tran: the link can be pointed elsewhere, and its record takes it back. */
  lemma ReplaceUndone(d: Drivers, g: Graph, c: EdgeId, to: Option<Node>)
    requires SlotsAgree(d, g) && c in g.edges && !g.edges[c].frozen
    requires g.edges[c].bs.Some? && g.edges[c].bs != to
    ensures var g1 := ReplaceNoperm(d, g, c, to); var a := ChildReplaced(c, g.edges[c].bs);
            && SlotsAgree(d, g1) && Applicable(d, g1, a) && Undo(d, g1, a) == g
            && g1 == Repoint(g, c, to).(slots := g1.slots)
            && (to.Some? ==> g1.slots == g.slots)
  {
    var h := Detach(g, c);
    DetachVacates(d, g, c);
    DetachedAgrees(d, g, c);
    var h0 := Repoint(h, c, None);
    if to.Some? {
      AttachedAgrees(d, h0, c, to.value);
      assert Repoint(h0, c, to) == Repoint(h, c, to);
      var g1 := ReplaceNoperm(d, g, c, to);
      assert g1 == g.(edges := g1.edges);
      DetachVacates(d, g1, c);
      assert Detach(g1, c) == Repoint(h, c, to);
    }
    assert Repoint(Repoint(h, c, to), c, g.edges[c].bs) == h;
  }

  lemma EmptyLinkAgrees(d: Drivers, g: Graph, c: EdgeId, edge: Edge)
    requires SlotsAgree(d, g) && c !in g.edges
    ensures SlotsAgree(d, g.(edges := g.edges[c := edge.(bs := None)]))
    ensures forall k | k in g.slots :: g.slots[k] != c
  {}

  lemma AttachFits(d: Drivers, g: Graph, c: EdgeId, edge: Edge)
    requires SlotsAgree(d, g) && c !in g.edges && edge.bs.Some? && CanAttach(d, g, edge.parent, edge.role)
    ensures var g1 := AttachNew(d, g, c, edge);
            && SlotsAgree(d, g1)
            && g1 == g.(edges := g.edges[c := edge], slots := g1.slots)
            && (forall k | k in g.slots :: k in g1.slots && g1.slots[k] == g.slots[k] && g.slots[k] != c)
            && (forall k | k in g1.slots && g1.slots[k] != c :: k in g.slots)
  {
    hide SlotsAgree;
    var g0 := g.(edges := g.edges[c := edge.(bs := None)]);
    EmptyLinkAgrees(d, g, c, edge);
    AttachedAgrees(d, g0, c, edge.bs.value);
    assert g0.edges[c := edge] == g.edges[c := edge];
  }

  /** The new child goes into `backing` if it is a COW child or the one child of a filter that keeps it there. */
  predicate BelongsInBacking(d: Drivers, p: Node, role: Role) {
    role.cow || (role.primary && (d.isFilter(p) || role.filtered) && d.filteredIsBacking(p))
  }

  /** Which slot of its parent a new child fills: `backing`, or `file` if it is any other primary child, or none. */
  lemma FillsSlot(d: Drivers, g: Graph, c: EdgeId, edge: Edge)
    requires SlotsAgree(d, g) && c !in g.edges && edge.bs.Some? && edge.parent.NodeParent?
    requires CanAttach(d, g, edge.parent, edge.role)
    ensures var p, slots := edge.parent.node, AttachNew(d, g, c, edge).slots;
            && (((p, BackingSlot), c) in slots.Items <==> BelongsInBacking(d, p, edge.role))
            && (((p, FileSlot), c) in slots.Items <==> edge.role.primary && !BelongsInBacking(d, p, edge.role))
  {
    var p, g1 := edge.parent.node, AttachNew(d, g, c, edge);
    AttachFits(d, g, c, edge);
    assert forall k :: (k, c) in g1.slots.Items <==> k in g1.slots && g1.slots[k] == c;
    assert g1.edges[c] == edge;
    hide AttachNew, CanAttach;
  }

  /** bdrv_attach_child_common: a new link fits in, and its record removes it without a trace. */
  lemma AttachUndone(d: Drivers, g: Graph, c: EdgeId, edge: Edge)
    requires SlotsAgree(d, g) && c !in g.edges && edge.bs.Some? && !edge.frozen
    requires CanAttach(d, g, edge.parent, edge.role)
    ensures var g1 := AttachNew(d, g, c, edge);
            && SlotsAgree(d, g1) && Applicable(d, g1, ChildAttached(c)) && Undo(d, g1, ChildAttached(c)) == g
            && g1 == g.(edges := g.edges[c := edge], slots := g1.slots)
  {
    hide SlotsAgree, CanAttach;
    AttachFits(d, g, c, edge);
    var g1 := AttachNew(d, g, c, edge);
    DetachVacates(d, g1, c);
    var h := Detach(g1, c);
    assert h.slots == g.slots;
    assert Repoint(h, c, None).edges - {c} == g.edges;
  }

  lemma PermUndone(d: Drivers, g: Graph, c: EdgeId, perm: Perms, shared: Perms)
    requires c in g.edges
    ensures var a := PermSet(c, g.edges[c].perm, g.edges[c].shared);
            Undo(d, PutPerm(g, c, perm, shared), a) == g
    ensures SlotsAgree(d, g) ==> SlotsAgree(d, PutPerm(g, c, perm, shared))
  {}

  lemma InheritsUndone(d: Drivers, g: Graph, n: Node, from: Option<Node>)
    ensures Undo(d, PutInherits(g, n, from), InheritsSet(n, InheritsOf(g, n))) == g
  {}
}
