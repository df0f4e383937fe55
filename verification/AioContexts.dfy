/**
 Moving part of the node graph to another AioContext: bdrv_try_change_aio_context and the walk
 behind it (qemu/block.c), with block jobs (qemu/blockjob.c) and backends as parents.

 A holder of an AioContext is a node, a job or a backend, and is named like a link's parent.
 */
module AioContexts {

  import opened Wrappers
  import opened Digraph
  import opened BlockGraph

  type Ctx = nat

  function TargetOf(g: Graph, c: EdgeId): Parent
    requires c in g.edges && g.edges[c].bs.Some?
  {
    NodeParent(g.edges[c].bs.value)
  }

  /** job->nodes and the like: all links held by `v`. */
  function LinksOf(g: Graph, v: Parent): set<EdgeId> {
    set c | c in g.edges && g.edges[c].parent == v && g.edges[c].bs.Some?
  }

  /** The links with `v` at one end. */
  ghost function Touching(g: Graph, v: Parent): set<EdgeId> {
    LinksOf(g, v) + (if v.NodeParent? then ParentsOf(g, v.node) else {})
  }

  /** `s` cannot be left by a link outside `ignored`. */
  ghost predicate ClosedOff(g: Graph, ignored: set<EdgeId>, s: set<Parent>) {
    forall c | c in g.edges && g.edges[c].bs.Some? && c !in ignored ::
      g.edges[c].parent in s <==> TargetOf(g, c) in s
  }

  /** The two ends of every link share a context. */
  ghost predicate Uniform(g: Graph, ignored: set<EdgeId>, ctx: map<Parent, Ctx>) {
    forall c | c in g.edges && g.edges[c].bs.Some? && c !in ignored ::
      g.edges[c].parent in ctx && TargetOf(g, c) in ctx && ctx[g.edges[c].parent] == ctx[TargetOf(g, c)]
  }

  /** A backend has one root link (blk->root). */
  ghost predicate OneRoot(g: Graph) {
    forall c, e | c in g.edges && e in g.edges && g.edges[c].bs.Some? && g.edges[e].bs.Some?
      && g.edges[c].parent == g.edges[e].parent && g.edges[c].parent.BackendParent? :: c == e
  }

  ghost function Elements(log: seq<Parent>): set<Parent> {
    set v | v in log
  }

  /** How often draining of `n` was begun for records of the transaction. */
  ghost function Drains(log: seq<Parent>, n: Node): nat {
    multiset(log)[NodeParent(n)]
  }

  // ---------------------------------------------------------------------------------------
  // The state of the walk

  /** The visited links lead only to holders that are recorded or being visited (`gray`), and
      every link of a recorded holder has been visited. */
  ghost predicate Walked(g: Graph, ignored: set<EdgeId>, visited: set<EdgeId>, done: set<Parent>, gray: set<Parent>) {
    && ignored <= visited
    && (forall c | c in visited && c !in ignored ::
          c in g.edges && g.edges[c].bs.Some? && g.edges[c].parent in done + gray && TargetOf(g, c) in done + gray)
    && (forall v | v in done :: Touching(g, v) <= visited)
  }

  /** A state of the walk: visited links, recorded holders and quiesce counters. */
  datatype Walk = Walk(visited: set<EdgeId>, log: seq<Parent>, quiesce: map<Node, int>)

  /** `w` is connected to `v`. */
  ghost predicate Connected(g: Graph, ignored: set<EdgeId>, v: Parent, w: Parent) {
    forall t | ClosedOff(g, ignored, t) && v in t :: w in t
  }

  /** The walk went on from `v`: nothing is forgotten, all new records are connected to `v`, and
      every record of a node comes with one more drain of that node. */
  ghost predicate Progress(g: Graph, ignored: set<EdgeId>, v: Parent, w: Walk, w': Walk) {
    && w.visited <= w'.visited && w.log <= w'.log && w.quiesce.Keys == w'.quiesce.Keys
    && (forall u | u in w'.log :: u in w.log || Connected(g, ignored, v, u))
    && (forall n | n in w.quiesce :: w'.quiesce[n] - Drains(w'.log, n) == w.quiesce[n] - Drains(w.log, n))
  }

  /** Some backend connected to `v` refuses. */
  ghost predicate Blocked(g: Graph, ignored: set<EdgeId>, refuses: nat -> bool, v: Parent) {
    exists b :: refuses(b) && Connected(g, ignored, v, BackendParent(b))
  }

  ghost predicate Willing(refuses: nat -> bool, log: seq<Parent>) {
    forall b | BackendParent(b) in log :: !refuses(b)
  }

  /** A link outside `ignored` connects its ends. */
  lemma Connects(g: Graph, ignored: set<EdgeId>, c: EdgeId)
    requires c in g.edges && g.edges[c].bs.Some? && c !in ignored
    ensures Connected(g, ignored, g.edges[c].parent, TargetOf(g, c))
    ensures Connected(g, ignored, TargetOf(g, c), g.edges[c].parent)
  {}

  lemma ProgressTrans(g: Graph, ignored: set<EdgeId>, u: Parent, v: Parent, w: Walk, w1: Walk, w2: Walk)
    requires Progress(g, ignored, u, w, w1) && Progress(g, ignored, v, w1, w2) && Connected(g, ignored, u, v)
    ensures Progress(g, ignored, u, w, w2)
  {}

  lemma BlockedVia(g: Graph, ignored: set<EdgeId>, refuses: nat -> bool, v: Parent, w: Parent)
    requires Blocked(g, ignored, refuses, w) && Connected(g, ignored, v, w)
    ensures Blocked(g, ignored, refuses, v)
  {}

  /** Visiting one more link whose other end is `v`. */
  lemma VisitLink(g: Graph, ignored: set<EdgeId>, w: Walk, gray: set<Parent>, c: EdgeId, v: Parent)
    requires Walked(g, ignored, w.visited, Elements(w.log), gray)
    requires c in g.edges && g.edges[c].bs.Some? && c !in w.visited
    requires (v == g.edges[c].parent && TargetOf(g, c) in gray) || (v == TargetOf(g, c) && g.edges[c].parent in gray)
    ensures Walked(g, ignored, w.visited + {c}, Elements(w.log), gray + {v}) && c !in ignored
    ensures Progress(g, ignored, v, w, w.(visited := w.visited + {c}))
    ensures g.edges.Keys - (w.visited + {c}) < g.edges.Keys - w.visited
  {}

  /** Recording a holder all of whose links have been visited. */
  lemma RecordHolder(g: Graph, ignored: set<EdgeId>, w: Walk, w': Walk, gray: set<Parent>, v: Parent)
    requires Walked(g, ignored, w.visited, Elements(w.log), gray + {v}) && Touching(g, v) <= w.visited
    requires w'.visited == w.visited && w'.log == w.log + [v]
    requires w'.quiesce == if v.NodeParent? && v.node in w.quiesce
                           then w.quiesce[v.node := w.quiesce[v.node] + 1] else w.quiesce
    ensures Walked(g, ignored, w'.visited, Elements(w'.log), gray)
    ensures Progress(g, ignored, v, w, w')
  {}

  lemma ProgressSelf(g: Graph, ignored: set<EdgeId>, v: Parent, w: Walk)
    ensures Progress(g, ignored, v, w, w) && Connected(g, ignored, v, v)
  {}

  lemma ProgressVisited(g: Graph, ignored: set<EdgeId>, v: Parent, w: Walk, w': Walk)
    requires Progress(g, ignored, v, w, w')
    ensures w.visited <= w'.visited && w.log <= w'.log && w.quiesce.Keys == w'.quiesce.Keys
  {}

  lemma TouchingNode(g: Graph, n: Node, visited: set<EdgeId>)
    requires ParentsOf(g, n) <= visited && LinksOf(g, NodeParent(n)) <= visited
    ensures Touching(g, NodeParent(n)) <= visited
  {}

  lemma WillingMore(refuses: nat -> bool, log: seq<Parent>, v: Parent)
    requires Willing(refuses, log) && (v.BackendParent? ==> !refuses(v.blk))
    ensures Willing(refuses, log + [v])
  {}

  lemma BlockedHere(g: Graph, ignored: set<EdgeId>, refuses: nat -> bool, v: Parent, b: nat)
    requires refuses(b) && Connected(g, ignored, v, BackendParent(b))
    ensures Blocked(g, ignored, refuses, v)
  {}

  /** The single link of a backend has been visited once it is in `visited`. */
  lemma RootVisited(g: Graph, visited: set<EdgeId>, c: EdgeId)
    requires OneRoot(g) && c in g.edges && g.edges[c].bs.Some? && g.edges[c].parent.BackendParent? && c in visited
    ensures Touching(g, g.edges[c].parent) <= visited
  {}

  lemma WalkStart(g: Graph, ignored: set<EdgeId>, v: Parent)
    ensures Walked(g, ignored, ignored, Elements([]), {v})
  {}

  /** Everything a walk records is a known holder. */
  lemma RecordsKnown(g: Graph, ignored: set<EdgeId>, ctx: map<Parent, Ctx>, v: Parent, w: Walk, w': Walk)
    requires Closed(g) && Uniform(g, ignored, ctx) && v in ctx && (v.NodeParent? ==> v.node in g.nodes)
    requires w.log == [] && Progress(g, ignored, v, w, w')
    ensures forall u | u in w'.log :: u in ctx && (u.NodeParent? ==> u.node in g.nodes)
  {
    var t := set u | u in ctx && (u.NodeParent? ==> u.node in g.nodes);
    assert ClosedOff(g, ignored, t);
  }

  lemma UniformConnected(g: Graph, ignored: set<EdgeId>, ctx: map<Parent, Ctx>, v: Parent)
    requires Uniform(g, ignored, ctx) && v in ctx
    ensures forall u | Connected(g, ignored, v, u) :: u in ctx && ctx[u] == ctx[v]
  {
    var t := set u | u in ctx && ctx[u] == ctx[v];
    assert ClosedOff(g, ignored, t);
  }

  /** A finished walk has recorded exactly what is connected, and nobody there refuses. */
  lemma WalkComplete(g: Graph, ignored: set<EdgeId>, refuses: nat -> bool, v: Parent, w: Walk, w': Walk)
    requires Walked(g, ignored, w'.visited, Elements(w'.log), {}) && v in w'.log && Willing(refuses, w'.log)
    requires w.log == [] && Progress(g, ignored, v, w, w')
    ensures forall u :: u in w'.log <==> Connected(g, ignored, v, u)
    ensures !Blocked(g, ignored, refuses, v)
  {
    var done := Elements(w'.log);
    forall c | c in g.edges && g.edges[c].bs.Some? && c !in ignored
      ensures g.edges[c].parent in done <==> TargetOf(g, c) in done
    {
      assert c in Touching(g, g.edges[c].parent) && c in Touching(g, TargetOf(g, c));
    }
    assert ClosedOff(g, ignored, done);
  }

  /** Moving everything connected together keeps the ends of every link together. */
  lemma UniformMoved(g: Graph, ignored: set<EdgeId>, ctx: map<Parent, Ctx>, ctx': map<Parent, Ctx>, v: Parent, target: Ctx)
    requires Uniform(g, ignored, ctx) && ctx'.Keys == ctx.Keys
    requires forall u | u in ctx' :: ctx'[u] == if Connected(g, ignored, v, u) then target else ctx[u]
    ensures Uniform(g, ignored, ctx')
  {}

  lemma DrainsEnded(g: Graph, ignored: set<EdgeId>, v: Parent, w: Walk, w': Walk, q: map<Node, int>)
    requires w.log == [] && Progress(g, ignored, v, w, w') && q.Keys == w'.quiesce.Keys
    requires forall n | n in q :: q[n] == w'.quiesce[n] - Drains(w'.log, n)
    ensures q == w.quiesce
  {}

  class ContextChange {
    const g: Graph
    const ignored: set<EdgeId>
    const refuses: nat -> bool          // backends that do not let their AioContext be changed
    var ctx: map<Parent, Ctx>           // aio_context of nodes, jobs and backends
    var visited: set<EdgeId>
    var tran: seq<Parent>               // holders whose context changes on commit
    var quiesce: map<Node, int>         // bs->quiesce_counter

    ghost function W(): Walk
      reads this
    {
      Walk(visited, tran, quiesce)
    }

    ghost predicate Ready()
      reads this
    {
      && Closed(g) && OneRoot(g) && Uniform(g, ignored, ctx)
      && quiesce.Keys == g.nodes && (forall n | n in g.nodes :: NodeParent(n) in ctx)
      && Willing(refuses, tran)
    }

    ghost predicate In(gray: set<Parent>)
      reads this
    {
      Walked(g, ignored, visited, Elements(tran), gray)
    }

    /** bdrv_change_aio_context */
    method ChangeNode(n: Node, target: Ctx, ghost gray: set<Parent>) returns (ok: bool)
      requires Ready() && n in g.nodes
      requires ctx[NodeParent(n)] != target ==> In(gray + {NodeParent(n)})
      modifies this`visited, this`tran, this`quiesce
      ensures Ready() && Progress(g, ignored, NodeParent(n), old(W()), W())
      ensures ctx[NodeParent(n)] == target ==> ok && W() == old(W())
      ensures ctx[NodeParent(n)] != target && ok ==> In(gray) && NodeParent(n) in tran
      ensures !ok ==> Blocked(g, ignored, refuses, NodeParent(n))
      decreases g.edges.Keys - visited, 3
    {
      hide Walked, Progress, Connected, Blocked, Uniform, OneRoot, Closed, Willing, Touching;
      var v := NodeParent(n);
      ProgressSelf(g, ignored, v, W());
      if ctx[v] == target {
        return true;
      }
      ok := ChangeParents(n, target, gray + {v});
      if !ok {
        return false;
      }
      ghost var w1 := W();
      ProgressVisited(g, ignored, v, old(W()), w1);
      ok := ChangeLinks(v, target, gray + {v});
      ProgressTrans(g, ignored, v, v, old(W()), w1, W());
      if !ok {
        return false;
      }
      ghost var w2 := W();
      ProgressVisited(g, ignored, v, w1, w2);
      TouchingNode(g, n, visited);
      RecordNode(n, gray);
      ProgressTrans(g, ignored, v, v, old(W()), w2, W());
      return true;
    }

    /** Its end: the node is drained and its change goes into the transaction. */
    method RecordNode(n: Node, ghost gray: set<Parent>)
      requires Ready() && n in g.nodes && In(gray + {NodeParent(n)}) && Touching(g, NodeParent(n)) <= visited
      modifies this`tran, this`quiesce
      ensures Ready() && In(gray) && NodeParent(n) in tran
      ensures Progress(g, ignored, NodeParent(n), old(W()), W())
    {
      hide Walked, Progress, Connected, Uniform, OneRoot, Closed, Willing, Touching;
      ghost var w := W();
      quiesce := quiesce[n := quiesce[n] + 1];
      tran := tran + [NodeParent(n)];
      RecordHolder(g, ignored, w, W(), gray, NodeParent(n));
      WillingMore(refuses, w.log, NodeParent(n));
    }

    /** Its loop over bs->parents. */
    method ChangeParents(n: Node, target: Ctx, ghost gray: set<Parent>) returns (ok: bool)
      requires Ready() && n in g.nodes && NodeParent(n) in gray && In(gray) && ctx[NodeParent(n)] != target
      modifies this`visited, this`tran, this`quiesce
      ensures Ready() && Progress(g, ignored, NodeParent(n), old(W()), W())
      ensures ok ==> In(gray) && ParentsOf(g, n) <= visited
      ensures !ok ==> Blocked(g, ignored, refuses, NodeParent(n))
      decreases g.edges.Keys - visited, 2
    {
      hide Walked, Progress, Connected, Blocked, Uniform, OneRoot, Closed, Willing;
      ghost var v := NodeParent(n);
      ProgressSelf(g, ignored, v, W());
      var todo := ParentsOf(g, n);
      while todo != {}
        invariant Ready() && In(gray) && Progress(g, ignored, v, old(W()), W())
        invariant todo <= ParentsOf(g, n) && ParentsOf(g, n) - todo <= visited
      {
        var c :| c in todo;
        ghost var w := W();
        ProgressVisited(g, ignored, v, old(W()), w);
        ok := ParentChange(c, target, gray);
        ProgressTrans(g, ignored, v, v, old(W()), w, W());
        ProgressVisited(g, ignored, v, w, W());
        if !ok {
          return false;
        }
        todo := todo - {c};
      }
      return true;
    }

    /** The loop over the links held by `v`: bs->children of a node, or job->nodes. */
    method ChangeLinks(v: Parent, target: Ctx, ghost gray: set<Parent>) returns (ok: bool)
      requires Ready() && v in gray && In(gray) && v in ctx && ctx[v] != target
      modifies this`visited, this`tran, this`quiesce
      ensures Ready() && Progress(g, ignored, v, old(W()), W())
      ensures ok ==> In(gray) && LinksOf(g, v) <= visited
      ensures !ok ==> Blocked(g, ignored, refuses, v)
      decreases g.edges.Keys - visited, 2
    {
      hide Walked, Progress, Connected, Blocked, Uniform, OneRoot, Closed, Willing;
      ProgressSelf(g, ignored, v, W());
      var todo := LinksOf(g, v);
      while todo != {}
        invariant Ready() && In(gray) && Progress(g, ignored, v, old(W()), W())
        invariant todo <= LinksOf(g, v) && LinksOf(g, v) - todo <= visited
      {
        var c :| c in todo;
        ghost var w := W();
        ProgressVisited(g, ignored, v, old(W()), w);
        ok := ChildChange(c, target, gray);
        ProgressTrans(g, ignored, v, v, old(W()), w, W());
        ProgressVisited(g, ignored, v, w, W());
        if !ok {
          return false;
        }
        todo := todo - {c};
      }
      return true;
    }

    /** bdrv_parent_change_aio_context with the parent's .change_aio_ctx callback. */
    method ParentChange(c: EdgeId, target: Ctx, ghost gray: set<Parent>) returns (ok: bool)
      requires Ready() && c in g.edges && g.edges[c].bs.Some? && TargetOf(g, c) in gray && In(gray)
      requires TargetOf(g, c) in ctx && ctx[TargetOf(g, c)] != target
      modifies this`visited, this`tran, this`quiesce
      ensures Ready() && Progress(g, ignored, TargetOf(g, c), old(W()), W())
      ensures ok ==> In(gray) && c in visited
      ensures !ok ==> Blocked(g, ignored, refuses, TargetOf(g, c))
      decreases g.edges.Keys - visited, 1
    {
      hide Walked, Progress, Connected, Blocked, OneRoot, Willing;
      ghost var v, u := TargetOf(g, c), g.edges[c].parent;
      ProgressSelf(g, ignored, v, W());
      if c in visited {
        return true;
      }
      VisitLink(g, ignored, W(), gray, c, u);
      Connects(g, ignored, c);
      ProgressSelf(g, ignored, u, W());
      visited := visited + {c};
      ghost var w := W();
      match g.edges[c].parent {
        case NodeParent(p) => ok := ChangeNode(p, target, gray);
        case JobParent(j) => ok := ChangeJob(j, target, gray);
        case BackendParent(b) =>
          if refuses(b) {
            BlockedHere(g, ignored, refuses, v, b);
            ProgressTrans(g, ignored, v, u, old(W()), old(W()), W());
            return false;
          }
          tran := tran + [BackendParent(b)];
          RootVisited(g, visited, c);
          RecordHolder(g, ignored, w, W(), gray, u);
          WillingMore(refuses, w.log, u);
          ok := true;
      }
      ProgressTrans(g, ignored, u, u, old(W()), w, W());
      ProgressTrans(g, ignored, v, u, old(W()), old(W()), W());
      ProgressVisited(g, ignored, u, w, W());
      if !ok { BlockedVia(g, ignored, refuses, v, u); }
    }

    /** bdrv_child_change_aio_context */
    method ChildChange(c: EdgeId, target: Ctx, ghost gray: set<Parent>) returns (ok: bool)
      requires Ready() && c in g.edges && g.edges[c].bs.Some? && g.edges[c].parent in gray && In(gray)
      requires g.edges[c].parent in ctx && ctx[g.edges[c].parent] != target
      modifies this`visited, this`tran, this`quiesce
      ensures Ready() && Progress(g, ignored, g.edges[c].parent, old(W()), W())
      ensures ok ==> In(gray) && c in visited
      ensures !ok ==> Blocked(g, ignored, refuses, g.edges[c].parent)
      decreases g.edges.Keys - visited, 1
    {
      hide Walked, Progress, Connected, Blocked, OneRoot, Willing;
      ghost var v, u := g.edges[c].parent, TargetOf(g, c);
      ProgressSelf(g, ignored, v, W());
      if c in visited {
        return true;
      }
      VisitLink(g, ignored, W(), gray, c, u);
      Connects(g, ignored, c);
      ProgressSelf(g, ignored, u, W());
      visited := visited + {c};
      ghost var w := W();
      ok := ChangeNode(g.edges[c].bs.value, target, gray);
      ProgressTrans(g, ignored, u, u, old(W()), w, W());
      ProgressTrans(g, ignored, v, u, old(W()), old(W()), W());
      ProgressVisited(g, ignored, u, w, W());
      if !ok { BlockedVia(g, ignored, refuses, v, u); }
    }

    /** child_job_change_aio_ctx: a job takes all its nodes along. */
    method ChangeJob(j: nat, target: Ctx, ghost gray: set<Parent>) returns (ok: bool)
      requires Ready() && In(gray + {JobParent(j)}) && JobParent(j) in ctx && ctx[JobParent(j)] != target
      modifies this`visited, this`tran, this`quiesce
      ensures Ready() && Progress(g, ignored, JobParent(j), old(W()), W())
      ensures ok ==> In(gray) && JobParent(j) in tran
      ensures !ok ==> Blocked(g, ignored, refuses, JobParent(j))
      decreases g.edges.Keys - visited, 3
    {
      hide Walked, Progress, Connected, Blocked, Uniform, OneRoot, Closed, Willing;
      var v := JobParent(j);
      ProgressSelf(g, ignored, v, W());
      ok := ChangeLinks(v, target, gray + {v});
      if !ok {
        return false;
      }
      ghost var w := W();
      tran := tran + [v];
      RecordHolder(g, ignored, w, W(), gray, v);
      ProgressTrans(g, ignored, v, v, old(W()), w, W());
      WillingMore(refuses, w.log, v);
      return true;
    }

    /** The commit callbacks: every recorded holder gets the new context. */
    method Commit(target: Ctx)
      modifies this`ctx
      ensures ctx.Keys == old(ctx).Keys + Elements(tran)
      ensures forall v | v in ctx :: ctx[v] == if v in tran then target else old(ctx)[v]
    {
      for i := 0 to |tran|
        invariant ctx.Keys == old(ctx).Keys + Elements(tran[|tran| - i..])
        invariant forall v | v in ctx :: ctx[v] == if v in tran[|tran| - i..] then target else old(ctx)[v]
      {
        var v := tran[|tran| - 1 - i];
        assert tran[|tran| - (i + 1)..] == [v] + tran[|tran| - i..];
        ctx := ctx[v := target];
      }
      assert tran[0..] == tran;
    }

    /** The clean callbacks, run after a commit and after an abort: every drain that was begun ends. */
    method Clean()
      requires forall v | v in tran && v.NodeParent? :: v.node in quiesce
      modifies this`quiesce, this`tran
      ensures tran == [] && quiesce.Keys == old(quiesce).Keys
      ensures forall n | n in quiesce :: quiesce[n] == old(quiesce)[n] - Drains(old(tran), n)
    {
      while tran != []
        invariant |tran| <= |old(tran)| && tran == old(tran)[..|tran|]
        invariant quiesce.Keys == old(quiesce).Keys
        invariant forall n | n in quiesce ::
                    quiesce[n] - Drains(tran, n) == old(quiesce)[n] - Drains(old(tran), n)
        decreases |tran|
      {
        var v := tran[|tran| - 1];
        assert tran == tran[..|tran| - 1] + [v];
        if v.NodeParent? {
          quiesce := quiesce[v.node := quiesce[v.node] - 1];
        }
        tran := tran[..|tran| - 1];
      }
    }

    /**
     bdrv_try_change_aio_context, with `visited` holding the link to ignore, if any.  It succeeds
     unless a connected backend refuses; then everything connected to `bs` and nothing else has
     moved.  On refusal nothing has moved.  Either way every drain has ended.
     */
    method TryChange(bs: Node, target: Ctx) returns (ok: bool)
      requires Ready() && bs in g.nodes && tran == [] && visited == ignored
      modifies this
      ensures tran == [] && quiesce == old(quiesce) && ctx.Keys == old(ctx).Keys
      ensures ok <==> old(ctx)[NodeParent(bs)] == target || !Blocked(g, ignored, refuses, NodeParent(bs))
      ensures !ok ==> ctx == old(ctx)
      ensures ok ==> forall v | v in ctx ::
                ctx[v] == if Connected(g, ignored, NodeParent(bs), v) then target else old(ctx)[v]
      ensures Uniform(g, ignored, ctx)
    {
      hide Walked, Progress, Connected, Blocked, Uniform, OneRoot, Closed, Willing;
      ghost var v := NodeParent(bs);
      WalkStart(g, ignored, v);
      assert {} + {v} == {v};
      ok := ChangeNode(bs, target, {});
      RecordsKnown(g, ignored, ctx, v, old(W()), W());
      if ok {
        if ctx[v] == target {
          UniformConnected(g, ignored, ctx, v);
        } else {
          WalkComplete(g, ignored, refuses, v, old(W()), W());
        }
        Commit(target);
        UniformMoved(g, ignored, old(ctx), ctx, v, target);
      }
      ghost var w := W();
      Clean();
      DrainsEnded(g, ignored, v, old(W()), w, quiesce);
    }

    /** The walk from the parent of a link that is not in the graph yet (klass->change_aio_ctx). */
    method ChangeHolder(p: Parent, target: Ctx) returns (ok: bool)
      requires Ready() && NewParent(g, ctx, p) && ctx[p] != target && In({p})
      modifies this`visited, this`tran, this`quiesce
      ensures Ready() && Progress(g, ignored, p, old(W()), W())
      ensures ok ==> In({}) && p in tran
      ensures !ok ==> Blocked(g, ignored, refuses, p)
    {
      assert {} + {p} == {p};
      NoLinks(g, visited, p);
      hide Walked, Progress, Connected, Blocked, Uniform, OneRoot, Closed, Willing, Touching, LinksOf;
      ProgressSelf(g, ignored, p, W());
      match p
      case NodeParent(n) => ok := ChangeNode(n, target, {});
      case JobParent(j) => ok := ChangeJob(j, target, {});
      case BackendParent(b) =>
        ok := !refuses(b);
        if ok {
          ghost var w := W();
          tran := tran + [p];
          RecordHolder(g, ignored, w, W(), {}, p);
          WillingMore(refuses, w.log, p);
        } else {
          BlockedHere(g, ignored, refuses, p, b);
        }
    }

    /** ... in a transaction of its own; bdrv_try_change_aio_context is the same for a node. */
    method TryChangeHolder(p: Parent, target: Ctx) returns (ok: bool)
      requires Ready() && NewParent(g, ctx, p) && ctx[p] != target && tran == []
      modifies this
      ensures tran == [] && quiesce == old(quiesce) && ctx.Keys == old(ctx).Keys
      ensures ok <==> !Blocked(g, ignored, refuses, p)
      ensures if ok then MovedTo(g, ignored, old(ctx), ctx, p, target) else ctx == old(ctx)
      ensures Ready()
    {
      hide Walked, Progress, Connected, Blocked, Uniform, OneRoot, Closed, Willing, LinksOf;
      visited := ignored;
      WalkStart(g, ignored, p);
      ghost var w0 := W();
      ok := ChangeHolder(p, target);
      RecordsKnown(g, ignored, ctx, p, w0, W());
      if ok {
        WalkComplete(g, ignored, refuses, p, w0, W());
        Commit(target);
        UniformMoved(g, ignored, old(ctx), ctx, p, target);
      }
      ghost var w := W();
      Clean();
      DrainsEnded(g, ignored, p, w0, w, quiesce);
      assert Willing(refuses, []) by { NobodyRefuses(refuses); }
    }

    /**
     The part of bdrv_attach_child_common that brings a node and its new parent together: the node's side
     is moved if it can be, else the parent's side.
     */
    method MoveForAttach(bs: Node, p: Parent) returns (ok: bool)
      requires Ready() && bs in g.nodes && NewParent(g, ctx, p) && tran == []
      modifies this
      ensures Ready() && tran == [] && quiesce == old(quiesce) && ctx.Keys == old(ctx).Keys
      ensures ok <==> old(ctx)[NodeParent(bs)] == old(ctx)[p]
                      || !Blocked(g, ignored, refuses, NodeParent(bs)) || !Blocked(g, ignored, refuses, p)
      ensures !ok ==> ctx == old(ctx)
      ensures ok ==> ctx[NodeParent(bs)] == ctx[p] && Reconciled(g, ignored, refuses, old(ctx), ctx, bs, p)
    {
      var v := NodeParent(bs);
      var childCtx, parentCtx := ctx[v], ctx[p];
      if childCtx == parentCtx {
        return true;
      }
      ApartApart(g, ignored, ctx, v, p);
      hide Connected, Blocked, Uniform, OneRoot, Closed, Willing, LinksOf;
      ok := TryChangeHolder(v, parentCtx);
      if !ok {
        ok := TryChangeHolder(p, childCtx);
      }
    }

    /**
     Its undoing in bdrv_attach_child_common_abort, after the link is gone: neither move back is ever
     refused, and every holder is back where it was.
     */
    method MoveBack(bs: Node, p: Parent, oldChild: Ctx, oldParent: Ctx, ghost ctx0: map<Parent, Ctx>)
      requires Ready() && bs in g.nodes && NewParent(g, ctx, p) && tran == []
      requires Uniform(g, ignored, ctx0) && ctx0.Keys == ctx.Keys && Reconciled(g, ignored, refuses, ctx0, ctx, bs, p)
      requires oldChild == ctx0[NodeParent(bs)] && oldParent == ctx0[p]
      modifies this
      ensures Ready() && tran == [] && quiesce == old(quiesce) && ctx == ctx0
    {
      var v := NodeParent(bs);
      if oldChild != oldParent {
        ApartApart(g, ignored, ctx0, v, p);
      }
      UniformConnected(g, ignored, ctx0, v);
      UniformConnected(g, ignored, ctx0, p);
      hide Connected, Blocked, Uniform, OneRoot, Closed, Willing, LinksOf;
      if ctx[v] != oldChild {
        var ok := TryChangeHolder(v, oldChild);
        assert ok;
        assert forall u | u in ctx :: ctx[u] == ctx0[u];
      }
      if ctx[p] != oldParent {
        var ok := TryChangeHolder(p, oldParent);
        assert ok;
      }
    }
  }

  /** A holder that may become the parent of a new link; a backend has no link yet. */
  ghost predicate NewParent(g: Graph, ctx: map<Parent, Ctx>, p: Parent) {
    p in ctx && (p.NodeParent? ==> p.node in g.nodes) && (p.BackendParent? ==> LinksOf(g, p) == {})
  }

  /** Exactly what is connected to `v` has moved. */
  ghost predicate MovedTo(g: Graph, ignored: set<EdgeId>, ctx0: map<Parent, Ctx>, ctx: map<Parent, Ctx>, v: Parent, target: Ctx) {
    ctx.Keys == ctx0.Keys && forall u | u in ctx :: ctx[u] == if Connected(g, ignored, v, u) then target else ctx0[u]
  }

  /** One side has been moved to the other, and nobody there refuses to be moved. */
  ghost predicate Reconciled(g: Graph, ignored: set<EdgeId>, refuses: nat -> bool, ctx0: map<Parent, Ctx>, ctx: map<Parent, Ctx>,
                             bs: Node, p: Parent)
  {
    && NodeParent(bs) in ctx0 && p in ctx0
    && var v := NodeParent(bs);
       if ctx0[v] == ctx0[p] then ctx == ctx0
       else if !Blocked(g, ignored, refuses, v) then MovedTo(g, ignored, ctx0, ctx, v, ctx0[p])
       else !Blocked(g, ignored, refuses, p) && MovedTo(g, ignored, ctx0, ctx, p, ctx0[v])
  }

  /** Holders in different contexts are not connected. */
  lemma ApartApart(g: Graph, ignored: set<EdgeId>, ctx: map<Parent, Ctx>, v: Parent, p: Parent)
    requires Uniform(g, ignored, ctx) && v in ctx && p in ctx && ctx[v] != ctx[p]
    ensures !Connected(g, ignored, v, p) && !Connected(g, ignored, p, v)
    ensures Connected(g, ignored, v, v) && Connected(g, ignored, p, p)
  {
    UniformConnected(g, ignored, ctx, v);
    UniformConnected(g, ignored, ctx, p);
  }

  lemma NoLinks(g: Graph, visited: set<EdgeId>, p: Parent)
    requires p.BackendParent? ==> LinksOf(g, p) == {}
    ensures p.BackendParent? ==> Touching(g, p) <= visited
  {}

  lemma NobodyRefuses(refuses: nat -> bool)
    ensures Willing(refuses, [])
  {}

  /** So with the new link in place the ends of every link still share a context. */
  lemma AttachedUniform(g: Graph, g1: Graph, c: EdgeId, ignored: set<EdgeId>, ctx: map<Parent, Ctx>)
    requires Uniform(g, ignored, ctx) && c !in g.edges && c in g1.edges && g1.edges == g.edges[c := g1.edges[c]]
    requires g1.edges[c].bs.Some? && g1.edges[c].parent in ctx && TargetOf(g1, c) in ctx
    requires ctx[g1.edges[c].parent] == ctx[TargetOf(g1, c)]
    ensures Uniform(g1, ignored, ctx)
  {
    forall k | k in g1.edges && g1.edges[k].bs.Some? && k !in ignored
      ensures g1.edges[k].parent in ctx && TargetOf(g1, k) in ctx && ctx[g1.edges[k].parent] == ctx[TargetOf(g1, k)]
    {
      if k != c {
        assert g.edges[k] == g1.edges[k];
      }
    }
  }
}
