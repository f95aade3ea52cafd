/**
 * The recording discipline of the walk: a group (or fork) is recorded
 * only after each of its children has been recorded or skipped as
 * already recorded. Stated as an invariant of the resume store over the
 * positions of the tree that the walk would enter, it survives every
 * walk, successful or failed, as long as paths are unique. On a rerun,
 * skipping a recorded group is therefore safe: everything below it that
 * the walk would have entered is recorded too.
 */
module Closure {
  import opened Tree
  import opened Environment
  import opened Engine

  /** `g` walked as a group: if `g` is recorded, so are its children, and every child is closed as an element. */
  ghost predicate GroupClosed(g: Node, s: Store)
    decreases g, 1
  {
    && (g.path in s ==> ChildrenIn(g, s))
    && forall i :: 0 <= i < |g.children| ==> ElementClosed(g.children[i], s)
  }

  /**
   * `c` dispatched by tag: a group is closed as a group; a recorded fork
   * has all its branches recorded and every branch is closed as a group;
   * the children of any other element are never walked.
   */
  ghost predicate ElementClosed(c: Node, s: Store)
    decreases c, 2
  {
    if IsGroupTag(c.tag) then GroupClosed(c, s)
    else if c.tag == "fork" then
      && (c.path in s ==> ChildrenIn(c, s))
      && forall i :: 0 <= i < |c.children| ==> GroupClosed(c.children[i], s)
    else true
  }

  /** The empty store (a first run, or `rerun`) is closed. */
  lemma {:induction false} EmptyGroupClosed(g: Node)
    ensures GroupClosed(g, map[])
    decreases g, 1
  {
    forall i | 0 <= i < |g.children|
      ensures ElementClosed(g.children[i], map[])
    {
      EmptyElementClosed(g.children[i]);
    }
  }

  lemma {:induction false} EmptyElementClosed(c: Node)
    ensures ElementClosed(c, map[])
    decreases c, 2
  {
    if IsGroupTag(c.tag) {
      EmptyGroupClosed(c);
    } else if c.tag == "fork" {
      forall i | 0 <= i < |c.children|
        ensures GroupClosed(c.children[i], map[])
      {
        EmptyGroupClosed(c.children[i]);
      }
    }
  }

  /** Adding keys outside the subtree of `g` keeps it closed. */
  lemma {:induction false} GroupFrame(g: Node, s: Store, s': Store)
    requires s.Keys <= s'.Keys
    requires (s'.Keys - s.Keys) !! Paths(g)
    requires GroupClosed(g, s)
    ensures GroupClosed(g, s')
    decreases g, 1
  {
    DescPaths(g, 0);
    forall i | 0 <= i < |g.children|
      ensures ElementClosed(g.children[i], s')
    {
      ChildPaths(g, 0, i);
      ElementFrame(g.children[i], s, s');
    }
  }

  lemma {:induction false} ElementFrame(c: Node, s: Store, s': Store)
    requires s.Keys <= s'.Keys
    requires (s'.Keys - s.Keys) !! Paths(c)
    requires ElementClosed(c, s)
    ensures ElementClosed(c, s')
    decreases c, 2
  {
    if IsGroupTag(c.tag) {
      GroupFrame(c, s, s');
    } else if c.tag == "fork" {
      DescPaths(c, 0);
      forall i | 0 <= i < |c.children|
        ensures GroupClosed(c.children[i], s')
      {
        ChildPaths(c, 0, i);
        GroupFrame(c.children[i], s, s');
      }
    }
  }

  /** Recording a group whose children are all recorded keeps it closed. */
  lemma GroupRecorded(g: Node, s: Store, v: Env)
    requires Unique(g)
    requires forall i :: 0 <= i < |g.children| ==> ElementClosed(g.children[i], s)
    requires ChildrenIn(g, s)
    ensures GroupClosed(g, s[g.path := v])
  {
    forall i | 0 <= i < |g.children|
      ensures ElementClosed(g.children[i], s[g.path := v])
    {
      ChildPaths(g, 0, i);
      ElementFrame(g.children[i], s, s[g.path := v]);
    }
  }

  /** Recording a fork whose branches are all recorded keeps it closed. */
  lemma ForkRecorded(f: Node, s: Store, v: Env)
    requires f.tag == "fork"
    requires Unique(f)
    requires forall i :: 0 <= i < |f.children| ==> GroupClosed(f.children[i], s)
    requires ChildrenIn(f, s)
    ensures ElementClosed(f, s[f.path := v])
  {
    forall i | 0 <= i < |f.children|
      ensures GroupClosed(f.children[i], s[f.path := v])
    {
      ChildPaths(f, 0, i);
      GroupFrame(f.children[i], s, s[f.path := v]);
    }
  }

  /** When the `i`-th child stays closed, keys added below it keep every other child closed too. */
  lemma SiblingsFrame(g: Node, i: nat, s: Store, s': Store)
    requires Unique(g)
    requires i < |g.children|
    requires s.Keys <= s'.Keys && s'.Keys - s.Keys <= Paths(g.children[i])
    requires forall k :: 0 <= k < |g.children| ==> ElementClosed(g.children[k], s)
    requires ElementClosed(g.children[i], s')
    ensures forall k :: 0 <= k < |g.children| ==> ElementClosed(g.children[k], s')
  {
    forall k | 0 <= k < |g.children| && k != i
      ensures ElementClosed(g.children[k], s')
    {
      SiblingsDisjoint(g, i, k);
      ElementFrame(g.children[k], s, s');
    }
  }

  /** When the `i`-th branch stays closed, keys added below it keep every other branch closed too. */
  lemma BranchesFrame(f: Node, i: nat, s: Store, s': Store)
    requires Unique(f)
    requires i < |f.children|
    requires s.Keys <= s'.Keys && s'.Keys - s.Keys <= Paths(f.children[i])
    requires forall k :: 0 <= k < |f.children| ==> GroupClosed(f.children[k], s)
    requires GroupClosed(f.children[i], s')
    ensures forall k :: 0 <= k < |f.children| ==> GroupClosed(f.children[k], s')
  {
    forall k | 0 <= k < |f.children| && k != i
      ensures GroupClosed(f.children[k], s')
    {
      SiblingsDisjoint(f, i, k);
      GroupFrame(f.children[k], s, s');
    }
  }

  /** A walk of `g` keeps `g` closed. */
  lemma {:induction false} WalkGroupClosed(ctx: Ctx, g: Node, env: Env, opts: Opts, s: Store)
    requires Unique(g)
    requires GroupClosed(g, s)
    ensures GroupClosed(g, WalkGroup(ctx, g, env, opts, s).store)
    decreases g, 2, 0
  {
    if g.path !in s {
      var body := WalkChildren(ctx, g, 0, env, opts, s);
      WalkChildrenClosed(ctx, g, 0, env, opts, s);
      if body.Ok? {
        GroupRecorded(g, body.store, body.env);
      } else {
        assert g.path !in body.store;
      }
    }
  }

  /** Visiting the children of `g` from `i` on keeps every child closed. */
  lemma {:induction false} WalkChildrenClosed(ctx: Ctx, g: Node, i: nat, env: Env, opts: Opts, s: Store)
    requires Unique(g)
    requires i <= |g.children|
    requires forall k :: 0 <= k < |g.children| ==> ElementClosed(g.children[k], s)
    ensures var r := WalkChildren(ctx, g, i, env, opts, s);
      forall k :: 0 <= k < |g.children| ==> ElementClosed(g.children[k], r.store)
    decreases g, 1, |g.children| - i
  {
    if i < |g.children| {
      var c := g.children[i];
      var v := VisitChild(ctx, c, env, opts, s);
      assert forall k :: 0 <= k < |g.children| ==> ElementClosed(g.children[k], v.store) by {
        VisitChildClosed(ctx, c, env, opts, s);
        SiblingsFrame(g, i, s, v.store);
      }
      if v.Ok? {
        WalkChildrenClosed(ctx, g, i + 1, v.env, v.opts, v.store);
      }
      ChildrenStep(ctx, g, i, env, opts, s);
    }
  }

  /** Visiting a child keeps it closed; a recorded container has its children recorded. */
  lemma {:induction false} VisitChildClosed(ctx: Ctx, c: Node, env: Env, opts: Opts, s: Store)
    requires Unique(c)
    requires ElementClosed(c, s)
    ensures ElementClosed(c, VisitChild(ctx, c, env, opts, s).store)
    decreases c, 4, 0
  {
    if c.path !in s {
      var d := Dispatch(ctx, c, env, opts, s);
      DispatchClosed(ctx, c, env, opts, s);
      if d.Ok? {
        if IsGroupTag(c.tag) {
          GroupRecorded(c, d.store, d.env);
        } else if c.tag == "fork" {
          ForkRecorded(c, d.store, d.env);
        }
      }
    }
  }

  /** Dispatching an unrecorded element keeps it closed. */
  lemma {:induction false} DispatchClosed(ctx: Ctx, c: Node, env: Env, opts: Opts, s: Store)
    requires Unique(c)
    requires ElementClosed(c, s)
    requires c.path !in s
    ensures ElementClosed(c, Dispatch(ctx, c, env, opts, s).store)
    decreases c, 3, 0
  {
    if IsGroupTag(c.tag) {
      WalkGroupClosed(ctx, c, env, opts, s);
    } else if c.tag == "fork" {
      var r := WalkBranches(ctx, c, 0, env, opts, s);
      WalkBranchesClosed(ctx, c, 0, env, opts, s);
      assert c.path !in r.store;
    }
  }

  /** Walking the branches of a fork from `i` on keeps every branch closed. */
  lemma {:induction false} WalkBranchesClosed(ctx: Ctx, f: Node, i: nat, env: Env, opts: Opts, s: Store)
    requires Unique(f)
    requires i <= |f.children|
    requires forall k :: 0 <= k < |f.children| ==> GroupClosed(f.children[k], s)
    ensures var r := WalkBranches(ctx, f, i, env, opts, s);
      forall k :: 0 <= k < |f.children| ==> GroupClosed(f.children[k], r.store)
    decreases f, 2, |f.children| - i
  {
    if i < |f.children| {
      var b := WalkGroup(ctx, f.children[i], env, opts, s);
      assert forall k :: 0 <= k < |f.children| ==> GroupClosed(f.children[k], b.store) by {
        WalkGroupClosed(ctx, f.children[i], env, opts, s);
        BranchesFrame(f, i, s, b.store);
      }
      if b.Ok? {
        WalkBranchesClosed(ctx, f, i + 1, env, opts, b.store);
      }
      ForkStep(ctx, f, i, env, opts, s);
    }
  }
}
