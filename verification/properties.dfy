/**
 * Properties of the walk that relate several calls: what skipping a
 * recorded element means, what a failure leaves behind, how fork
 * branches are treated, and which scope sees which changes.
 */
module Properties {
  import opened Base
  import opened Tree
  import opened Environment
  import opened Engine

  /**
   * A group that is already recorded is not entered: the stored
   * environment is merged over the current one (stored keys win), one
   * "skip group" line is written, and the store is left as it was.
   */
  lemma SkippedGroupNotEntered(ctx: Ctx, g: Node, env: Env, opts: Opts, s: Store)
    requires g.path in s
    ensures var r := WalkGroup(ctx, g, env, opts, s);
      && r.Ok?
      && r.store == s
      && r.opts == opts
      && r.env.Keys == env.Keys + s[g.path].Keys
      && (forall k :: k in s[g.path] ==> r.env[k] == s[g.path][k])
      && (forall k :: k in env && k !in s[g.path] ==> r.env[k] == env[k])
      && r.trace == [SkipGroup(g.path, r.env)]
  {
  }

  /**
   * A recorded child is not dispatched: the walk of the remaining
   * children goes on from the next sibling with the stored environment
   * merged into the scope, after one "skip element" line.
   */
  lemma SkippedChildNotDispatched(ctx: Ctx, g: Node, i: nat, env: Env, opts: Opts, s: Store)
    requires i < |g.children|
    requires g.children[i].path in s
    ensures var c := g.children[i];
      var merged := Merge(env, s[c.path]);
      WalkChildren(ctx, g, i, env, opts, s)
        == After([SkipElement(c.path, merged)], WalkChildren(ctx, g, i + 1, merged, opts, s))
  {
  }

  /** A group whose walk fails is not recorded. */
  lemma FailedGroupNotRecorded(ctx: Ctx, g: Node, env: Env, opts: Opts, s: Store)
    requires Unique(g)
    requires g.path !in s
    requires WalkGroup(ctx, g, env, opts, s).Err?
    ensures g.path !in WalkGroup(ctx, g, env, opts, s).store
  {
  }

  /** An element whose dispatch fails is not recorded. */
  lemma FailedChildNotRecorded(ctx: Ctx, c: Node, env: Env, opts: Opts, s: Store)
    requires Unique(c)
    requires c.path !in s
    requires VisitChild(ctx, c, env, opts, s).Err?
    ensures c.path !in VisitChild(ctx, c, env, opts, s).store
  {
  }

  /**
   * When the `i`-th child fails, the walk of the scope fails with the
   * child's store and events: no later sibling is entered, skipped or
   * recorded, while what was recorded before the failure stays.
   */
  lemma FailureStopsSiblings(ctx: Ctx, g: Node, i: nat, env: Env, opts: Opts, s: Store)
    requires Unique(g)
    requires i < |g.children|
    requires VisitChild(ctx, g.children[i], env, opts, s).Err?
    ensures var r := WalkChildren(ctx, g, i, env, opts, s);
      && r.Err?
      && r.error == VisitChild(ctx, g.children[i], env, opts, s).error
      && Extends(s, r.store)
      && forall k :: i < k < |g.children| ==>
           && (r.store.Keys - s.Keys) !! Paths(g.children[k])
           && (forall e :: e in r.trace && e.Visits() ==> e.path !in Paths(g.children[k]))
  {
    forall k | i < k < |g.children|
      ensures Paths(g.children[i]) !! Paths(g.children[k])
    {
      SiblingsDisjoint(g, i, k);
    }
  }

  /** The children of two elements with the same children and path are walked alike. */
  lemma {:induction false} WalkChildrenIgnoresTag(ctx: Ctx, g: Node, t: string, i: nat, env: Env, opts: Opts, s: Store)
    requires i <= |g.children|
    ensures WalkChildren(ctx, g.(tag := t), i, env, opts, s) == WalkChildren(ctx, g, i, env, opts, s)
    decreases |g.children| - i
  {
    if i < |g.children| {
      var v := VisitChild(ctx, g.children[i], env, opts, s);
      if v.Ok? {
        WalkChildrenIgnoresTag(ctx, g, t, i + 1, v.env, v.opts, v.store);
      }
    }
  }

  /** Walking an element as a group never looks at its tag. */
  lemma GroupWalkIgnoresTag(ctx: Ctx, g: Node, t: string, env: Env, opts: Opts, s: Store)
    ensures WalkGroup(ctx, g.(tag := t), env, opts, s) == WalkGroup(ctx, g, env, opts, s)
  {
    WalkChildrenIgnoresTag(ctx, g, t, 0, env, opts, s);
  }

  /** A fork whose `j`-th branch is retagged. */
  function Retag(f: Node, j: nat, t: string): (f': Node)
    requires j < |f.children|
    ensures f'.tag == f.tag && f'.path == f.path && |f'.children| == |f.children|
    ensures f'.children[j] == f.children[j].(tag := t)
    ensures forall k :: 0 <= k < |f.children| && k != j ==> f'.children[k] == f.children[k]
  {
    f.(children := f.children[j := f.children[j].(tag := t)])
  }

  /** One step of a fork: equal first branches and equal remaining walks give equal walks. */
  lemma BranchesStep(ctx: Ctx, f: Node, f': Node, i: nat, env: Env, opts: Opts, s: Store)
    requires |f'.children| == |f.children| && i < |f.children|
    requires WalkGroup(ctx, f'.children[i], env, opts, s) == WalkGroup(ctx, f.children[i], env, opts, s)
    requires var b := WalkGroup(ctx, f.children[i], env, opts, s);
      b.Ok? ==> WalkBranches(ctx, f', i + 1, env, opts, b.store) == WalkBranches(ctx, f, i + 1, env, opts, b.store)
    ensures WalkBranches(ctx, f', i, env, opts, s) == WalkBranches(ctx, f, i, env, opts, s)
  {
  }

  /** Each branch of the retagged fork is walked as the original branch is. */
  lemma RetaggedBranch(ctx: Ctx, f: Node, j: nat, t: string, i: nat, env: Env, opts: Opts, s: Store)
    requires j < |f.children| && i < |f.children|
    ensures WalkGroup(ctx, Retag(f, j, t).children[i], env, opts, s) == WalkGroup(ctx, f.children[i], env, opts, s)
  {
    if i == j {
      GroupWalkIgnoresTag(ctx, f.children[i], t, env, opts, s);
    }
  }

  /** One step of the retagged fork: the retagged branch is walked as the original, so equal remaining walks give equal walks. */
  lemma RetaggedBranchesStep(ctx: Ctx, f: Node, f': Node, j: nat, t: string, i: nat, env: Env, opts: Opts, s: Store)
    requires j < |f.children| && i < |f.children|
    requires f' == Retag(f, j, t)
    requires var b := WalkGroup(ctx, f.children[i], env, opts, s);
      b.Ok? ==> WalkBranches(ctx, f', i + 1, env, opts, b.store) == WalkBranches(ctx, f, i + 1, env, opts, b.store)
    ensures WalkBranches(ctx, f', i, env, opts, s) == WalkBranches(ctx, f, i, env, opts, s)
  {
    RetaggedBranch(ctx, f, j, t, i, env, opts, s);
    BranchesStep(ctx, f, f', i, env, opts, s);
  }

  /** The induction step of `BranchesIgnoreBranchTag`: the rest of the fork, then this branch. */
  lemma {:induction false} BranchesIgnoreNext(ctx: Ctx, f: Node, f': Node, j: nat, t: string, i: nat, env: Env, opts: Opts, s: Store)
    requires j < |f.children| && i < |f.children|
    requires f' == Retag(f, j, t)
    ensures WalkBranches(ctx, f', i, env, opts, s) == WalkBranches(ctx, f, i, env, opts, s)
    decreases |f.children| - i, 0
  {
    var b := WalkGroup(ctx, f.children[i], env, opts, s);
    assert b.Ok? ==> WalkBranches(ctx, f', i + 1, env, opts, b.store) == WalkBranches(ctx, f, i + 1, env, opts, b.store) by {
      if b.Ok? {
        BranchesIgnoreBranchTag(ctx, f, f', j, t, i + 1, env, opts, b.store);
      }
    }
    RetaggedBranchesStep(ctx, f, f', j, t, i, env, opts, s);
  }

  lemma {:induction false} BranchesIgnoreBranchTag(ctx: Ctx, f: Node, f': Node, j: nat, t: string, i: nat, env: Env, opts: Opts, s: Store)
    requires j < |f.children| && i <= |f.children|
    requires f' == Retag(f, j, t)
    ensures WalkBranches(ctx, f', i, env, opts, s) == WalkBranches(ctx, f, i, env, opts, s)
    decreases |f.children| - i, 1
  {
    if i < |f.children| {
      BranchesIgnoreNext(ctx, f, f', j, t, i, env, opts, s);
    }
  }

  /**
   * The direct children of a fork are walked as groups, not dispatched by
   * their own tag: retagging a branch (to `shell`, `env`, an unknown tag,
   * anything) does not change what the fork does.
   */
  lemma ForkBranchTagIgnored(ctx: Ctx, f: Node, j: nat, t: string, env: Env, opts: Opts, s: Store)
    requires f.tag == "fork"
    requires j < |f.children|
    ensures Dispatch(ctx, Retag(f, j, t), env, opts, s) == Dispatch(ctx, f, env, opts, s)
  {
    BranchesIgnoreBranchTag(ctx, f, Retag(f, j, t), j, t, 0, env, opts, s);
  }

  /**
   * A group or fork child runs on copies: the scope's environment and
   * options are the same after it, and the entry recorded for the child is
   * the scope's environment, which replaces the entry the child's own
   * group walk wrote for the same path.
   */
  lemma ContainerChildKeepsScope(ctx: Ctx, c: Node, env: Env, opts: Opts, s: Store)
    requires IsContainerTag(c.tag)
    requires c.path !in s
    requires VisitChild(ctx, c, env, opts, s).Ok?
    ensures var r := VisitChild(ctx, c, env, opts, s);
      r.env == env && r.opts == opts && r.store[c.path] == env
  {
  }

  /** What an `env` child writes is seen by the rest of its scope and recorded with it. */
  lemma EnvChildUpdatesScope(ctx: Ctx, c: Node, env: Env, opts: Opts, s: Store)
    requires c.tag == "env"
    requires c.path !in s
    ensures var r := VisitChild(ctx, c, env, opts, s);
      && r.Ok?
      && r.opts == opts
      && r.env == Merge(env, c.attrs)
      && (forall k :: k in c.attrs ==> r.env[k] == c.attrs[k])
      && (forall k :: k in env && k !in c.attrs ==> r.env[k] == env[k])
      && r.store == s[c.path := r.env]
  {
  }
}
