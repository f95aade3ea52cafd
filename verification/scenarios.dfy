/**
 * Small documents run end to end: environment scoping, fork branch
 * isolation, resuming after a failure, and what a resume does not restore.
 * Shell commands are judged by the environment and options they receive.
 */
module Scenarios {
  import opened Base
  import opened Tree
  import opened Environment
  import opened Engine
  import opened Properties
  import opened Run

  const Red: map<string, string> := map["color" := "red"]

  /** A shell that succeeds only when `color` is `red` in the command's environment. */
  function NeedsRed(): Host
  {
    Host((cmd: string, env: Env, opts: Opts) => if "color" in env && env["color"] == "red" then Some(0) else Some(1),
        false, (code: string, p: Path, env: Env) => Returned(env, []))
  }

  /** A shell that fails as soon as `color` is set at all. */
  function NeedsNoColor(): Host
  {
    Host((cmd: string, env: Env, opts: Opts) => if "color" in env then Some(1) else Some(0),
        false, (code: string, p: Path, env: Env) => Returned(env, []))
  }

  /** A shell that succeeds only in `/tmp`. */
  function NeedsTmp(): Host
  {
    Host((cmd: string, env: Env, opts: Opts) => if opts.chdir == Some("/tmp") then Some(0) else Some(1),
        false, (code: string, p: Path, env: Env) => Returned(env, []))
  }

  function Leaf(tag: string, attrs: map<string, string>, text: Option<string>, path: Path): Node
  {
    Node(tag, attrs, text, [], path)
  }

  /** An unrecorded group's walk fails or succeeds with the walk of its children, failing with the same error and store. */
  lemma GroupStep(ctx: Ctx, g: Node, env: Env, opts: Opts, s: Store)
    requires g.path !in s
    ensures var b := WalkChildren(ctx, g, 0, env, opts, s);
      var o := WalkGroup(ctx, g, env, opts, s);
      && (o.Ok? <==> b.Ok?)
      && (o.Err? ==> o.error == b.error && o.store == b.store)
      && o.trace == [PerformGroup(g.path, env)] + b.trace
  {
  }

  // fork > (branch > env color=red, branch > shell)
  const RedEnv: Node := Leaf("env", Red, None, "a/e")
  const RedBranch: Node := Node("group", map[], None, [RedEnv], "a")
  const NoColorShell: Node := Leaf("shell", map[], Some("test -z $color"), "b/s")
  const ShellBranch: Node := Node("group", map[], None, [NoColorShell], "b")
  const TwoBranches: Node := Node("fork", map[], None, [RedBranch, ShellBranch], "f")

  /** The first branch records itself and its `env` element, and nothing else. */
  lemma RedBranchWalk()
    ensures var a := WalkGroup(Setup(NeedsNoColor(), map[]), RedBranch, map[], DefaultOpts, map[]);
      a.Ok? && a.store.Keys == {"a/e", "a"}
  {
    var ctx := Setup(NeedsNoColor(), map[]);
    var a1 := VisitChild(ctx, RedEnv, map[], DefaultOpts, map[]);
    assert a1.Ok? && a1.store.Keys == {"a/e"};
    assert WalkChildren(ctx, RedBranch, 1, a1.env, a1.opts, a1.store) == Ok(a1.env, a1.opts, a1.store, []);
    var ac := WalkChildren(ctx, RedBranch, 0, map[], DefaultOpts, map[]);
    assert ac.Ok? && ac.store == a1.store;
  }

  /** The second branch, started on the fork's environment, succeeds. */
  lemma ShellBranchWalk(s: Store)
    requires "b" !in s && "b/s" !in s
    ensures WalkGroup(Setup(NeedsNoColor(), map[]), ShellBranch, map[], DefaultOpts, s).Ok?
  {
    var ctx := Setup(NeedsNoColor(), map[]);
    var b1 := VisitChild(ctx, NoColorShell, map[], DefaultOpts, s);
    assert "color" !in ShellEnv(map[], NoColorShell.path);
    assert b1.Ok?;
    assert WalkChildren(ctx, ShellBranch, 1, b1.env, b1.opts, b1.store).Ok?;
    assert WalkChildren(ctx, ShellBranch, 0, map[], DefaultOpts, s).Ok?;
  }

  /** What one fork branch writes into its environment is not seen by its sibling branch. */
  lemma ForkBranchesDoNotShareEnv()
    ensures Dispatch(Setup(NeedsNoColor(), map[]), TwoBranches, map[], DefaultOpts, map[]).Ok?
  {
    var ctx := Setup(NeedsNoColor(), map[]);
    RedBranchWalk();
    var a := WalkGroup(ctx, RedBranch, map[], DefaultOpts, map[]);
    ShellBranchWalk(a.store);
    var b := WalkGroup(ctx, ShellBranch, map[], DefaultOpts, a.store);
    assert WalkBranches(ctx, TwoBranches, 2, map[], DefaultOpts, b.store).Ok?;
    assert WalkBranches(ctx, TwoBranches, 1, map[], DefaultOpts, a.store).Ok?;
  }

  // root > (env color=red, shell needing red)
  const SetRedTop: Node := Leaf("env", Red, None, "r/e")
  const RedShell: Node := Leaf("shell", map[], Some("test $color = red"), "r/s")
  const RedRoot: Node := Node("root", map[], None, [SetRedTop, RedShell], "r")

  /** The children of an `env`-then-shell scope, walked from the first one. */
  lemma EnvThenShellChildren(ctx: Ctx, g: Node, env: Env, opts: Opts, s: Store)
    requires |g.children| == 2
    requires g.children[0].tag == "env"
    requires g.children[1].tag == "shell" && g.children[1].text.Some?
    requires g.children[1].path !in s
    requires g.children[0].path != g.children[1].path
    ensures var c0, c1 := g.children[0], g.children[1];
      var skipped := c0.path in s;
      var env1 := if skipped then Merge(env, s[c0.path]) else Merge(env, c0.attrs);
      var status := ctx.shell(c1.text.value, ShellEnv(env1, c1.path), opts);
      var b := WalkChildren(ctx, g, 0, env, opts, s);
      && (b.Ok? <==> status == Some(0))
      && (b.Err? ==> b.error == ShellFailed(status) && b.store == (if skipped then s else s[c0.path := env1]))
      && (b.Ok? && skipped ==> |b.trace| > 0 && b.trace[0] == SkipElement(c0.path, env1))
  {
    var c0, c1 := g.children[0], g.children[1];
    var skipped := c0.path in s;
    var env1 := if skipped then Merge(env, s[c0.path]) else Merge(env, c0.attrs);
    var v := VisitChild(ctx, c0, env, opts, s);
    assert v.Ok? && v.env == env1 && v.opts == opts && v.store == (if skipped then s else s[c0.path := env1])
      && (skipped ==> v.trace == [SkipElement(c0.path, env1)]) by {
      if !skipped {
        EnvChildUpdatesScope(ctx, c0, env, opts, s);
      }
    }
    assert c1.path !in v.store;
    ShellVisit(ctx, c1, v.env, v.opts, v.store);
    var rest := WalkChildren(ctx, g, 1, v.env, v.opts, v.store);
    assert (rest.Ok? <==> VisitChild(ctx, c1, v.env, v.opts, v.store).Ok?)
      && (rest.Err? ==> rest == VisitChild(ctx, c1, v.env, v.opts, v.store)) by {
      ChildrenStep(ctx, g, 1, v.env, v.opts, v.store);
    }
    assert WalkChildren(ctx, g, 0, env, opts, s) == After(v.trace, rest) by {
      ChildrenStep(ctx, g, 0, env, opts, s);
    }
  }

  /**
   * A scope holding an `env` element and then a shell element: the shell
   * sees the `env`'s variables whether the `env` is performed in this walk
   * or skipped as recorded, since a skipped element's stored environment
   * is merged back in. A failed shell leaves only the `env`'s entry behind.
   */
  lemma EnvThenShell(ctx: Ctx, g: Node, env: Env, opts: Opts, s: Store)
    requires |g.children| == 2
    requires g.children[0].tag == "env"
    requires g.children[1].tag == "shell" && g.children[1].text.Some?
    requires g.path !in s && g.children[1].path !in s
    requires g.children[0].path != g.children[1].path
    ensures var c0, c1 := g.children[0], g.children[1];
      var skipped := c0.path in s;
      var env1 := if skipped then Merge(env, s[c0.path]) else Merge(env, c0.attrs);
      var status := ctx.shell(c1.text.value, ShellEnv(env1, c1.path), opts);
      var o := WalkGroup(ctx, g, env, opts, s);
      && (o.Ok? <==> status == Some(0))
      && (o.Err? ==> o.error == ShellFailed(status) && o.store == (if skipped then s else s[c0.path := env1]))
      && (o.Ok? && skipped ==> |o.trace| > 1 && o.trace[1] == SkipElement(c0.path, env1))
  {
    EnvThenShellChildren(ctx, g, env, opts, s);
    GroupStep(ctx, g, env, opts, s);
  }

  /**
   * Resuming after a failure: the rerun skips what finished, restores the
   * environment it left, retries the failed shell and completes.
   */
  lemma ResumeAfterFailure()
    ensures var r1 := Perform(ShellOnly(1), map[], Doc(RedRoot, None, false), [], false);
      var r2 := Perform(NeedsRed(), map[], r1.doc, [], false);
      && r1.error == Some(ShellFailed(Some(1)))
      && r1.doc.resumes == Some(map["r/e" := Red])
      && r2.error.None?
      && r2.doc.complete
      && |r2.trace| > 1 && r2.trace[1] == SkipElement("r/e", Red)
  {
    assert Coerce([]) == map[];
    var s: Store := map["r/e" := Red];
    EnvThenShell(Setup(ShellOnly(1), map[]), RedRoot, map[], DefaultOpts, map[]);
    assert Merge(map[], Red) == Red;
    EnvThenShell(Setup(NeedsRed(), map[]), RedRoot, map[], DefaultOpts, s);
    assert ShellEnv(Red, "r/s")["color"] == "red";
  }

  // root > (chdir /tmp, shell needing /tmp)
  const ToTmp: Node := Leaf("chdir", map[], Some("/tmp"), "q/c")
  const TmpShell: Node := Leaf("shell", map[], Some("make"), "q/s")
  const TmpRoot: Node := Node("root", map[], None, [ToTmp, TmpShell], "q")

  lemma StripTmp()
    ensures Strip("/tmp") == "/tmp"
  {
    assert StripStart("/tmp") == "/tmp";
    assert StripEnd("/tmp") == "/tmp";
  }

  /** Visiting an unrecorded `chdir` element sets the working directory to its stripped text and records the element. */
  lemma ChdirVisit(ctx: Ctx, c: Node, env: Env, opts: Opts, s: Store)
    requires c.tag == "chdir" && c.text.Some? && c.path !in s
    ensures var v := VisitChild(ctx, c, env, opts, s);
      v.Ok? && v.env == env && v.opts == opts.(chdir := Some(Strip(c.text.value))) && v.store == s[c.path := env]
  {
    var d := Dispatch(ctx, c, env, opts, s);
    assert d.Ok? && d.env == env && d.store == s;
  }

  /** Visiting an unrecorded shell element succeeds exactly when its command exits with 0, and changes no scope. */
  lemma ShellVisit(ctx: Ctx, c: Node, env: Env, opts: Opts, s: Store)
    requires c.tag == "shell" && c.text.Some? && c.path !in s
    ensures var w := VisitChild(ctx, c, env, opts, s);
      var status := ctx.shell(c.text.value, ShellEnv(env, c.path), opts);
      && (w.Ok? <==> status == Some(0))
      && (w.Ok? ==> w.env == env && w.opts == opts && w.store == s[c.path := env])
      && (w.Err? ==> w.store == s && w.error == ShellFailed(status))
  {
  }

  /**
   * A scope holding a `chdir` element and then a shell element: the shell
   * runs in the `chdir`'s directory only when the `chdir` is performed in
   * this walk. When the `chdir` is already recorded, it is skipped, its
   * stored environment is merged in, and the shell runs with the scope's
   * own options. A failed shell leaves only the `chdir`'s entry behind.
   */
  lemma ChdirThenShell(ctx: Ctx, g: Node, env: Env, opts: Opts, s: Store)
    requires |g.children| == 2
    requires g.children[0].tag == "chdir" && g.children[0].text.Some?
    requires g.children[1].tag == "shell" && g.children[1].text.Some?
    requires g.path !in s && g.children[1].path !in s
    requires g.children[0].path != g.children[1].path
    ensures var c0, c1 := g.children[0], g.children[1];
      var skipped := c0.path in s;
      var env1 := if skipped then Merge(env, s[c0.path]) else env;
      var opts1 := if skipped then opts else opts.(chdir := Some(Strip(c0.text.value)));
      var status := ctx.shell(c1.text.value, ShellEnv(env1, c1.path), opts1);
      var o := WalkGroup(ctx, g, env, opts, s);
      && (o.Ok? <==> status == Some(0))
      && (o.Err? ==> o.error == ShellFailed(status) && o.store == (if skipped then s else s[c0.path := env]))
  {
    var c0, c1 := g.children[0], g.children[1];
    var v := VisitChild(ctx, c0, env, opts, s);
    if c0.path !in s {
      ChdirVisit(ctx, c0, env, opts, s);
    }
    assert c1.path !in v.store;
    ShellVisit(ctx, c1, v.env, v.opts, v.store);
    ChildrenStep(ctx, g, 1, v.env, v.opts, v.store);
    ChildrenStep(ctx, g, 0, env, opts, s);
    GroupStep(ctx, g, env, opts, s);
  }

  /**
   * A resume does not restore the working directory: the run that failed
   * after a `chdir` is resumed without it, and a shell that passes on a
   * fresh run fails on the resumed one.
   */
  lemma ResumeForgetsChdir()
    ensures var r1 := Perform(ShellOnly(1), map[], Doc(TmpRoot, None, false), [], false);
      var resumed := Perform(NeedsTmp(), map[], r1.doc, [], false);
      var anew := Perform(NeedsTmp(), map[], r1.doc, [], true);
      && r1.doc.resumes == Some(map["q/c" := map[]])
      && resumed.error == Some(ShellFailed(Some(1)))
      && anew.error.None?
  {
    assert Coerce([]) == map[];
    var s: Store := map["q/c" := map[]];
    ChdirThenShell(Setup(ShellOnly(1), map[]), TmpRoot, map[], DefaultOpts, map[]);
    ChdirThenShell(Setup(NeedsTmp(), map[]), TmpRoot, map[], DefaultOpts, s);
    assert Merge(map[], s["q/c"]) == map[];
    ChdirThenShell(Setup(NeedsTmp(), map[]), TmpRoot, map[], DefaultOpts, map[]);
    StripTmp();
  }

  // root > (env color=red, eval of a script that does not parse)
  const RedFirst: Node := Leaf("env", Red, None, "v/e")
  const BadEval: Node := Leaf("eval", map[], Some("1 +"), "v/x")
  const EvalRoot: Node := Node("root", map[], None, [RedFirst, BadEval], "v")

  /** `eval` is allowed, and every script raises a `SyntaxError`, which is not a `StandardError`. */
  function SyntaxErrors(): Host
  {
    Host((cmd: string, env: Env, opts: Opts) => Some(0), true, (code: string, p: Path, env: Env) => Escaped("SyntaxError"))
  }

  /**
   * An exception outside `StandardError` loses the run: the walk recorded
   * the `env` before the `eval` raised, but the exception escapes `perform`,
   * so no resumes are written back and no error is recorded.
   */
  lemma UncaughtRaiseLosesRun()
    ensures var doc := Doc(EvalRoot, None, false);
      var o := Execute(SyntaxErrors(), map[], doc, [], false);
      var r := Perform(SyntaxErrors(), map[], doc, [], false);
      && o.Err? && o.store == map["v/e" := Red]
      && r.escaped == Some("SyntaxError") && r.error.None?
      && r.doc == doc
  {
    var ctx := Setup(SyntaxErrors(), map[]);
    assert Coerce([]) == map[];
    EnvChildUpdatesScope(ctx, RedFirst, map[], DefaultOpts, map[]);
    var v := VisitChild(ctx, RedFirst, map[], DefaultOpts, map[]);
    assert Merge(map[], Red) == Red;
    var d := Dispatch(ctx, BadEval, v.env, v.opts, v.store);
    assert d == Err(Uncaught("SyntaxError"), v.store, []);
    ChildrenStep(ctx, EvalRoot, 1, v.env, v.opts, v.store);
    ChildrenStep(ctx, EvalRoot, 0, map[], DefaultOpts, map[]);
    GroupStep(ctx, EvalRoot, map[], DefaultOpts, map[]);
  }
}
