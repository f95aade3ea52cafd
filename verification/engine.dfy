/**
 * The resumable tree walk of `WorkflowHaml#__perform`, made sequential:
 * fork branches run one after another in document order, each on its own
 * copies of the environment and options, and every completion entry is
 * written to the resume store at the moment the walk would enqueue it.
 *
 * Side effects become parameters (`Ctx`): the exit status of a shell
 * command, the plugin registry, and the `eval` facility.
 */
module Engine {
  import opened Base
  import opened Tree
  import opened Environment

  /** Options handed to the subprocess: an optional working directory and the two isolation flags. */
  datatype Opts = Opts(chdir: Option<string>, unsetenvOthers: bool, pgroup: bool)

  /** `OPEN3_DEFAULT_OPTS`: clear inherited variables, run in a new process group. */
  const DefaultOpts: Opts := Opts(None, true, true)

  /**
   * What a plugin or an evaluated script does: return an environment and
   * output lines, raise a `StandardError`, or raise an exception outside
   * `StandardError` (a `SyntaxError` from `eval`, a `NotImplementedError`,
   * an `Interrupt`), which the run's `rescue => e` does not catch.
   */
  datatype Hook =
    | Returned(env: Env, lines: seq<string>)
    | Raised(message: string)
    | Escaped(message: string)

  type Plugin = (Node, Env) -> Hook

  type Registry = map<string, Plugin>

  /**
   * The walk's collaborators. `shell` gives the exit status of a command
   * run with an environment and options (`None` when the process did not
   * exit normally); `evalHook` stands for Ruby's `eval` of an element's
   * text and may change the environment or raise.
   */
  datatype Ctx = Ctx(
    shell: (string, Env, Opts) -> Option<int>,
    plugins: Registry,
    allowEval: bool,
    evalHook: (string, Path, Env) -> Hook)

  /**
   * Why a walk stopped. `Uncaught` is an exception outside `StandardError`:
   * it leaves the walk like the others but is not caught by the run.
   */
  datatype Error =
    | UnknownTag(tag: string, at: Path)
    | EvalNotAllowed
    | ShellFailed(status: Option<int>)
    | PluginRaised(tag: string, message: string)
    | EvalRaised(message: string)
    | MissingText(tag: string, at: Path)
    | Uncaught(message: string)

  /** Lines written to the system channel. */
  datatype Event =
    | SkipGroup(path: Path, env: Env)
    | PerformGroup(path: Path, env: Env)
    | SkipElement(path: Path, env: Env)
    | PerformElement(path: Path, tag: string, env: Env)
    | PluginLine(line: string)
    | Failure(error: Error)
  {
    /** The event reports that an element was entered or skipped. */
    predicate Visits()
    {
      SkipGroup? || PerformGroup? || SkipElement? || PerformElement?
    }

    /** The event reports that an element was entered. */
    predicate Performs()
    {
      PerformGroup? || PerformElement?
    }
  }

  /**
   * The result of walking part of the tree: the scope's environment and
   * options afterwards, or the error that stopped the walk; in both cases
   * the resume store and the events written so far.
   */
  datatype Outcome =
    | Ok(env: Env, opts: Opts, store: Store, trace: seq<Event>)
    | Err(error: Error, store: Store, trace: seq<Event>)

  /** Every element visit in `trace` is of an element whose path is in `ps`. */
  ghost predicate VisitsWithin(trace: seq<Event>, ps: set<Path>)
  {
    forall e :: e in trace && e.Visits() ==> e.path in ps
  }

  /** No element whose path is in `ps` is entered in `trace`. */
  ghost predicate PerformsNone(trace: seq<Event>, ps: set<Path>)
  {
    forall e :: e in trace && e.Performs() ==> e.path !in ps
  }

  /** Every child of `n` has an entry in `s`. */
  ghost predicate ChildrenIn(n: Node, s: Store)
  {
    forall i :: 0 <= i < |n.children| ==> n.children[i].path in s
  }

  predicate IsGroupTag(tag: string)
  {
    tag == "group" || tag == "root"
  }

  /** Tags whose elements walk their own children. */
  predicate IsContainerTag(tag: string)
  {
    IsGroupTag(tag) || tag == "fork"
  }

  /** Tags the engine handles itself; a plugin registered under one of them is never called. */
  predicate IsBuiltinTag(tag: string)
  {
    IsContainerTag(tag) || tag == "chdir" || tag == "env" || tag == "eval" || tag == "shell"
  }

  function PluginLines(lines: seq<string>): (tr: seq<Event>)
    ensures |tr| == |lines|
    ensures forall k :: 0 <= k < |lines| ==> tr[k] == PluginLine(lines[k])
  {
    if lines == [] then [] else [PluginLine(lines[0])] + PluginLines(lines[1..])
  }

  /** `o` with `prefix` written before its own events. */
  function After(prefix: seq<Event>, o: Outcome): (r: Outcome)
    ensures r.Ok? == o.Ok? && r.store == o.store && r.trace == prefix + o.trace
    ensures r.Ok? ==> r.env == o.env && r.opts == o.opts
    ensures r.Err? ==> r.error == o.error
  {
    o.(trace := prefix + o.trace)
  }

  /**
   * Walks `g` as a group. A group already in the store is not entered:
   * its stored environment is merged over `env` and nothing else happens.
   * Otherwise the children are visited in order and, if none failed, `g`
   * is recorded with the environment the children left behind.
   */
  function WalkGroup(ctx: Ctx, g: Node, env: Env, opts: Opts, store: Store): (r: Outcome)
    decreases g, 2, 0
    ensures Extends(store, r.store)
    ensures r.store.Keys - store.Keys <= Paths(g)
    ensures r.Err? ==> r.store.Keys - store.Keys <= Desc(g)
    ensures r.Ok? ==> g.path in r.store
    ensures r.Ok? && g.path !in store ==> ChildrenIn(g, r.store) && r.store[g.path] == r.env
    ensures VisitsWithin(r.trace, Paths(g))
    ensures PerformsNone(r.trace, store.Keys)
  {
    if g.path in store then
      var merged := Merge(env, store[g.path]);
      Ok(merged, opts, store, [SkipGroup(g.path, merged)])
    else
      DescPaths(g, 0);
      var body := WalkChildren(ctx, g, 0, env, opts, store);
      var tr := [PerformGroup(g.path, env)] + body.trace;
      if body.Err? then After([PerformGroup(g.path, env)], body)
      else Ok(body.env, body.opts, body.store[g.path := body.env], tr)
  }

  /** Visits the children of `g` from index `i` on, stopping at the first failure. */
  function WalkChildren(ctx: Ctx, g: Node, i: nat, env: Env, opts: Opts, store: Store): (r: Outcome)
    requires i <= |g.children|
    decreases g, 1, |g.children| - i
    ensures Extends(store, r.store)
    ensures r.store.Keys - store.Keys <= PathsFrom(g, i)
    ensures r.Ok? ==> forall k :: i <= k < |g.children| ==> g.children[k].path in r.store
    ensures VisitsWithin(r.trace, PathsFrom(g, i))
    ensures PerformsNone(r.trace, store.Keys)
  {
    if i == |g.children| then
      PathsFromEnd(g, i);
      Ok(env, opts, store, [])
    else
      PathsFromStep(g, i);
      var v := VisitChild(ctx, g.children[i], env, opts, store);
      if v.Err? then v
      else After(v.trace, WalkChildren(ctx, g, i + 1, v.env, v.opts, v.store))
  }

  /**
   * One child of a group: skipped, with its stored environment merged in,
   * when it is in the store; otherwise dispatched by tag and, on success,
   * recorded with the scope's environment after the dispatch.
   */
  function VisitChild(ctx: Ctx, c: Node, env: Env, opts: Opts, store: Store): (r: Outcome)
    decreases c, 4, 0
    ensures Extends(store, r.store)
    ensures r.store.Keys - store.Keys <= Paths(c)
    ensures r.Err? ==> r.store.Keys - store.Keys <= Desc(c)
    ensures r.Ok? ==> c.path in r.store
    ensures r.Ok? && c.path !in store ==> r.store[c.path] == r.env
    ensures VisitsWithin(r.trace, Paths(c))
    ensures PerformsNone(r.trace, store.Keys)
  {
    if c.path in store then
      var merged := Merge(env, store[c.path]);
      Ok(merged, opts, store, [SkipElement(c.path, merged)])
    else
      var d := Dispatch(ctx, c, env, opts, store);
      var tr := [PerformElement(c.path, c.tag, env)] + d.trace;
      if d.Err? then After([PerformElement(c.path, c.tag, env)], d)
      else Ok(d.env, d.opts, d.store[c.path := d.env], tr)
  }

  /**
   * Runs one element according to its tag. Groups and forks work on copies
   * of the environment and options, so their changes never come back;
   * `chdir` changes the working directory and `env` the environment for the
   * rest of the scope; any other tag is a plugin or an error.
   */
  function Dispatch(ctx: Ctx, c: Node, env: Env, opts: Opts, store: Store): (r: Outcome)
    decreases c, 3, 0
    ensures Extends(store, r.store)
    ensures r.store.Keys - store.Keys <= Paths(c)
    ensures r.Err? ==> r.store.Keys - store.Keys <= Desc(c)
    ensures !IsContainerTag(c.tag) ==> r.store == store
    ensures r.Ok? && IsContainerTag(c.tag) && c.path !in store ==> ChildrenIn(c, r.store)
    ensures VisitsWithin(r.trace, Paths(c))
    ensures PerformsNone(r.trace, store.Keys)
    // scoping: only `chdir` touches the options; groups, forks, `chdir` and `shell` leave the environment alone
    ensures r.Ok? && c.tag != "chdir" ==> r.opts == opts
    ensures r.Ok? && (IsContainerTag(c.tag) || c.tag == "chdir" || c.tag == "shell") ==> r.env == env
    ensures c.tag == "env" ==> r.Ok? && r.env == Merge(env, c.attrs) && r.trace == []
    ensures c.tag == "chdir" ==> (r.Ok? <==> c.text.Some?)
    ensures c.tag == "chdir" && r.Ok? ==> r.opts == opts.(chdir := Some(Strip(c.text.value)))
    // failures
    ensures c.tag == "eval" && !ctx.allowEval ==> r.Err? && r.error == EvalNotAllowed
    ensures c.tag == "shell" && c.text.Some? ==>
      var status := ctx.shell(c.text.value, ShellEnv(env, c.path), opts);
      (r.Ok? <==> status == Some(0)) && (r.Err? ==> r.error == ShellFailed(status))
    ensures !IsBuiltinTag(c.tag) && c.tag !in ctx.plugins ==> r.Err? && r.error == UnknownTag(c.tag, c.path)
    ensures !IsContainerTag(c.tag) && r.Err? && r.error.UnknownTag? ==> !IsBuiltinTag(c.tag) && c.tag !in ctx.plugins
  {
    if IsGroupTag(c.tag) then
      var inner := WalkGroup(ctx, c, env, opts, store);
      if inner.Err? then inner else Ok(env, opts, inner.store, inner.trace)
    else if c.tag == "chdir" then
      if c.text.None? then Err(MissingText(c.tag, c.path), store, [])
      else Ok(env, opts.(chdir := Some(Strip(c.text.value))), store, [])
    else if c.tag == "fork" then
      DescPaths(c, 0);
      WalkBranches(ctx, c, 0, env, opts, store)
    else if c.tag == "env" then
      Ok(Merge(env, c.attrs), opts, store, [])
    else if c.tag == "eval" then
      if !ctx.allowEval then Err(EvalNotAllowed, store, [])
      else if c.text.None? then Err(MissingText(c.tag, c.path), store, [])
      else
        match ctx.evalHook(c.text.value, c.path, env)
        case Returned(env', _) => Ok(env', opts, store, [])
        case Raised(message) => Err(EvalRaised(message), store, [])
        case Escaped(message) => Err(Uncaught(message), store, [])
    else if c.tag == "shell" then
      if c.text.None? then Err(MissingText(c.tag, c.path), store, [])
      else
        var status := ctx.shell(c.text.value, ShellEnv(env, c.path), opts);
        if status == Some(0) then Ok(env, opts, store, [])
        else Err(ShellFailed(status), store, [])
    else if c.tag in ctx.plugins then
      match ctx.plugins[c.tag](c, env)
      case Returned(env', lines) => Ok(env', opts, store, PluginLines(lines))
      case Raised(message) => Err(PluginRaised(c.tag, message), store, [])
      case Escaped(message) => Err(Uncaught(message), store, [])
    else
      Err(UnknownTag(c.tag, c.path), store, [])
  }

  /**
   * The branches of a fork from index `i` on. Each child of the fork is
   * walked as a group (its own tag is never looked at) on the fork's
   * environment and options; the first failing branch stops the rest.
   */
  function WalkBranches(ctx: Ctx, f: Node, i: nat, env: Env, opts: Opts, store: Store): (r: Outcome)
    requires i <= |f.children|
    decreases f, 2, |f.children| - i
    ensures Extends(store, r.store)
    ensures r.store.Keys - store.Keys <= PathsFrom(f, i)
    ensures r.Ok? ==> r.env == env && r.opts == opts
    ensures r.Ok? ==> forall k :: i <= k < |f.children| ==> f.children[k].path in r.store
    ensures VisitsWithin(r.trace, PathsFrom(f, i))
    ensures PerformsNone(r.trace, store.Keys)
  {
    if i == |f.children| then
      PathsFromEnd(f, i);
      Ok(env, opts, store, [])
    else
      PathsFromStep(f, i);
      var b := WalkGroup(ctx, f.children[i], env, opts, store);
      if b.Err? then b
      else
        var rest := WalkBranches(ctx, f, i + 1, env, opts, b.store);
        if rest.Err? then After(b.trace, rest)
        else Ok(env, opts, rest.store, b.trace + rest.trace)
  }

  /** One step of the walk over a scope's children: the failing child's outcome, or its events before the rest of the walk. */
  lemma ChildrenStep(ctx: Ctx, g: Node, i: nat, env: Env, opts: Opts, store: Store)
    requires i < |g.children|
    ensures var v := VisitChild(ctx, g.children[i], env, opts, store);
      && (v.Err? ==> WalkChildren(ctx, g, i, env, opts, store) == v)
      && (v.Ok? ==> WalkChildren(ctx, g, i, env, opts, store) == After(v.trace, WalkChildren(ctx, g, i + 1, v.env, v.opts, v.store)))
  {
  }

  /**
   * One step of the walk over a fork's branches: the failing branch's
   * outcome, or its events before the rest of the walk. The next branch
   * starts from the fork's own environment and options, not from the ones
   * the branch before it left.
   */
  lemma ForkStep(ctx: Ctx, f: Node, i: nat, env: Env, opts: Opts, store: Store)
    requires i < |f.children|
    ensures var b := WalkGroup(ctx, f.children[i], env, opts, store);
      && (b.Err? ==> WalkBranches(ctx, f, i, env, opts, store) == b)
      && (b.Ok? ==> WalkBranches(ctx, f, i, env, opts, store) == After(b.trace, WalkBranches(ctx, f, i + 1, env, opts, b.store)))
  {
  }
}
