/**
 * `WorkflowHaml#perform`: one run over the document. It picks the resume
 * store to start from, converts the initial environment to strings, walks
 * the root as a group, and writes the store back onto the root together
 * with the completion flag.
 */
module Run {
  import opened Base
  import opened Tree
  import opened Environment
  import opened Engine
  import opened Closure
  import opened Plugins

  /**
   * The document between runs: the root element and the two attributes the
   * engine keeps on it, the serialized resume store (`resumes`) and the
   * completion flag (`complete`).
   */
  datatype Doc = Doc(root: Node, resumes: Option<Store>, complete: bool)

  /**
   * The document after a run, the error that ended it (if any), the
   * exception that left `perform` uncaught (if any) and the system
   * channel's lines.
   */
  datatype RunResult = RunResult(doc: Doc, error: Option<Error>, escaped: Option<string>, trace: seq<Event>)
  {
    /** The run ended without an error and without an exception escaping. */
    predicate Clean()
    {
      error.None? && escaped.None?
    }
  }

  /** What a run is given from outside: the shell, `allow_eval`, and the `eval` facility. */
  datatype Host = Host(
    shell: (string, Env, Opts) -> Option<int>,
    allowEval: bool,
    evalHook: (string, Path, Env) -> Hook)

  /**
   * The walk's collaborators for an object given `added` through
   * `add_plugins`: its registry starts as a copy of `DEFAULT_PLUGINS`
   * (line 33) and the added handlers are merged over it (lines 38-40).
   */
  function Setup(host: Host, added: Registry): (ctx: Ctx)
    ensures ctx.shell == host.shell && ctx.allowEval == host.allowEval && ctx.evalHook == host.evalHook
    ensures ctx.plugins.Keys == DefaultPlugins().Keys + added.Keys
    ensures forall t :: t in added ==> ctx.plugins[t] == added[t]
    ensures forall t :: t in DefaultPlugins() && t !in added ==> ctx.plugins[t] == DefaultPlugins()[t]
  {
    Ctx(host.shell, Merge(DefaultPlugins(), added), host.allowEval, host.evalHook)
  }

  /** The store a run starts from: empty when asked to rerun or when the root carries none. */
  function StartStore(doc: Doc, rerun: bool): (s: Store)
    ensures s == map[] || (doc.resumes == Some(s) && !rerun)
    ensures !rerun && doc.resumes.Some? ==> s == doc.resumes.value
  {
    if rerun || doc.resumes.None? then map[] else doc.resumes.value
  }

  /** The root walked as a group from the start store, with the coerced initial environment and default options. */
  function Execute(host: Host, added: Registry, doc: Doc, initialEnv: seq<(Value, Value)>, rerun: bool): (o: Outcome)
    ensures Extends(StartStore(doc, rerun), o.store)
    ensures o.store.Keys - StartStore(doc, rerun).Keys <= Paths(doc.root)
    ensures o.Ok? ==> doc.root.path in o.store
    ensures PerformsNone(o.trace, StartStore(doc, rerun).Keys)
  {
    WalkGroup(Setup(host, added), doc.root, Coerce(initialEnv), DefaultOpts, StartStore(doc, rerun))
  }

  /**
   * The run as the source writes it. An exception outside `StandardError`
   * is not rescued (line 73): `th.join` raises it out of `perform` (line
   * 105), so nothing is written back and no error is recorded. Otherwise
   * the walk's store is written back, and `complete` is set after a clean
   * run but never cleared.
   */
  function PerformAsWritten(host: Host, added: Registry, doc: Doc, initialEnv: seq<(Value, Value)>, rerun: bool): (r: RunResult)
    ensures var o := Execute(host, added, doc, initialEnv, rerun);
      && (r.escaped.Some? <==> o.Err? && o.error.Uncaught?)
      && (r.escaped.Some? ==> r.doc == doc && r.error.None? && r.escaped.value == o.error.message && r.trace == o.trace)
      && (r.escaped.None? ==> r.doc.root == doc.root && r.doc.resumes == Some(o.store))
      && (r.escaped.None? ==> (r.error.None? <==> o.Ok?) && (o.Err? ==> r.error == Some(o.error)))
    ensures r.Clean() ==> r.doc.complete
    ensures !r.Clean() ==> r.doc.complete == doc.complete
  {
    var o := Execute(host, added, doc, initialEnv, rerun);
    match o
    case Ok(_, _, store, trace) => RunResult(Doc(doc.root, Some(store), true), None, None, trace)
    case Err(e, store, trace) =>
      if e.Uncaught? then RunResult(doc, None, Some(e.message), trace)
      else RunResult(Doc(doc.root, Some(store), doc.complete), Some(e), None, trace + [Failure(e)])
  }

  /**
   * The run with `complete` describing the run just made: set after a
   * clean run, cleared after a failed one. A run an exception escapes
   * still leaves the document as it was.
   */
  function Perform(host: Host, added: Registry, doc: Doc, initialEnv: seq<(Value, Value)>, rerun: bool): (r: RunResult)
    ensures var o := Execute(host, added, doc, initialEnv, rerun);
      && (r.escaped.Some? <==> o.Err? && o.error.Uncaught?)
      && (r.escaped.Some? ==> r.doc == doc && r.error.None? && r.escaped.value == o.error.message && r.trace == o.trace)
      && (r.escaped.None? ==> r.doc.root == doc.root && r.doc.resumes == Some(o.store))
      && (r.escaped.None? ==> (r.error.None? <==> o.Ok?) && (o.Err? ==> r.error == Some(o.error)))
    ensures r.escaped.None? ==> (r.doc.complete <==> r.error.None?)
    ensures r.escaped.None? ==> Extends(StartStore(doc, rerun), r.doc.resumes.value)
    ensures r.escaped.None? && (rerun || doc.resumes.None?) ==> r.doc.resumes.value.Keys <= Paths(doc.root)
    ensures r.Clean() ==> doc.root.path in r.doc.resumes.value
    ensures r.error.Some? ==> |r.trace| > 0 && r.trace[|r.trace| - 1] == Failure(r.error.value)
    ensures PerformsNone(r.trace, StartStore(doc, rerun).Keys)
  {
    var o := Execute(host, added, doc, initialEnv, rerun);
    match o
    case Ok(_, _, store, trace) => RunResult(Doc(doc.root, Some(store), true), None, None, trace)
    case Err(e, store, trace) =>
      if e.Uncaught? then RunResult(doc, None, Some(e.message), trace)
      else RunResult(Doc(doc.root, Some(store), false), Some(e), None, trace + [Failure(e)])
  }

  /**
   * The corrected run differs from the run as written only in `complete`:
   * same root, resumes, error, escaped exception and events. Every lemma
   * below about those holds for the run as written too.
   */
  lemma PerformAgreesAsWritten(host: Host, added: Registry, doc: Doc, initialEnv: seq<(Value, Value)>, rerun: bool)
    ensures var r, w := Perform(host, added, doc, initialEnv, rerun), PerformAsWritten(host, added, doc, initialEnv, rerun);
      && r.doc.root == w.doc.root && r.doc.resumes == w.doc.resumes
      && r.error == w.error && r.escaped == w.escaped && r.trace == w.trace
      && (r.doc.complete != w.doc.complete ==> r.error.Some? && w.doc.complete)
  {
  }

  /**
   * Every run keeps the stored resumes closed: a recorded group has all
   * its children recorded, so skipping it on a later run skips nothing
   * that has not finished.
   */
  lemma PerformKeepsResumesClosed(host: Host, added: Registry, doc: Doc, initialEnv: seq<(Value, Value)>, rerun: bool)
    requires Unique(doc.root)
    requires !rerun && doc.resumes.Some? ==> GroupClosed(doc.root, doc.resumes.value)
    ensures var run := Perform(host, added, doc, initialEnv, rerun);
      run.escaped.None? ==> GroupClosed(doc.root, run.doc.resumes.value)
  {
    var s := StartStore(doc, rerun);
    if s == map[] {
      EmptyGroupClosed(doc.root);
    }
    WalkGroupClosed(Setup(host, added), doc.root, Coerce(initialEnv), DefaultOpts, s);
  }

  /**
   * After a clean run, a second run without `rerun`, whatever its
   * collaborators, plugins and initial environment, writes one "skip
   * group" line for the root, enters nothing, fails nowhere and leaves the
   * document as it was.
   */
  lemma SecondRunSkipsEverything(host: Host, added: Registry, host2: Host, added2: Registry, doc: Doc,
                                 env: seq<(Value, Value)>, env2: seq<(Value, Value)>, rerun: bool)
    requires Perform(host, added, doc, env, rerun).Clean()
    ensures var d1 := Perform(host, added, doc, env, rerun).doc;
      var r2 := Perform(host2, added2, d1, env2, false);
      && r2.Clean()
      && r2.doc == d1
      && |r2.trace| == 1 && r2.trace[0].SkipGroup? && r2.trace[0].path == doc.root.path
  {
  }

  /**
   * A rerun after any run, clean or failed, enters no element the
   * earlier run recorded, and keeps every entry it recorded.
   */
  lemma ResumeSkipsRecorded(host: Host, added: Registry, host2: Host, added2: Registry, doc: Doc,
                            env: seq<(Value, Value)>, env2: seq<(Value, Value)>, rerun: bool)
    ensures var d1 := Perform(host, added, doc, env, rerun).doc;
      var r2 := Perform(host2, added2, d1, env2, false);
      d1.resumes.Some? ==>
        && PerformsNone(r2.trace, d1.resumes.value.Keys)
        && r2.doc.resumes.Some?
        && Extends(d1.resumes.value, r2.doc.resumes.value)
  {
  }

  // A root with one `shell` child, run clean and then rerun from scratch
  // with a command that now fails.
  const MakeStep: Node := Node("shell", map[], Some("make"), [], "/root/shell")
  const MakeRoot: Node := Node("root", map[], None, [MakeStep], "/root")

  function ExitWith(code: int): (string, Env, Opts) -> Option<int>
  {
    (cmd: string, env: Env, opts: Opts) => Some(code)
  }

  function ShellOnly(code: int): Host
  {
    Host(ExitWith(code), false, (code: string, p: Path, env: Env) => Returned(env, []))
  }

  /** The walk of `MakeRoot` from an empty store succeeds exactly when the command exits with 0. */
  lemma MakeRootWalk(code: int)
    ensures var o := WalkGroup(Setup(ShellOnly(code), map[]), MakeRoot, map[], DefaultOpts, map[]);
      (o.Ok? <==> code == 0) && (o.Err? ==> o.error == ShellFailed(Some(code)))
  {
    var ctx := Setup(ShellOnly(code), map[]);
    var d := Dispatch(ctx, MakeStep, map[], DefaultOpts, map[]);
    assert ctx.shell("make", ShellEnv(map[], MakeStep.path), DefaultOpts) == Some(code);
    assert d.Ok? <==> code == 0;
    var v := VisitChild(ctx, MakeStep, map[], DefaultOpts, map[]);
    assert v.Ok? <==> code == 0;
    var w := WalkChildren(ctx, MakeRoot, 0, map[], DefaultOpts, map[]);
    if code == 0 {
      assert WalkChildren(ctx, MakeRoot, 1, v.env, v.opts, v.store).Ok?;
    }
    assert w.Ok? <==> code == 0;
  }

  /**
   * As written, `complete` survives a failed run: after a clean run, a
   * `rerun` whose command fails ends with an error and `complete` still set.
   */
  lemma CompleteSurvivesFailedRerun()
    ensures var d1 := PerformAsWritten(ShellOnly(0), map[], Doc(MakeRoot, None, false), [], false).doc;
      var r2 := PerformAsWritten(ShellOnly(1), map[], d1, [], true);
      && d1.complete
      && r2.error == Some(ShellFailed(Some(1)))
      && r2.doc.complete
  {
    MakeRootWalk(0);
    MakeRootWalk(1);
    assert Coerce([]) == map[];
  }

  /** With `complete` cleared on failure, the same two runs leave it unset. */
  lemma FailedRerunClearsComplete()
    ensures var d1 := Perform(ShellOnly(0), map[], Doc(MakeRoot, None, false), [], false).doc;
      var r2 := Perform(ShellOnly(1), map[], d1, [], true);
      && d1.complete
      && r2.error == Some(ShellFailed(Some(1)))
      && !r2.doc.complete
  {
    MakeRootWalk(0);
    MakeRootWalk(1);
    assert Coerce([]) == map[];
  }
}
