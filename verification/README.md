# workflow_haml: the resumable task-tree walk

`WorkflowHaml` runs a tree of tasks written in HAML. The tree has grouping
elements (`root`, `group`, `fork`) and leaf actions (`shell`, `env`,
`chdir`, `eval`, and plugin tags such as `echo` and `sleep`). It walks the
tree in document order and records every element that finishes in a
resume store, keyed by the element's XPath, together with the environment
at that point. A later run reads the store back from the root's `resumes`
attribute, skips every recorded element and merges its stored environment
into the current scope.

This project models that walk (`WorkflowHaml#__perform`) and the
bookkeeping of one run (`WorkflowHaml#perform`) as pure Dafny functions
over an immutable tree, and proves properties about them:

- `base.dfy` (`Base`): an optional value, and Ruby's `String#strip`.
- `tree.dfy` (`Tree`): elements, their paths, and the uniqueness of
  paths that XPath guarantees.
- `environment.dfy` (`Environment`): environments, the resume store,
  merging, the shell's `XPATH` variable, and the string conversion of the
  initial environment.
- `engine.dfy` (`Engine`): the walk itself. `WalkGroup` covers lines
  114-124 and 192, `WalkChildren`/`VisitChild` the loop at lines 126-136
  and 189, `Dispatch` the tag dispatch at lines 138-187, and
  `WalkBranches` the fork at lines 144-156.
- `closure.dfy` (`Closure`): the recording-order invariant. A recorded
  group or fork has all its children recorded. Every walk preserves this.
- `properties.dfy` (`Properties`): skipping, failure, scoping and fork
  properties that relate several calls.
- `plugins.dfy` (`Plugins`): the default plugins (`echo`, and `sleep`,
  which refuses a negative interval and one too large for a `time_t`) and
  plugin registration.
  `add_plugins` is `Hash#merge!` on the registry, so the model reuses
  `Environment.Merge` for it.
- `run.dfy` (`Run`): `perform`, covering the registry a run starts from,
  the start store, the initial environment, writing back `resumes` and
  `complete`, and exceptions that escape `rescue => e`.
- `scenarios.dfy` (`Scenarios`): small documents taken through one or two
  runs.

The walk is sequential: fork branches run one after another in document
order, each on its own copies of the environment and options. A
completion entry is written to the store when the source would push it
onto its completion queue. That is right after its element's subtree
returns (lines 189 and 192), so no path is ever looked up after its own
entry is pushed in the same run.

Side effects are parameters of the walk (`Engine.Ctx`):

- the exit status of a shell command, as a function of the command, its
  environment and its options;
- the plugin registry, which a run builds from `DEFAULT_PLUGINS` and the
  handlers given to `add_plugins` (`Run.Setup`);
- whether `eval` is allowed;
- an opaque `eval` hook that may change the environment, raise a
  `StandardError`, or raise an exception outside `StandardError`.

A plugin or script may raise either kind. `rescue => e` (line 73) catches
only `StandardError`: the run records it as its error and writes the
store back. Any other exception (`SyntaxError` from `eval`,
`NotImplementedError`) ends the walk as `Engine.Uncaught`, and `th.join`
(line 105) raises it out of `perform` before lines 106-109, so the
document keeps its old `resumes` and `complete` and no error is recorded.

The "system output" lines the walk writes become a trace of events.

Two things in the model are consequences of the source as written:

- A `group`/`root` child is recorded twice. First its own walk records it
  with the environment its children left behind (line 122). Then the
  parent loop records it again with the parent's environment (line 134).
  The second entry is the one that stays (`Properties.ContainerChildKeepsScope`).
- A resume restores environments but not working directories. Options are
  never stored, so a skipped `chdir` does not apply on the rerun
  (`Scenarios.ResumeForgetsChdir`).

## Model

| member | source | states |
|---|---|---|
| `Base.Strip` | workflow_haml.rb:143 | the input is the result with a prefix and a suffix made only of Ruby whitespace (NUL, tab through carriage return, space), and the result neither starts nor ends with such a character |
| `Base.StripIdempotent` | workflow_haml.rb:143 | stripping an already stripped text changes nothing |
| `Environment.Merge` | workflow_haml.rb:115-116 | the merged environment has the keys of both; the overriding environment's value wins for a shared key; every other key keeps its value |
| `Environment.ShellEnv` | workflow_haml.rb:173 | the shell's environment is the scope's environment plus `XPATH` set to the element's path; no other variable changes |
| `Environment.IntToStringReadsBack` | workflow_haml.rb:69 | an integer printed with `to_s` starts with a minus sign exactly when it is negative, and the decimal digits after the sign read back as its absolute value, so distinct integers print differently |
| `Environment.Coerce` | workflow_haml.rb:68-70 | the initial environment's keys are exactly the printed keys; for a key printed the same by several pairs, the last pair's printed value wins |
| `Engine.WalkGroup` | workflow_haml.rb:114-124 | a walk only adds entries and never changes an old one; new entries are paths of the subtree, and below the group only when the walk fails; a successful walk leaves the group recorded; a newly recorded group has every child recorded and is stored with the environment its children left; every visit event is for a path in the subtree; no recorded element is entered |
| `Engine.WalkChildren` | workflow_haml.rb:126-136 | the walk of the children from `i` on adds entries only for those children's subtrees; on success every one of those children is recorded; recorded elements are not entered |
| `Engine.VisitChild` | workflow_haml.rb:127-189 | a visit only adds entries, all in the child's subtree; a successful visit leaves the child recorded, and a newly recorded child is stored with the scope's environment after its dispatch; a failed visit adds entries only strictly below the child |
| `Engine.Dispatch` | workflow_haml.rb:138-187 | leaf tags leave the store unchanged; a recorded container has its children recorded; only `chdir` changes options, only `env` and plugins or `eval` change the environment; `env` merges its attributes; `chdir` sets the stripped text as the directory and fails without text; `eval` fails when not allowed; `shell` succeeds exactly on exit status 0 and otherwise fails with the status; an unknown tag without a plugin fails with `UnknownTag`, and that error for a leaf means exactly that |
| `Engine.WalkBranches` | workflow_haml.rb:144-156 | on success every branch is recorded and the fork's environment and options are returned unchanged; entries are added only below the branches |
| `Engine.ForkStep` | workflow_haml.rb:146-154 | a failing branch's outcome is the fork's; after a successful branch, the next branch starts from the fork's own environment and options, whatever the branch before it left, and its events follow that branch's |
| `Closure.WalkGroupClosed` | workflow_haml.rb:114-193 | with unique paths, a walk keeps the store closed: every recorded group or fork on the walked positions has all its children recorded |
| `Properties.SkippedGroupNotEntered` | workflow_haml.rb:115-119 | a recorded group is not entered: the stored environment is merged over the current one (stored keys win), the store and options are unchanged, and the only event is one "skip group" |
| `Properties.SkippedChildNotDispatched` | workflow_haml.rb:127-131 | a recorded child is not dispatched: the walk continues at the next sibling with the stored environment merged in, after one "skip element" event |
| `Properties.FailedGroupNotRecorded` | workflow_haml.rb:121-124 | a group whose walk fails is not recorded |
| `Properties.FailedChildNotRecorded` | workflow_haml.rb:133-136 | a child whose dispatch fails is not recorded |
| `Properties.FailureStopsSiblings` | workflow_haml.rb:126-190 | when a child fails, the scope fails with the child's error; earlier entries stay; no later sibling is visited or recorded |
| `Properties.GroupWalkIgnoresTag` | workflow_haml.rb:150 | walking an element as a group gives the same outcome whatever its tag |
| `Properties.ForkBranchTagIgnored` | workflow_haml.rb:144-156 | changing the tag of any direct child of a fork does not change what the fork does: branches are walked as groups, not dispatched |
| `Properties.ContainerChildKeepsScope` | workflow_haml.rb:140-141 | after a group or fork child succeeds, the scope's environment and options are as before, and the child is recorded with the scope's environment |
| `Properties.EnvChildUpdatesScope` | workflow_haml.rb:157-160 | an `env` child always succeeds; every attribute becomes a variable of the scope, other variables keep their values, and the child is recorded with the new environment |
| `Plugins.Echo` | workflow_haml.rb:12-14 | `echo` writes the element's stripped text as one line, and raises when the element has no text |
| `Plugins.Sleep` | workflow_haml.rb:16-19 | `sleep` raises when the element's `sec` reads as a negative number (`ArgumentError`) or has an integer part too large for a 64-bit `time_t` (`RangeError`), and in no other case the model reads; it never lets an exception escape, and otherwise changes no environment and writes nothing |
| `Plugins.SecondsExamples` | workflow_haml.rb:17-18 | `to_f` reads `-1`, ` -2.5` and `-.5s` as negative, and `- 1` and `2` as not negative |
| `Plugins.LongSecondsOutOfRange` | workflow_haml.rb:17-18 | an integer part of twenty or more digits, not starting with zero, is out of `time_t` range |
| `Plugins.ShortSecondsInRange` | workflow_haml.rb:17-18 | an integer part of at most eighteen digits is in range |
| `Plugins.SleepRangeByDigits` | workflow_haml.rb:16-19 | on a `sec` starting with a digit, `sleep` raises the range error for twenty or more digits without a leading zero, and returns the environment unchanged with no lines for at most eighteen |
| `Plugins.SleepRaisesOnNegative` | workflow_haml.rb:16-19 | `sleep` raises for a `sec` of `-1`, and returns the environment unchanged with no lines for a `sec` of `2` or without `sec` |
| `Plugins.DefaultPlugins` | workflow_haml.rb:11-20 | the default registry holds exactly `echo` and `sleep` |
| `Plugins.AddedPluginHandles` | workflow_haml.rb:38-40 | after handlers are merged into the registry, an element whose tag is registered and not built in goes to the new handler: its returned environment becomes the scope's and its lines are written, its `StandardError` fails the element with the tag and the message, and any other exception leaves the walk as `Uncaught`; the store is unchanged |
| `Plugins.BuiltinTagShadowsPlugin` | workflow_haml.rb:139-182 | a plugin registered under `chdir`, `env`, `eval` or `shell` is never called |
| `Plugins.EchoDispatch` | workflow_haml.rb:182-186 | with the default plugins, an `echo` element with text succeeds, writes its stripped text and keeps the scope |
| `Run.StartStore` | workflow_haml.rb:59-63 | a run starts from the stored resumes unless `rerun` is set or there are none, and otherwise from the empty store |
| `Run.Setup` | workflow_haml.rb:33-40 | a run's registry holds the default plugins and the added handlers, an added handler replacing a default one with the same tag |
| `Run.Execute` | workflow_haml.rb:65-71 | the walk of the root keeps every entry of the start store, adds entries only for paths of the tree, records the root when it succeeds, and enters no element recorded before it |
| `Run.Perform` | workflow_haml.rb:73-109 | unless an exception outside `StandardError` escapes, the walk's store is written back as `resumes`, the walk's error is the run's error, `complete` is set exactly when there was no error, a clean run records the root and an error is the last event written; when one escapes, the document is left as it was and no error is recorded |
| `Run.PerformAsWritten` | workflow_haml.rb:73-109 | as written, the walk's store is written back and its error recorded unless an exception outside `StandardError` escapes, which leaves the document as it was; `complete` is set after a clean run and otherwise left as it was |
| `Run.PerformAgreesAsWritten` | workflow_haml.rb:105-109 | the corrected run and the run as written write back the same resumes and report the same error, escaped exception and events; they differ only in `complete`, which only the run as written leaves set after an error |
| `Run.PerformKeepsResumesClosed` | workflow_haml.rb:114-193 | with unique paths and closed resumes, the resumes written back are closed again |
| `Run.SecondRunSkipsEverything` | workflow_haml.rb:115-118 | after a clean run, a second run without `rerun`, with any collaborators and plugins, writes one "skip group" for the root, enters nothing, fails nowhere and leaves the document unchanged |
| `Run.ResumeSkipsRecorded` | workflow_haml.rb:59-63 | a rerun after any run that left resumes enters no element recorded there and keeps all those entries |
| `Run.CompleteSurvivesFailedRerun` | workflow_haml.rb:107-109 | as written, a clean run followed by a failing `rerun` ends with an error and `complete` still set |
| `Run.FailedRerunClearsComplete` | workflow_haml.rb:107-109 | with `complete` describing the last run, the same two runs leave it unset |
| `Scenarios.ForkBranchesDoNotShareEnv` | workflow_haml.rb:144-156 | a variable set in one fork branch is not seen by a shell in the sibling branch |
| `Scenarios.EnvThenShell` | workflow_haml.rb:157-181 | in a scope with an `env` and then a `shell`, the shell sees the `env`'s variables whether the `env` is performed or skipped as recorded; a failure leaves only the `env`'s entry |
| `Scenarios.ResumeAfterFailure` | workflow_haml.rb:127-131 | a run whose shell fails records the earlier `env`; the resumed run skips it, restores its variable, and completes |
| `Scenarios.ChdirThenShell` | workflow_haml.rb:142-143 | in a scope with a `chdir` and then a `shell`, the shell runs in the `chdir`'s directory only when the `chdir` is performed in the same walk |
| `Scenarios.ResumeForgetsChdir` | workflow_haml.rb:127-143 | a shell that passes on a fresh run fails when resumed after a recorded `chdir`, because the directory is not restored |
| `Scenarios.UncaughtRaiseLosesRun` | workflow_haml.rb:73-106 | when an `eval` raises a `SyntaxError` after an `env` finished, the walk had recorded the `env`, but the run records no error and leaves the document without resumes |

## Left out

- Pool exhaustion (lines 28, 149-152): a fork branch takes a pool slot before its walk and frees it only after its whole subtree returns. Five fork branches nested one in another (more than `FORK_POOL_SIZE`), or four sibling branches that each hold a slot and fork again, wait for a slot forever, and the source never finishes. The model walks such trees to completion.
- Threads, the completion queue and its consumer thread, the `SizedQueue` pool of size `FORK_POOL_SIZE`, and thread joins (lines 8, 28, 57, 65-86, 104-105, 145-156): fork branches run sequentially in document order, and entries are applied when pushed. No other schedule is modelled.
- The environment snapshot `env.dup` taken in the consumer thread (lines 122 and 134): the source may take it after later siblings have changed the environment. The model takes it when the entry is pushed.
- Which fork-branch entries a concurrent run loses when an error ends the walk before other branches finish: only the sequential schedule is modelled.
- `Open3.popen2e` and the captured output (lines 174-178): the shell is an exit-status oracle. `None` stands for a process without an exit status.
- The `eval` body and the `$stdout`/`$stderr` redirection (lines 163-170): an allowed `eval` is an opaque hook that may return a new environment, raise a `StandardError`, or raise another exception. Its effect on options and its output lines are not modelled.
- Plugins.Sleep: the pause itself and wall-clock time are not modelled. Of `to_f`, only the sign, integer part and fraction of `sec` are read. So some inputs are judged wrongly: exponents that overflow (`1e30`, which raises `RangeError` in the source but returns here), exponents that underflow to zero (`-1e-400`), negative fractions too small for a double, and underscores between digits (`-0_1`). The range limit assumes a 64-bit `time_t` and a correctly rounded `to_f`. The `RangeError` message leaves out the printed float.
- The write of the `echo` plugin to the system channel: modelled as a trace line, not as I/O.
- IO pipes and the `<system output>`/`<command output>` framing (lines 55-56, 77-78, 88-102); JSON serialisation of the store and of trace lines (lines 62, 106, 117, 120, 129, 132): the store is a map and the trace a sequence of events.
- HAML rendering, REXML parsing, XPath computation and `to_haml` (lines 34-35, 50-51): elements carry an abstract `path`, assumed unique where a property needs it (`Tree.Unique`).
- Environment.Coerce: `Environment.Value` covers strings, symbols, integers, `true`, `false` and `nil`. Floats, arrays, hashes and other objects, whose `to_s` line 69 also calls, are not modelled.
- The command-line entry point (lines 197-223).
- `error` and `error?` (lines 42-48): they read back the error of `Run.RunResult`.

## Findings

| source | as written | input that shows it | evidently intended | confidence | as-written member | corrected member |
|---|---|---|---|---|---|---|
| workflow_haml.rb:107-109 | `complete` is set after a clean run and never cleared, so a failed run leaves the value of the previous run | a root with one `shell` child: a first run where the command exits 0, then a run with `rerun: true` where it exits 1 | `complete` tells whether the last run ended clean, so a failed run leaves it unset | medium, not executed | `Run.CompleteSurvivesFailedRerun` | `Run.FailedRerunClearsComplete` |

`perform` writes `complete` right after checking `error?` (lines
107-109), so the flag is evidently meant to report the run just made.
`Run.PerformAsWritten` models the code and `Run.Perform` the corrected
flag. The other run lemmas use `Run.Perform`. By
`Run.PerformAgreesAsWritten`, the two agree on everything but `complete`.
So `Run.PerformKeepsResumesClosed` and `Run.ResumeSkipsRecorded` also
hold for the code as written, since they speak only of resumes, errors and
events. `Run.SecondRunSkipsEverything` compares whole documents, `complete`
included, but it starts from a clean run, and after a clean run both
versions set `complete`, so it holds for the code as written too.
