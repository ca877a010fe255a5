# stromboli build engine, modelled in Dafny

Stromboli is a component-oriented build engine. It has three parts:

- **Discovery.** It walks a component root directory and finds every
  component manifest file.
- **Pairing.** It pairs each component with every configured plugin. For one
  pairing it first cleans the copies left by the previous render. It then
  checks that the plugin's entry file exists and asks the plugin to render
  it. It records the render's outcome in a render result stored on the
  component under the plugin's name. Finally it copies every dependency of
  that result, and writes every binary of it, below `dist/<component name>/`.
- **Tasks and jobs.** A newer layer of the same repository (TypeScript) has
  tasks that run against a build request. A job is a task made of tasks. A
  sequential job runs them one after the other and a concurrent job starts
  them all.

This project models the following:

- The configuration check.
- Recursive component discovery.
- The clean / render / collect / write lifecycle of one pairing.
- The loop over a component's plugins.
- The task and job classes.

It also builds minimal versions of the entities the code uses but whose
source is not part of this model:

- the build request;
- the render result;
- the files the pairing reads and writes.

Files:

- `common.dfy` holds bytes, paths, JavaScript string truthiness and
  distinctness.
- `config.dfy` models `checkConfig` over a model of JavaScript values, and
  the throw at the head of `start` (index.js:31-33). That throw checks the
  configuration after it is merged with the defaults.
- `discovery.dfy` models `getComponents` / `_getComponentsInsideDirectory` on
  a directory tree.
  - The tree is a value: each directory holds its listing or a listing
    failure.
  - Each entry is a directory, a file (holding its manifest name, or nothing
    when the manifest cannot be loaded), another kind of entry, or an entry
    whose `stat` fails.
  - An independent description (every file of the tree, filtered by name)
    is proved equal to the recursive walk.
- `results.dfy` holds the render result.
  - It records sources, each entry file with its error, if any.
  - It records dependencies with set semantics in insertion order.
  - It records binaries.
  - It is a `class` that the pairing mutates in place, specified by a value
    `ResultValue`.
- `filesystem.dfy` models the file system as a map from path to bytes.
  - `unlink` fails on a missing path.
  - Copy fails when its source is missing.
  - Write always succeeds.
  - There are value functions for a list of unlinks, copies and writes.
  - A `FileSystem` class that the methods mutate is specified by them.
- `build.dfy` models `pluginCleanComponent`, `pluginRenderComponent`, its
  `_renderDone` and `buildComponent`.
  - These are imperative methods over a `Component` object (its
    `renderResults` map of `RenderResult` objects) and the `FileSystem`.
  - Each is proved equal to a value function: `Pair` for one pairing,
    `BuildAll` for a component.
  - A plugin is its name, its entry file name, and its render. The render is
    a function from the entry path to the edits it makes and whether it
    resolves (with the same or another result) or rejects (with a reason, possibly falsy,
    in which case no error is recorded).
- `build_laws.dfy` proves what a pairing and a build promise.
- `request.dfy` holds the build request.
  - It has a source.
  - It has binaries, dependencies and errors that tasks append to.
- `tasks.dfy` models `Task`, `Job`, `JobSequential` and `JobConcurrent` as one
  class `Task`.
  - A task's body is a primitive effect, a sequential chain or a concurrent
    fan-out of tasks.
  - `Run`, `RunSequential` and `RunConcurrent` are loops over the request,
    proved against the functions `Exec`, `ExecSequential` and
    `ExecConcurrent`.
- `task_laws.dfy` proves the laws of jobs.
- `task_scenarios.dfy` builds two concrete sequential jobs and proves their
  outcome.
  - One is the ordering the repository's unit test checks: the second task
    sees what the first recorded.
  - The other has a rejecting first task, which stops the chain. No test of
    the repository has a rejecting task; this case follows from the reduce
    in Sequential.ts.

Two properties of the clean phase are easy to miss in the code:

- **Clean is not best effort.** The unlinks are gathered with `Promise.all`
  (index.js:199-209). One missing previous copy makes the clean reject, and
  then the pairing ends before render: render is not called, no new result
  is stored and nothing is written.
- **Clean removes dependency copies only.** It unlinks only the dependency
  copies of the stored result (index.js:193-206). It never removes the
  binaries that the previous render wrote.

## Model

| member | source | states |
|---|---|---|
| Config.CheckConfig | index.js:80-94 | a config passes exactly when it is an object whose projectName and projectVersion are both truthy |
| Config.StartError | index.js:31-33 | the throw at the head of start, on the merged config: it throws the invalid-config message exactly when the config is no object, or its projectName or projectVersion is missing or falsy |
| Config.CheckConfigOnStrings | index.js:80-94 | an object with non-empty name and version strings passes the check whatever its other keys |
| Discovery.InDirectory | index.js:136-170 | walking a directory fails exactly when it cannot be listed or one of its entries fails |
| Discovery.InEntries | index.js:139-167 | the entries of a directory fail together exactly when one of them fails |
| Discovery.InEntry | index.js:142-159 | a file not named like the manifest, or an entry that is neither file nor directory, yields no component; a manifest file succeeds exactly when it loads; only directories and manifest files can yield components |
| Discovery.DiscoveryFindsEveryManifest | index.js:117-170 | discovery of a directory succeeds exactly when every listing and every stat in the tree succeeds and every file named like the manifest loads; on success the components are, in walk order, one per such file, with the manifest's name and the file's directory |
| Discovery.EntriesFindEveryManifest | index.js:139-167 | the same for a directory's list of entries, whose results are concatenated in listing order |
| Discovery.EntryFindsEveryManifest | index.js:142-159 | the same for one entry: a directory is walked, a file named like the manifest yields one component, anything else yields none |
| Discovery.ComponentsOf | index.js:151-154 | one component per manifest file, in order, named by the manifest and located at the file's directory |
| Results.WithEdit | index.js:224-234 | recording on a render result only adds: sources and binaries extend, a dependency already present is not added twice, distinct dependencies stay distinct, and a path is a dependency afterwards exactly when it was one before or is the one added |
| Results.EditsAccumulate | index.js:223-235 | after a sequence of edits the sources and binaries are the old ones followed by the added ones in order, and the dependencies are the old ones together with the added ones, each once |
| Results.RenderResult.constructor | index.js:220 | a new render result holds no sources, dependencies or binaries |
| Results.RenderResult.GetDependencies | index.js:243 | the dependencies read back are exactly the ones the result holds, in the order they were first added |
| Results.RenderResult.GetBinaries | index.js:252 | the binaries read back are exactly the ones the result holds, in order |
| Results.RenderResult.AddSource | index.js:225 | the result's new value is the old one with the source recorded |
| Results.RenderResult.AddDependency | index.js:233 | the result's new value is the old one with the dependency recorded once |
| FileSystems.UnlinkAll | index.js:196-209 | unlinking a list removes exactly the listed paths, and succeeds exactly when every path existed and none is listed twice |
| FileSystems.CopyAllGrows | index.js:243-250 | copies never remove a path; a copy whose source was present leaves its target present; the copies succeed when every source is present and then every target exists |
| FileSystems.CopyAllExact | index.js:243-250 | with distinct targets that are no sources, the copies succeed exactly when every source exists, each target holds its source's bytes and every other path is unchanged |
| FileSystems.WriteAllExact | index.js:252-259 | with distinct targets, each target holds its data and every other path is unchanged |
| FileSystems.WriteAllGrows | index.js:252-259 | writes never remove a path and leave every target present |
| Build.CleanTargets | index.js:194-197 | the clean unlinks, for each stored dependency in order, dist/<component>/<dependency relative to the working directory> |
| Build.DependencyCopies | index.js:243-250 | each stored dependency, in order, is copied from its own path to dist/<component>/<dependency relative to the working directory> |
| Build.WriteOutputs | index.js:239-261 | writing the outputs never removes a path, and it succeeds whenever every dependency exists |
| Build.PreviousTargets | index.js:187-197 | with no stored result for the plugin there is nothing to clean; otherwise one target per stored dependency, in order, dist/<component>/<dependency relative to the working directory> |
| Build.BinaryWrites | index.js:252-259 | each binary is written, in order, to dist/<component>/<binary name> with its own data |
| Build.Finish | index.js:224-235 | the bookkeeping after render appends the entry with its error exactly when there is an entry, keeps the binaries, and adds as a dependency exactly the error's file when it is truthy |
| Build.StoredResult | index.js:273-287 | with no entry file the stored result is the empty one; otherwise, for a non-empty entry path, its last source is the entry, with an error exactly when render rejected with a truthy reason |
| Build.Pair | index.js:212-290 | after one pairing a result is stored under the plugin's name, whether or not its clean failed, and every other key keeps its result; when render ran, the stored result has a source |
| Build.BuildAll | index.js:172-180 | a build never drops a stored result's key |
| Build.Component.constructor | index.js:152 | a component starts with its name and directory, and no render result |
| Build.Record | index.js:224-235 | the result object is updated as the bookkeeping after render prescribes |
| Build.Store | index.js:237 | the result object is stored under the plugin's name, and the results' contents change only there |
| Build.PluginCleanComponent | index.js:182-210 | the clean leaves the files as unlinking the stored result's previous copies leaves them, and resolves exactly when that succeeds |
| Build.WriteOutput | index.js:239-261 | the write phase leaves the files as copying every dependency and then writing every binary leaves them, and resolves exactly when every copy did |
| Build.RenderDone | index.js:223-271 | the entry is recorded as a source with the error, if any, and the error's file as a dependency; the result is stored under the plugin's name and written out |
| Build.PluginRenderComponent | index.js:212-290 | one pairing's results, files, resolution and whether render ran are those of Pair on the state before; other plugins' result objects are untouched, and the plugin's result object is either the one it had or a fresh one |
| Build.RenderAndCollect | index.js:220-287 | after a successful clean, render is called exactly when the entry exists, and the results and files are updated as the pairing prescribes |
| Build.Render | index.js:275-282 | a render settles with the fresh result after the plugin's edits (or the result it resolves with) and its rejection reason, none when that is falsy, which is what the pairing then records |
| Build.BuildComponent | index.js:172-180 | building runs every plugin's pairing in plugin order, and returns the same component exactly when every pairing resolved |
| BuildLaws.CleanTargetsAreCopyTargets | index.js:196-250 | the paths the clean unlinks are exactly the paths the write phase copies dependencies to |
| BuildLaws.CleanNeedsStoredResult | index.js:187-209 | a plugin with no stored result cleans nothing and its clean resolves |
| BuildLaws.CleanRemovesPreviousCopiesOnly | index.js:182-218 | the clean removes exactly the previous copies and no other path, which spares binary outputs; it fails exactly when a copy is missing or is listed twice, and then the pairing stops before render with the results unchanged |
| BuildLaws.MissingEntrySkipsRender | index.js:273-286 | when the entry does not exist, render is not called, the fresh empty result is stored and nothing is copied or written |
| BuildLaws.RejectionIsRecorded | index.js:279-281 | the result of a rejected render holds the sources its edits added followed by the entry with the rejection's reason (none when it is falsy), the reason's file among its dependencies, and the binaries its edits added |
| BuildLaws.FailedRenderIsKept | index.js:279-281 | a rejected render is recorded with its reason (none when it is falsy), the reason's file becomes a dependency, everything recorded before the rejection is kept, the result is stored and every binary is still written |
| BuildLaws.SuccessStoresReturnedResult | index.js:275-278 | a resolved render stores the result it resolved with (the one handed in, or another), with the entry recorded as an error-free source |
| BuildLaws.OutputsArePresent | index.js:239-261 | after the write phase every binary output exists, and every dependency copy when the phase succeeded |
| BuildLaws.WrittenOutputsAreExact | index.js:239-261 | with distinct output paths, each existing dependency is copied byte for byte to its target, each binary's data is written to its target, and no other path changes |
| BuildLaws.RebuildCleansPreviousCopies | index.js:187-250 | after a pairing resolves, the next pairing of the same plugin removes every copy this one made, and its clean succeeds when those copies do not share a path |
| BuildLaws.BuildTouchesOnlyPluginKeys | index.js:172-180 | a build adds results only under its plugins' names and leaves every other key's result as it was |
| BuildLaws.BuildStoresEveryPlugin | index.js:172-180 | after any build, first or repeated, the results' keys are the old keys together with every plugin's name |
| Requests.BuildRequest.constructor | test/unit/lib/Job/Sequential/test.ts:112 | a new request has the given source and no binaries, dependencies or errors |
| Requests.BuildRequest.AddBinary | test/unit/lib/Job/Sequential/test.ts:18-19 | the request's binaries gain the binary at their end, and nothing else changes |
| Requests.BuildRequest.AddDependency | test/unit/lib/Job/Sequential/test.ts:21-23 | the request's dependencies gain the source at their end, and nothing else changes |
| Requests.BuildRequest.AddError | test/unit/lib/Job/Sequential/test.ts:51 | the request's errors gain the error at their end, and nothing else changes |
| Requests.ApplyAll | src/lib/Task.ts:23-27 | what tasks record on a request only extends its binaries, dependencies and errors, by one entry per operation |
| Requests.BuildRequest.PerformAll | src/lib/Task.ts:23-27 | performing a primitive task's operations on the request leaves it as applying them in order to its contents |
| Tasks.Task.Primitive | src/lib/Task.ts:12-21 | a task keeps the description it was given, and its run is the given effect |
| Tasks.Task.JobConcurrent | src/lib/Job.ts:13-17 | a concurrent job keeps its description and exactly the tasks it was given |
| Tasks.Task.Tasks | src/lib/Job.ts:22-24 | a well-formed job's tasks are well formed and nested strictly below it |
| Tasks.Exec | src/lib/Task.ts:23-27 | a primitive task invokes no sub-task, and a concurrent job invokes all of its tasks |
| Tasks.ExecSequential | src/lib/Job/Sequential.ts:16-20 | a rejecting sequential job has invoked at least one task |
| Tasks.Task.JobSequential | src/lib/Job.ts:13-24 | a job keeps its description and exactly the tasks it was given |
| Tasks.Task.Run | src/lib/Task.ts:23-27 | running a task changes the request as Exec prescribes and reports the outcome and the tasks invoked |
| Tasks.Task.RunSequential | src/lib/Job/Sequential.ts:11-20 | a sequential job runs its tasks one after another on the request each one left, stopping at the first rejection |
| Tasks.Task.RunConcurrent | src/lib/Job/Concurrent.ts:11-20 | a concurrent job starts every task and rejects when any of them rejects, with the first rejection in list order |
| Tasks.ExecConcurrent | src/lib/Job/Concurrent.ts:12-14 | every task of a concurrent job is invoked |
| TaskLaws.RunOnlyExtends | src/lib/Task.ts:23-27 | running any task, however nested, only appends to the request's lists |
| TaskLaws.SequentialInvokesPrefix | src/lib/Job/Sequential.ts:16-20 | a sequential job invokes a prefix of its tasks, all of them when it resolves and at least one when it rejects |
| TaskLaws.SequentialStopsAtFailure | src/lib/Job/Sequential.ts:16-20 | a rejecting sequential job rejects with the last invoked task's rejection, after every earlier task resolved, on the request those tasks left |
| TaskLaws.SequentialAppend | src/lib/Job/Sequential.ts:16-20 | running the tasks a + b in sequence is running a, then b on what a left, unless a rejected |
| TaskLaws.NestedSequentialJobs | src/lib/Job/Sequential.ts:11-20 | a sequential job of two sequential jobs behaves as one sequential job of all their tasks |
| TaskLaws.EmptyJobsSucceed | src/lib/Job/Sequential.ts:16-20 | a job with no tasks resolves at once, invokes nothing and leaves the request alone |
| TaskLaws.ConcurrentAgreesWithSequential | src/lib/Job/Concurrent.ts:11-20 | in this model, where each run completes before the next is invoked, a concurrent job has the outcome of the sequential job of the same tasks, and the same request when it resolves |
| TaskScenarios.SecondTaskSeesFirst | test/unit/lib/Job/Sequential/test.ts:86-125 | in a sequential job the second task observes what the first one recorded, and both are invoked in order |
| TaskScenarios.RejectionStopsTheChain | src/lib/Job/Sequential.ts:16-20 | a sequential job whose first task rejects rejects with that task's reason and invokes nothing after it |

## Left out

- Concurrency. `Promise.all` in `buildComponent`, `JobConcurrent` and the
  clean and write phases interleaves asynchronous steps.
  - The model runs them in list order, one at a time, each step atomic.
  - A concurrent job reports the first rejection in list order, where the
    code reports whichever rejects first in time.
  - `buildComponent` rejects when any pairing rejects, and the model then
    returns `None`. The model still runs the rest of the pairings, as the
    other promises of `Promise.all` go on running.
- Tasks.ExecConcurrent: a task whose `run` throws synchronously is not
  modelled. Every run settles by resolving or rejecting. In the code, a
  synchronous throw inside the `map` at Concurrent.ts:12-14 invokes no later
  task, and `run` throws instead of rejecting.
- Build.Pair: a render that throws synchronously, or resolves with something
  that is not a render result, is not modelled. Every render settles with
  edits and either a result or an error. In the code, a synchronous throw
  inside the `exists` callback (index.js:274-275) skips `_renderDone`, and a
  non-result fails at index.js:225. In both cases nothing is stored or
  written, and the pairing rejects.
- Config.StartError: only the throw at index.js:31-33 is modelled. When the
  merged configuration passes the check but has no `projectDescription`,
  `start` also throws, a TypeError at index.js:41.
- Tasks.ExecConcurrent: a concurrent task sees the request that the tasks before
  it in the list left. With real interleaving a task may see less or more.
- `start` beyond its configuration check is not modelled: the merge with
  `defaults.js`, the logging, `getPlugins` (which loads plugin modules
  through `require`), and combining the components built.
- Logging, `debug`/`info`, timing (`beginDate`/`endDate`) and the log level
  are not modelled. They have no effect on results.
- Path normalisation is not modelled: `path.resolve`, `path.join` and
  `path.dirname`.
  - Paths are strings joined with `/`.
  - `path.relative(path.resolve('.'), dependency)` is the parameter
    `rel: Relative`.
- `exists` is taken as resolving with the entry path when the path is in the
  file system (so the file is truthy) and rejecting otherwise. Its source is
  not part of this model.
- `copyFile` and `writeFile` are not part of this model. The model assumes a
  copy fails when its source is missing, and that a write creates the file
  and never fails. It does not model directory creation.
- Tasks.Task.JobSequential and Tasks.Task.JobConcurrent: the job's tasks are
  an immutable sequence copied in at construction. In the code
  (src/lib/Job.ts:16 and src/lib/Job.ts:22-24) a job keeps the caller's array
  by reference, so a later change to that array changes the job's tasks, and
  a job can come to contain itself. On such a job `run` does not terminate:
  a sequential job chains runs forever and a concurrent one overflows the
  stack at Concurrent.ts:12-14. The model's well-formedness (`Valid()` and
  `height`) excludes that input.
- Build.PluginRenderComponent: a render that resolves with a result object
  already stored on the component (aliasing) is not modelled. The model
  copies a returned result into a fresh object.
- The `Component` and `RenderResult` classes are not part of this model.
  - They are reduced to what index.js uses: a name, a path, and a map of
    render results; sources, dependencies and binaries.
- Discovery returns `Found` records. Building a `Component` object from one
  is left to `Build.Component`'s constructor.
- Discovery: when several reads fail, the code rejects with whichever fails
  first in time. The model only says discovery fails; `Fail` records the
  first failure in walk order.
- Discovery: a manifest is only its `name`. Whatever else `require` loads
  from it is not modelled.
- The `BuildRequest`, `Binary`, `Source` and `Error` classes of the
  TypeScript layer are not part of this model.
  - They appear as minimal value types and one class with the operations a
    task needs.
  - Resolving a request's source lazily is not modelled.
