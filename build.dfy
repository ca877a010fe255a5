/**
 * The build engine's render lifecycle for one (component, plugin) pairing
 * (pluginCleanComponent, pluginRenderComponent and its _renderDone) and the
 * loop over a component's plugins (buildComponent), on an abstract file
 * system.
 */
module Build {
  import opened Common
  import opened Results
  import opened FileSystems

  /** What a successful render resolves with: the result it was handed, or another one. */
  datatype Returned = SameResult | OtherResult(value: ResultValue)

  /**
   * What a plugin's render(file, result) does: the edits it makes on the
   * fresh result it is handed, then whether it resolves or rejects.
   */
  datatype Rendering =
    | Resolved(edits: seq<Edit>, returned: Returned)
    /** `error` is None when the reason is falsy (`reject()`, `reject(null)`): no error is recorded then. */
    | Rejected(edits: seq<Edit>, error: Option<RenderError>)

  /** A plugin: its name (the key of its results), its entry file name, and its render. */
  datatype Plugin = Plugin(name: string, entry: Path, render: Path -> Rendering)

  /** path.relative(path.resolve('.'), dependency): a dependency's path from the working directory. */
  type Relative = Path -> Path

  /** Every pairing writes below this directory, relative to the working directory. */
  const OutputRoot: Path := "dist"

  /** path.join('dist', component.name) */
  function OutputDir(name: string): Path
  {
    OutputRoot + "/" + name
  }

  /** Where a dependency is copied to, and where the next clean deletes it from. */
  function DependencyTarget(name: string, rel: Relative, dependency: Path): Path
  {
    OutputDir(name) + "/" + rel(dependency)
  }

  /** Where a binary is written to. */
  function BinaryTarget(name: string, b: Binary): Path
  {
    OutputDir(name) + "/" + b.name
  }

  /** path.resolve(path.join(component.path, plugin.entry)) */
  function EntryPath(dir: Path, entry: Path): Path
  {
    dir + "/" + entry
  }

  /** The paths pluginCleanComponent unlinks for the given dependencies. */
  function CleanTargets(name: string, rel: Relative, deps: seq<Path>): (r: seq<Path>)
    ensures |r| == |deps| && forall i :: 0 <= i < |r| ==> r[i] == DependencyTarget(name, rel, deps[i])
  {
    if deps == [] then [] else [DependencyTarget(name, rel, deps[0])] + CleanTargets(name, rel, deps[1..])
  }

  /** The copies the write phase makes: each dependency to its target. */
  function DependencyCopies(name: string, rel: Relative, deps: seq<Path>): (r: seq<Copy>)
    ensures |r| == |deps| && forall i :: 0 <= i < |r| ==> r[i] == Copy(deps[i], DependencyTarget(name, rel, deps[i]))
  {
    if deps == [] then [] else [Copy(deps[0], DependencyTarget(name, rel, deps[0]))] + DependencyCopies(name, rel, deps[1..])
  }

  /** The writes the write phase makes: each binary's data to its target. */
  function BinaryWrites(name: string, bins: seq<Binary>): (r: seq<Write>)
    ensures |r| == |bins| && forall i :: 0 <= i < |r| ==> r[i] == Write(BinaryTarget(name, bins[i]), bins[i].data)
  {
    if bins == [] then [] else [Write(BinaryTarget(name, bins[0]), bins[0].data)] + BinaryWrites(name, bins[1..])
  }

  /** The write phase: copy every dependency, then write every binary; it succeeds if every copy did. */
  function WriteOutputs(files: Files, name: string, rel: Relative, v: ResultValue): (w: IoResult)
    ensures files.Keys <= w.files.Keys
    ensures (forall d :: d in v.dependencies ==> d in files) ==> w.ok
  {
    var copies := DependencyCopies(name, rel, v.dependencies);
    var copied := CopyAll(files, copies);
    var writes := BinaryWrites(name, v.binaries);
    CopyAllGrows(files, copies);
    WriteAllGrows(copied.files, writes);
    assert forall i :: 0 <= i < |copies| ==> copies[i].from == v.dependencies[i] && v.dependencies[i] in v.dependencies;
    IoResult(WriteAll(copied.files, writes), copied.ok)
  }

  /** The bookkeeping of _renderDone: record the entry with the failure, and the failure's file as a dependency. */
  function Finish(v: ResultValue, file: Option<Path>, err: Option<RenderError>): (r: ResultValue)
    ensures r.sources == v.sources + (if file.Some? && Truthy(file.value) then [SourceRecord(file.value, err)] else [])
    ensures r.binaries == v.binaries
    ensures v.dependencies <= r.dependencies
    ensures forall p :: p in r.dependencies <==>
      p in v.dependencies || (err.Some? && err.value.file == Some(p) && Truthy(p))
  {
    var recorded := if file.Some? && Truthy(file.value) then WithEdit(v, AddSource(file.value, err)) else v;
    if err.Some? && err.value.file.Some? && Truthy(err.value.file.value)
    then WithEdit(recorded, AddDependency(err.value.file.value))
    else recorded
  }

  /** The result stored for the plugin, given whether its entry file exists. */
  function StoredResult(plugin: Plugin, entry: Path, present: bool): (r: ResultValue)
    ensures !present ==> r == Empty
    ensures present && Truthy(entry) ==>
      |r.sources| > 0 && r.sources[|r.sources| - 1].file == entry
      && (r.sources[|r.sources| - 1].error.Some? <==> plugin.render(entry).Rejected? && plugin.render(entry).error.Some?)
  {
    if !present then Finish(Empty, None, None)
    else
      match plugin.render(entry)
      case Resolved(edits, SameResult) => Finish(WithEdits(Empty, edits), Some(entry), None)
      case Resolved(_, OtherResult(v)) => Finish(v, Some(entry), None)
      case Rejected(edits, err) => Finish(WithEdits(Empty, edits), Some(entry), err)
  }

  /**
   * The effect of one pairing: the component's results afterwards, the
   * file system afterwards, whether the pairing's promise resolves, and
   * whether the plugin's render was called.
   */
  datatype Pairing = Pairing(results: map<string, ResultValue>, files: Files, ok: bool, rendered: bool)

  /** The targets the clean phase unlinks: those of the result already stored for the plugin, if any. */
  function PreviousTargets(plugin: Plugin, name: string, rel: Relative, results: map<string, ResultValue>): (targets: seq<Path>)
    ensures plugin.name !in results ==> targets == []
    ensures plugin.name in results ==>
      var deps := results[plugin.name].dependencies;
      |targets| == |deps| && forall i :: 0 <= i < |targets| ==> targets[i] == DependencyTarget(name, rel, deps[i])
  {
    if plugin.name in results then CleanTargets(name, rel, results[plugin.name].dependencies) else []
  }

  /** clean, then resolve the entry, then render, then collect, then write. */
  function Pair(plugin: Plugin, name: string, dir: Path, rel: Relative, results: map<string, ResultValue>, files: Files): (p: Pairing)
    ensures plugin.name in p.results && p.results.Keys == results.Keys + {plugin.name}
    ensures forall k :: k in results && k != plugin.name ==> p.results[k] == results[k]
    ensures p.rendered ==> p.results[plugin.name].sources != []
  {
    var cleaned := UnlinkAll(files, PreviousTargets(plugin, name, rel, results));
    if !cleaned.ok then Pairing(results, cleaned.files, false, false)
    else
      var entry := EntryPath(dir, plugin.entry);
      var present := entry in cleaned.files;
      var v := StoredResult(plugin, entry, present);
      var written := WriteOutputs(cleaned.files, name, rel, v);
      Pairing(results[plugin.name := v], written.files, written.ok, present)
  }

  /** The effect of building a component with every plugin, and whether it resolves. */
  datatype Built = Built(results: map<string, ResultValue>, files: Files, ok: bool)

  function BuildAll(plugins: seq<Plugin>, name: string, dir: Path, rel: Relative, results: map<string, ResultValue>, files: Files): (b: Built)
    ensures results.Keys <= b.results.Keys
    decreases |plugins|
  {
    if plugins == [] then Built(results, files, true)
    else
      var p := Pair(plugins[0], name, dir, rel, results, files);
      var rest := BuildAll(plugins[1..], name, dir, rel, p.results, p.files);
      Built(rest.results, rest.files, p.ok && rest.ok)
  }

  class Component {
    const name: string
    const path: Path
    var renderResults: map<string, RenderResult>

    constructor (name: string, path: Path)
      ensures this.name == name && this.path == path && renderResults == map[]
    {
      this.name, this.path := name, path;
      renderResults := map[];
    }

    /** The contents of every stored result, by plugin name. */
    function Results(): map<string, ResultValue>
      reads this, renderResults.Values
    {
      map k | k in renderResults :: renderResults[k].Value()
    }
  }

  /** pluginCleanComponent: unlink the targets of the result already stored for the plugin. */
  method PluginCleanComponent(plugin: Plugin, component: Component, fs: FileSystem, rel: Relative) returns (ok: bool)
    modifies fs
    ensures IoResult(fs.files, ok) == UnlinkAll(old(fs.files), PreviousTargets(plugin, component.name, rel, component.Results()))
  {
    ok := true;
    if plugin.name in component.renderResults {
      var result := component.renderResults[plugin.name];
      var deps := result.GetDependencies();
      var i := 0;
      while i < |deps|
        invariant 0 <= i <= |deps|
        invariant var rest := UnlinkAll(fs.files, CleanTargets(component.name, rel, deps[i..]));
          UnlinkAll(old(fs.files), CleanTargets(component.name, rel, deps)) == IoResult(rest.files, ok && rest.ok)
      {
        assert deps[i..][1..] == deps[i + 1..];
        var unlinked := fs.Unlink(DependencyTarget(component.name, rel, deps[i]));
        ok := ok && unlinked;
        i := i + 1;
      }
    }
  }

  /** The write phase of _renderDone: copy every dependency, then write every binary. */
  method WriteOutput(name: string, result: RenderResult, fs: FileSystem, rel: Relative) returns (ok: bool)
    modifies fs
    ensures IoResult(fs.files, ok) == WriteOutputs(old(fs.files), name, rel, result.Value())
  {
    var deps := result.GetDependencies();
    ok := true;
    var i := 0;
    while i < |deps|
      invariant 0 <= i <= |deps|
      invariant var rest := CopyAll(fs.files, DependencyCopies(name, rel, deps[i..]));
        CopyAll(old(fs.files), DependencyCopies(name, rel, deps)) == IoResult(rest.files, ok && rest.ok)
    {
      assert deps[i..][1..] == deps[i + 1..];
      var copied := fs.CopyFile(deps[i], DependencyTarget(name, rel, deps[i]));
      ok := ok && copied;
      i := i + 1;
    }
    ghost var copiedFiles := fs.files;
    var bins := result.GetBinaries();
    var j := 0;
    while j < |bins|
      invariant 0 <= j <= |bins|
      invariant WriteAll(copiedFiles, BinaryWrites(name, bins)) == WriteAll(fs.files, BinaryWrites(name, bins[j..]))
    {
      assert bins[j..][1..] == bins[j + 1..];
      fs.WriteFile(BinaryTarget(name, bins[j]), bins[j].data);
      j := j + 1;
    }
  }

  /** The first half of _renderDone: record the entry with the failure, and the failure's file. */
  method Record(result: RenderResult, file: Option<Path>, err: Option<RenderError>)
    modifies result
    ensures result.Value() == Finish(old(result.Value()), file, err)
  {
    if file.Some? && Truthy(file.value) {
      result.AddSource(file.value, err);
    }
    if err.Some? && err.value.file.Some? && Truthy(err.value.file.value) {
      result.AddDependency(err.value.file.value);
    }
  }

  /** component.renderResults.set(key, result) */
  method Store(component: Component, key: string, result: RenderResult)
    modifies component
    ensures component.renderResults == old(component.renderResults)[key := result]
    ensures component.Results() == old(component.Results())[key := result.Value()]
  {
    component.renderResults := component.renderResults[key := result];
  }

  /** _renderDone: record, store under the plugin's name, then write the outputs. */
  method RenderDone(plugin: Plugin, component: Component, file: Option<Path>, result: RenderResult,
                    err: Option<RenderError>, fs: FileSystem, rel: Relative) returns (ok: bool)
    requires result !in component.renderResults.Values
    modifies result, component, fs
    ensures result.Value() == Finish(old(result.Value()), file, err)
    ensures component.renderResults == old(component.renderResults)[plugin.name := result]
    ensures component.Results() == old(component.Results())[plugin.name := result.Value()]
    ensures IoResult(fs.files, ok) == WriteOutputs(old(fs.files), component.name, rel, result.Value())
  {
    Record(result, file, err);
    Store(component, plugin.name, result);
    ok := WriteOutput(component.name, result, fs, rel);
  }

  /** pluginRenderComponent: one pairing, from clean to written outputs. */
  method PluginRenderComponent(plugin: Plugin, component: Component, fs: FileSystem, rel: Relative)
    returns (ok: bool, rendered: bool)
    modifies component, fs
    ensures Pairing(component.Results(), fs.files, ok, rendered)
         == Pair(plugin, component.name, component.path, rel, old(component.Results()), old(fs.files))
    ensures forall k :: k in old(component.renderResults) && k != plugin.name ==>
              k in component.renderResults && component.renderResults[k] == old(component.renderResults)[k]
    ensures plugin.name in component.renderResults ==>
              || (plugin.name in old(component.renderResults)
                  && component.renderResults[plugin.name] == old(component.renderResults)[plugin.name])
              || fresh(component.renderResults[plugin.name])
  {
    var cleaned := PluginCleanComponent(plugin, component, fs, rel);
    if !cleaned {
      return false, false;
    }
    ok, rendered := RenderAndCollect(plugin, component, fs, rel);
  }

  /** Everything after the clean: resolve the entry, render if it exists, collect and write. */
  method RenderAndCollect(plugin: Plugin, component: Component, fs: FileSystem, rel: Relative)
    returns (ok: bool, rendered: bool)
    modifies component, fs
    ensures var entry := EntryPath(component.path, plugin.entry);
      var v := StoredResult(plugin, entry, entry in old(fs.files));
      && rendered == (entry in old(fs.files))
      && component.Results() == old(component.Results())[plugin.name := v]
      && IoResult(fs.files, ok) == WriteOutputs(old(fs.files), component.name, rel, v)
    ensures plugin.name in component.renderResults
    ensures component.renderResults == old(component.renderResults)[plugin.name := component.renderResults[plugin.name]]
    ensures fresh(component.renderResults[plugin.name])
  {
    var entry := EntryPath(component.path, plugin.entry);
    if !fs.Exists(entry) {
      var empty := new RenderResult();
      ok := RenderDone(plugin, component, None, empty, None, fs, rel);
      return ok, false;
    }
    var result, err := Render(plugin, entry);
    ok := RenderDone(plugin, component, Some(entry), result, err, fs, rel);
    rendered := true;
  }

  /**
   * plugin.render(file, renderResult) on a fresh result: the result the
   * render settles with (the one handed in after its edits, or the one it
   * resolves with) and its error when it rejects.
   */
  method Render(plugin: Plugin, entry: Path) returns (result: RenderResult, err: Option<RenderError>)
    ensures fresh(result)
    ensures Finish(result.Value(), Some(entry), err) == StoredResult(plugin, entry, true)
  {
    result := new RenderResult();
    var rendering := plugin.render(entry);
    result.Load(WithEdits(result.Value(), rendering.edits));
    err := None;
    if rendering.Rejected? {
      err := rendering.error;
    } else if rendering.returned.OtherResult? {
      result := new RenderResult.FromValue(rendering.returned.value);
    }
  }

  /**
   * buildComponent: every plugin's pairing, in plugin order; the same
   * component object is returned once all of them have resolved.
   */
  method BuildComponent(component: Component, plugins: seq<Plugin>, fs: FileSystem, rel: Relative)
    returns (built: Option<Component>)
    modifies component, fs
    ensures var b := BuildAll(plugins, component.name, component.path, rel, old(component.Results()), old(fs.files));
      && component.Results() == b.results
      && fs.files == b.files
      && built == if b.ok then Some(component) else None
  {
    var allOk := true;
    var i := 0;
    while i < |plugins|
      invariant 0 <= i <= |plugins|
      invariant var rest := BuildAll(plugins[i..], component.name, component.path, rel, component.Results(), fs.files);
        BuildAll(plugins, component.name, component.path, rel, old(component.Results()), old(fs.files))
          == Built(rest.results, rest.files, allOk && rest.ok)
    {
      assert plugins[i..][1..] == plugins[i + 1..];
      var ok, _ := PluginRenderComponent(plugins[i], component, fs, rel);
      allOk := allOk && ok;
      i := i + 1;
    }
    built := if allOk then Some(component) else None;
  }
}
