/** What one pairing and one component build promise. */
module BuildLaws {
  import opened Common
  import opened Results
  import opened FileSystems
  import opened Build

  /** The clean phase unlinks exactly the paths the write phase copies dependencies to. */
  lemma CleanTargetsAreCopyTargets(name: string, rel: Relative, deps: seq<Path>)
    ensures CleanTargets(name, rel, deps) == Targets(DependencyCopies(name, rel, deps))
  {
    var a, b := CleanTargets(name, rel, deps), Targets(DependencyCopies(name, rel, deps));
    assert |a| == |b| && forall i :: 0 <= i < |a| ==> a[i] == b[i];
  }

  /** Without a stored result for the plugin, the clean phase does nothing and succeeds. */
  lemma CleanNeedsStoredResult(plugin: Plugin, name: string, rel: Relative, results: map<string, ResultValue>, files: Files)
    requires plugin.name !in results
    ensures UnlinkAll(files, PreviousTargets(plugin, name, rel, results)) == IoResult(files, true)
  {
    assert (set t | t in PreviousTargets(plugin, name, rel, results)) == {};
  }

  /**
   * With a stored result, the clean phase removes exactly the copy target of
   * each stored dependency and touches no other path, which spares every
   * binary output unless a dependency copy landed on the same path. It
   * fails if one of those targets is missing (or named twice), and then the
   * pairing ends there: render is not called and no result is stored.
   */
  lemma CleanRemovesPreviousCopiesOnly(plugin: Plugin, name: string, dir: Path, rel: Relative,
                                       results: map<string, ResultValue>, files: Files)
    requires plugin.name in results
    ensures var previous := results[plugin.name];
      var targets := Targets(DependencyCopies(name, rel, previous.dependencies));
      var cleaned := UnlinkAll(files, PreviousTargets(plugin, name, rel, results));
      && cleaned.files == files - (set t | t in targets)
      && (cleaned.ok <==> (forall i :: 0 <= i < |targets| ==> targets[i] in files) && Distinct(targets))
      && (forall b :: b in previous.binaries && BinaryTarget(name, b) !in targets && BinaryTarget(name, b) in files ==>
            BinaryTarget(name, b) in cleaned.files && cleaned.files[BinaryTarget(name, b)] == files[BinaryTarget(name, b)])
      && (!cleaned.ok ==> Pair(plugin, name, dir, rel, results, files) == Pairing(results, cleaned.files, false, false))
  {
    CleanTargetsAreCopyTargets(name, rel, results[plugin.name].dependencies);
  }

  /**
   * When the entry file does not exist, render is never called: the stored
   * result is the fresh, empty one (no source, no dependency, no binary)
   * and nothing is copied or written.
   */
  lemma MissingEntrySkipsRender(plugin: Plugin, name: string, dir: Path, rel: Relative,
                                results: map<string, ResultValue>, files: Files)
    requires var cleaned := UnlinkAll(files, PreviousTargets(plugin, name, rel, results));
      cleaned.ok && EntryPath(dir, plugin.entry) !in cleaned.files
    ensures var cleaned := UnlinkAll(files, PreviousTargets(plugin, name, rel, results));
      Pair(plugin, name, dir, rel, results, files) == Pairing(results[plugin.name := Empty], cleaned.files, true, false)
  {
  }

  /**
   * A rejected render is still collected: the entry is recorded paired with
   * the error (no error for a falsy reason), the error's file becomes a
   * dependency, everything the plugin
   * recorded before failing is kept, the result is stored, and every binary
   * is still written (and every dependency copied, when the copies succeed).
   */
  lemma FailedRenderIsKept(plugin: Plugin, name: string, dir: Path, rel: Relative,
                           results: map<string, ResultValue>, files: Files, edits: seq<Edit>, err: Option<RenderError>)
    requires var cleaned := UnlinkAll(files, PreviousTargets(plugin, name, rel, results));
      cleaned.ok && EntryPath(dir, plugin.entry) in cleaned.files
    requires plugin.render(EntryPath(dir, plugin.entry)) == Rejected(edits, err)
    ensures var p := Pair(plugin, name, dir, rel, results, files);
      var entry := EntryPath(dir, plugin.entry);
      && p.rendered
      && plugin.name in p.results
      && var v := p.results[plugin.name];
      && v.sources == AddedSources(edits) + [SourceRecord(entry, err)]
      && (err.Some? && err.value.file.Some? && err.value.file.value != "" ==> err.value.file.value in v.dependencies)
      && (forall d :: d in AddedDependencies(edits) ==> d in v.dependencies)
      && v.binaries == AddedBinaries(edits)
      && (forall b :: b in v.binaries ==> BinaryTarget(name, b) in p.files)
      && (p.ok ==> forall d :: d in v.dependencies ==> DependencyTarget(name, rel, d) in p.files)
  {
    var cleaned := UnlinkAll(files, PreviousTargets(plugin, name, rel, results));
    var entry := EntryPath(dir, plugin.entry);
    var v := StoredResult(plugin, entry, true);
    RejectionIsRecorded(plugin, entry, edits, err);
    assert Pair(plugin, name, dir, rel, results, files)
        == Pairing(results[plugin.name := v], WriteOutputs(cleaned.files, name, rel, v).files,
                   WriteOutputs(cleaned.files, name, rel, v).ok, true);
    OutputsArePresent(cleaned.files, name, rel, v);
  }

  /**
   * The result a rejected render leaves: its edits, then the entry with the
   * rejection's reason (none when the reason is falsy), then the reason's file.
   */
  lemma RejectionIsRecorded(plugin: Plugin, entry: Path, edits: seq<Edit>, err: Option<RenderError>)
    requires entry != "" && plugin.render(entry) == Rejected(edits, err)
    ensures var v := StoredResult(plugin, entry, true);
      && v.sources == AddedSources(edits) + [SourceRecord(entry, err)]
      && (err.Some? && err.value.file.Some? && err.value.file.value != "" ==> err.value.file.value in v.dependencies)
      && (forall d :: d in AddedDependencies(edits) ==> d in v.dependencies)
      && v.binaries == AddedBinaries(edits)
  {
    EditsAccumulate(Empty, edits);
    assert StoredResult(plugin, entry, true) == Finish(WithEdits(Empty, edits), Some(entry), err);
  }

  /** The write phase leaves every binary target present, and every copy target when it succeeds. */
  lemma OutputsArePresent(files: Files, name: string, rel: Relative, v: ResultValue)
    ensures var w := WriteOutputs(files, name, rel, v);
      && (forall b :: b in v.binaries ==> BinaryTarget(name, b) in w.files)
      && (w.ok ==> forall d :: d in v.dependencies ==> DependencyTarget(name, rel, d) in w.files)
  {
    var copies := DependencyCopies(name, rel, v.dependencies);
    var writes := BinaryWrites(name, v.binaries);
    var copied := CopyAll(files, copies);
    CopyAllGrows(files, copies);
    WriteAllGrows(copied.files, writes);
    forall b | b in v.binaries ensures BinaryTarget(name, b) in WriteAll(copied.files, writes) {
      var i :| 0 <= i < |v.binaries| && v.binaries[i] == b;
      assert writes[i].to == BinaryTarget(name, b);
    }
    forall d | copied.ok && d in v.dependencies ensures DependencyTarget(name, rel, d) in WriteAll(copied.files, writes) {
      var i :| 0 <= i < |v.dependencies| && v.dependencies[i] == d;
      assert copies[i].to == DependencyTarget(name, rel, d);
    }
  }

  /**
   * A resolved render stores the result it resolved with, with only the
   * entry source added, whether that is the result it was handed or another.
   */
  lemma SuccessStoresReturnedResult(plugin: Plugin, name: string, dir: Path, rel: Relative,
                                    results: map<string, ResultValue>, files: Files, edits: seq<Edit>, returned: Returned)
    requires var cleaned := UnlinkAll(files, PreviousTargets(plugin, name, rel, results));
      cleaned.ok && EntryPath(dir, plugin.entry) in cleaned.files
    requires plugin.render(EntryPath(dir, plugin.entry)) == Resolved(edits, returned)
    ensures var p := Pair(plugin, name, dir, rel, results, files);
      var resolved := if returned.SameResult? then WithEdits(Empty, edits) else returned.value;
      && p.rendered
      && p.results == results[plugin.name := resolved.(sources := resolved.sources + [SourceRecord(EntryPath(dir, plugin.entry), None)])]
  {
    assert EntryPath(dir, plugin.entry) != "";
  }

  /** Distinct paths in a concatenation are distinct in each part and across the parts. */
  lemma DistinctParts(a: seq<Path>, b: seq<Path>)
    requires Distinct(a + b)
    ensures Distinct(a) && Distinct(b)
    ensures forall p :: p in a ==> p !in b
  {
    forall i, j | 0 <= i < j < |a| ensures a[i] != a[j] { assert (a + b)[i] == a[i] && (a + b)[j] == a[j]; }
    forall i, j | 0 <= i < j < |b| ensures b[i] != b[j] { assert (a + b)[|a| + i] == b[i] && (a + b)[|a| + j] == b[j]; }
    forall p | p in a ensures p !in b {
      var i :| 0 <= i < |a| && a[i] == p;
      forall j | 0 <= j < |b| ensures b[j] != p { assert (a + b)[i] == a[i] && (a + b)[|a| + j] == b[j]; }
    }
  }

  /** Every dependency copy's source exists exactly when every dependency does. */
  lemma CopySourcesAreDependencies(files: Files, name: string, rel: Relative, deps: seq<Path>)
    ensures (forall i :: 0 <= i < |deps| ==> DependencyCopies(name, rel, deps)[i].from in files)
        ==> (forall d :: d in deps ==> d in files)
    ensures (forall d :: d in deps ==> d in files) ==>
      (forall i :: 0 <= i < |deps| ==> DependencyCopies(name, rel, deps)[i].from in files)
  {
    var copies := DependencyCopies(name, rel, deps);
    assert forall i :: 0 <= i < |deps| ==> copies[i].from == deps[i];
  }

  /**
   * The write phase, when no two outputs share a path and no dependency is
   * itself an output path: it succeeds exactly when every dependency
   * exists; each existing dependency is then copied byte for byte to
   * dist/<name>/<relative path>, each binary's data is written to
   * dist/<name>/<binary name>, and every other path is left as it was.
   */
  lemma WrittenOutputsAreExact(files: Files, name: string, rel: Relative, v: ResultValue)
    requires var copies := DependencyCopies(name, rel, v.dependencies);
      var writes := BinaryWrites(name, v.binaries);
      Distinct(Targets(copies) + WriteTargets(writes)) && SourcesAreNotTargets(copies)
    ensures var w := WriteOutputs(files, name, rel, v);
      var outputs := Targets(DependencyCopies(name, rel, v.dependencies)) + WriteTargets(BinaryWrites(name, v.binaries));
      && (w.ok <==> forall d :: d in v.dependencies ==> d in files)
      && (forall d :: d in v.dependencies && d in files ==>
            DependencyTarget(name, rel, d) in w.files && w.files[DependencyTarget(name, rel, d)] == files[d])
      && (forall b :: b in v.binaries ==> BinaryTarget(name, b) in w.files && w.files[BinaryTarget(name, b)] == b.data)
      && (forall p :: p !in outputs ==> (p in w.files <==> p in files))
      && (forall p :: p !in outputs && p in files ==> w.files[p] == files[p])
  {
    var copies := DependencyCopies(name, rel, v.dependencies);
    var writes := BinaryWrites(name, v.binaries);
    var ct, wt := Targets(copies), WriteTargets(writes);
    DistinctParts(ct, wt);
    CopySourcesAreDependencies(files, name, rel, v.dependencies);
    var copied := CopyAll(files, copies);
    CopyAllExact(files, copies);
    WriteAllExact(copied.files, writes);
    var r := WriteAll(copied.files, writes);
    forall d | d in v.dependencies && d in files
      ensures DependencyTarget(name, rel, d) in r && r[DependencyTarget(name, rel, d)] == files[d]
    {
      var i :| 0 <= i < |v.dependencies| && v.dependencies[i] == d;
      assert copies[i] == Copy(d, DependencyTarget(name, rel, d)) && ct[i] == copies[i].to;
    }
    forall b | b in v.binaries ensures BinaryTarget(name, b) in r && r[BinaryTarget(name, b)] == b.data {
      var i :| 0 <= i < |v.binaries| && v.binaries[i] == b;
      assert writes[i] == Write(BinaryTarget(name, b), b.data);
    }
  }

  /**
   * Incremental cleanup: after a pairing resolves, the next pairing of the
   * same plugin on the same component cleans precisely the copies this one
   * made; it removes every one of them, and succeeds when no two of them
   * share a path.
   */
  lemma RebuildCleansPreviousCopies(plugin: Plugin, name: string, dir: Path, rel: Relative,
                                    results: map<string, ResultValue>, files: Files)
    requires Pair(plugin, name, dir, rel, results, files).ok
    ensures var p := Pair(plugin, name, dir, rel, results, files);
      && plugin.name in p.results
      && var deps := p.results[plugin.name].dependencies;
      && var targets := PreviousTargets(plugin, name, rel, p.results);
      && targets == Targets(DependencyCopies(name, rel, deps))
      && var again := UnlinkAll(p.files, targets);
      && (forall d :: d in deps ==> DependencyTarget(name, rel, d) !in again.files)
      && (Distinct(targets) ==> again.ok)
  {
    var p := Pair(plugin, name, dir, rel, results, files);
    var cleaned := UnlinkAll(files, PreviousTargets(plugin, name, rel, results));
    var v := p.results[plugin.name];
    var deps := v.dependencies;
    CleanTargetsAreCopyTargets(name, rel, deps);
    OutputsArePresent(cleaned.files, name, rel, v);
    var targets := CleanTargets(name, rel, deps);
    var again := UnlinkAll(p.files, targets);
    forall d | d in deps ensures DependencyTarget(name, rel, d) !in again.files {
      var i :| 0 <= i < |deps| && deps[i] == d;
      assert targets[i] == DependencyTarget(name, rel, d);
    }
    forall i | 0 <= i < |targets| ensures targets[i] in p.files {
      assert targets[i] == DependencyTarget(name, rel, deps[i]);
    }
  }

  /** The names the plugins store their results under. */
  function Names(plugins: seq<Plugin>): set<string>
  {
    set i | 0 <= i < |plugins| :: plugins[i].name
  }

  lemma NamesCons(plugins: seq<Plugin>)
    requires plugins != []
    ensures Names(plugins) == {plugins[0].name} + Names(plugins[1..])
  {
    forall n | n in Names(plugins) ensures n in {plugins[0].name} + Names(plugins[1..]) {
      var i :| 0 <= i < |plugins| && plugins[i].name == n;
      if i > 0 { assert plugins[1..][i - 1] == plugins[i]; }
    }
    forall n | n in Names(plugins[1..]) ensures n in Names(plugins) {
      var i :| 0 <= i < |plugins[1..]| && plugins[1..][i].name == n;
      assert plugins[i + 1] == plugins[1..][i];
    }
  }

  /**
   * A component build sets only the keys of its plugins' names, and
   * results stored under any other key are left as they were.
   */
  lemma {:induction false} BuildTouchesOnlyPluginKeys(plugins: seq<Plugin>, name: string, dir: Path, rel: Relative,
                                                      results: map<string, ResultValue>, files: Files)
    ensures var b := BuildAll(plugins, name, dir, rel, results, files);
      && results.Keys <= b.results.Keys <= results.Keys + Names(plugins)
      && (forall k :: k in results && k !in Names(plugins) ==> b.results[k] == results[k])
    decreases |plugins|
  {
    if plugins != [] {
      var p := Pair(plugins[0], name, dir, rel, results, files);
      BuildTouchesOnlyPluginKeys(plugins[1..], name, dir, rel, p.results, p.files);
      NamesCons(plugins);
    }
  }

  /**
   * After any build, first or repeated, a result is stored under every
   * plugin's name: a pairing whose clean fails keeps the result it had.
   */
  lemma {:induction false} BuildStoresEveryPlugin(plugins: seq<Plugin>, name: string, dir: Path, rel: Relative,
                                                  results: map<string, ResultValue>, files: Files)
    ensures BuildAll(plugins, name, dir, rel, results, files).results.Keys == results.Keys + Names(plugins)
    decreases |plugins|
  {
    if plugins != [] {
      var p := Pair(plugins[0], name, dir, rel, results, files);
      BuildStoresEveryPlugin(plugins[1..], name, dir, rel, p.results, p.files);
      NamesCons(plugins);
    }
  }
}
