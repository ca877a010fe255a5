/**
 * The render result: the per-(component, plugin) ledger of examined
 * sources, dependencies and binaries, with the operations the build engine
 * and plugins use on it (addSource, addDependency, getDependencies,
 * getBinaries, and adding binaries).
 */
module Results {
  import opened Common

  /** A render failure; `file` names a source it concerns, when the plugin knows one. */
  datatype RenderError = RenderError(message: string, file: Option<Path>, line: Option<int>)

  /** A source examined by the render, paired with the failure it caused, if any. */
  datatype SourceRecord = SourceRecord(file: Path, error: Option<RenderError>)

  /** The contents of a render result. Dependencies form a set kept in insertion order. */
  datatype ResultValue = ResultValue(sources: seq<SourceRecord>, dependencies: seq<Path>, binaries: seq<Binary>)

  const Empty := ResultValue([], [], [])

  /** One mutation of a render result. */
  datatype Edit = AddSource(file: Path, error: Option<RenderError>) | AddDependency(path: Path) | AddBinary(binary: Binary)

  /** Nothing recorded in `before` is lost or reordered in `after`. */
  predicate Grows(after: ResultValue, before: ResultValue)
  {
    && before.sources <= after.sources
    && before.dependencies <= after.dependencies
    && before.binaries <= after.binaries
  }

  function WithEdit(v: ResultValue, e: Edit): (r: ResultValue)
    ensures Grows(r, v)
    ensures Distinct(v.dependencies) ==> Distinct(r.dependencies)
    ensures forall p :: p in r.dependencies <==> p in v.dependencies || e == AddDependency(p)
  {
    match e
    case AddSource(file, error) => v.(sources := v.sources + [SourceRecord(file, error)])
    case AddDependency(p) => if p in v.dependencies then v else v.(dependencies := v.dependencies + [p])
    case AddBinary(b) => v.(binaries := v.binaries + [b])
  }

  /** The result after the edits, made in order. */
  function WithEdits(v: ResultValue, es: seq<Edit>): ResultValue
    decreases |es|
  {
    if es == [] then v else WithEdits(WithEdit(v, es[0]), es[1..])
  }

  /** The paths the edits add as dependencies. */
  function AddedDependencies(es: seq<Edit>): seq<Path>
  {
    if es == [] then [] else (if es[0].AddDependency? then [es[0].path] else []) + AddedDependencies(es[1..])
  }

  /** The sources the edits record, in order. */
  function AddedSources(es: seq<Edit>): seq<SourceRecord>
  {
    if es == [] then [] else (if es[0].AddSource? then [SourceRecord(es[0].file, es[0].error)] else []) + AddedSources(es[1..])
  }

  /** The binaries the edits add, in order. */
  function AddedBinaries(es: seq<Edit>): seq<Binary>
  {
    if es == [] then [] else (if es[0].AddBinary? then [es[0].binary] else []) + AddedBinaries(es[1..])
  }

  /** Edits keep everything recorded, and append the added sources and binaries in order. */
  lemma {:induction false} EditsAppendInOrder(v: ResultValue, es: seq<Edit>)
    ensures var r := WithEdits(v, es);
      && Grows(r, v)
      && r.sources == v.sources + AddedSources(es)
      && r.binaries == v.binaries + AddedBinaries(es)
    decreases |es|
  {
    if es != [] {
      var v1 := WithEdit(v, es[0]);
      EditsAppendInOrder(v1, es[1..]);
      assert v.sources + AddedSources(es) == v1.sources + AddedSources(es[1..]);
      assert v.binaries + AddedBinaries(es) == v1.binaries + AddedBinaries(es[1..]);
    }
  }

  /** Edits make the dependencies the old ones together with the added ones, each once. */
  lemma {:induction false} EditsMergeDependencies(v: ResultValue, es: seq<Edit>)
    ensures var r := WithEdits(v, es);
      && (forall p :: p in r.dependencies <==> p in v.dependencies || p in AddedDependencies(es))
      && (Distinct(v.dependencies) ==> Distinct(r.dependencies))
    decreases |es|
  {
    if es != [] {
      var v1 := WithEdit(v, es[0]);
      EditsMergeDependencies(v1, es[1..]);
      assert forall p :: p in AddedDependencies(es) <==> es[0] == AddDependency(p) || p in AddedDependencies(es[1..]);
    }
  }

  /**
   * Edits only add: the sources and binaries added are appended in order,
   * and the dependencies become the old ones together with the added ones,
   * each once.
   */
  lemma EditsAccumulate(v: ResultValue, es: seq<Edit>)
    ensures var r := WithEdits(v, es);
      && Grows(r, v)
      && r.sources == v.sources + AddedSources(es)
      && r.binaries == v.binaries + AddedBinaries(es)
      && (forall p :: p in r.dependencies <==> p in v.dependencies || p in AddedDependencies(es))
      && (Distinct(v.dependencies) ==> Distinct(r.dependencies))
  {
    EditsAppendInOrder(v, es);
    EditsMergeDependencies(v, es);
  }

  class RenderResult {
    var sources: seq<SourceRecord>
    var dependencies: seq<Path>
    var binaries: seq<Binary>

    function Value(): ResultValue
      reads this
    {
      ResultValue(sources, dependencies, binaries)
    }

    /** A fresh, empty result. */
    constructor ()
      ensures Value() == Empty
    {
      sources, dependencies, binaries := [], [], [];
    }

    /** A result object distinct from every other, holding the given contents. */
    constructor FromValue(v: ResultValue)
      ensures Value() == v
    {
      sources, dependencies, binaries := v.sources, v.dependencies, v.binaries;
    }

    method AddSource(file: Path, error: Option<RenderError>)
      modifies this
      ensures Value() == WithEdit(old(Value()), Edit.AddSource(file, error))
    {
      sources := sources + [SourceRecord(file, error)];
    }

    method AddDependency(path: Path)
      modifies this
      ensures Value() == WithEdit(old(Value()), Edit.AddDependency(path))
    {
      if path !in dependencies {
        dependencies := dependencies + [path];
      }
    }

    /** What a plugin's render leaves in the result it was handed. */
    method Load(v: ResultValue)
      modifies this
      ensures Value() == v
    {
      sources, dependencies, binaries := v.sources, v.dependencies, v.binaries;
    }

    /** getDependencies: the dependencies recorded so far, in the order they were first added. */
    function GetDependencies(): (deps: seq<Path>)
      reads this
      ensures deps == Value().dependencies
    {
      dependencies
    }

    /** getBinaries: the binaries recorded so far, in order. */
    function GetBinaries(): (bins: seq<Binary>)
      reads this
      ensures bins == Value().binaries
    {
      binaries
    }
  }
}
