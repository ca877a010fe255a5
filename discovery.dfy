/**
 * Component discovery: a recursive walk of the component root that yields
 * one component record per manifest file found anywhere below it.
 */
module Discovery {
  import opened Common

  /** What reading a directory gives: its entries in listing order, or a failure. */
  datatype Listing = Listed(entries: seq<Entry>) | Unlistable

  /** One directory entry, as stat classifies it. */
  datatype Entry =
    | Directory(name: string, listing: Listing)
    /** A regular file; `manifest` is the `name` it declares when loaded as a manifest (None: loading it throws). */
    | File(name: string, manifest: Option<string>)
    /** Neither a directory nor a regular file. */
    | Other(name: string)
    /** An entry whose stat fails. */
    | Unstatable(name: string)

  /** The Component(name, path) that discovery creates for a manifest. */
  datatype Found = Found(name: string, path: Path)

  datatype Failure = ReadDirFailed(dir: Path) | StatFailed(path: Path) | ManifestFailed(path: Path)

  /** The outcome of a walk: the components in discovery order, or the rejection. */
  datatype Discovered = Ok(components: seq<Found>) | Fail(failure: Failure)

  function Join(dir: Path, name: string): Path
  {
    dir + "/" + name
  }

  /** Joins two walks: both must succeed; their components are concatenated. */
  function Concat(a: Discovered, b: Discovered): Discovered
  {
    if a.Fail? then a else if b.Fail? then b else Ok(a.components + b.components)
  }

  /** _getComponentsInsideDirectory (and getComponents on the root). */
  function InDirectory(dir: Path, l: Listing, manifest: string): (found: Discovered)
    ensures found.Fail? <==> l.Unlistable? || exists i :: 0 <= i < |l.entries| && InEntry(dir, l.entries[i], manifest).Fail?
    decreases l
  {
    match l
    case Unlistable => Fail(ReadDirFailed(dir))
    case Listed(es) => InEntries(dir, es, manifest)
  }

  /** The entries of one directory, walked in listing order; one failing entry fails them all. */
  function InEntries(dir: Path, es: seq<Entry>, manifest: string): (found: Discovered)
    ensures found.Fail? <==> exists i :: 0 <= i < |es| && InEntry(dir, es[i], manifest).Fail?
    decreases es
  {
    if es == [] then Ok([]) else Concat(InEntry(dir, es[0], manifest), InEntries(dir, es[1..], manifest))
  }

  /** One entry: a directory is walked, a file named like the manifest is loaded, anything else is skipped. */
  function InEntry(dir: Path, e: Entry, manifest: string): (found: Discovered)
    ensures (e.Other? || (e.File? && e.name != manifest)) ==> found == Ok([])
    ensures e.File? && e.name == manifest ==> (found.Ok? <==> e.manifest.Some?)
    ensures found.Ok? && found.components != [] ==> e.Directory? || (e.File? && e.name == manifest)
    decreases e
  {
    match e
    case Directory(n, l) => InDirectory(Join(dir, n), l, manifest)
    case File(n, m) =>
      if n == manifest then
        match m
        case Some(declared) => Ok([Found(declared, dir)])
        case None => Fail(ManifestFailed(Join(dir, n)))
      else Ok([])
    case Other(_) => Ok([])
    case Unstatable(n) => Fail(StatFailed(Join(dir, n)))
  }

  // An independent description of the same tree: all its regular files, flattened.

  /** A regular file found under the root, with the directory that contains it. */
  datatype FileAt = FileAt(dir: Path, name: string, manifest: Option<string>)

  /** Every regular file below the directory, depth-first in listing order. */
  function FilesIn(dir: Path, l: Listing): seq<FileAt>
    decreases l
  {
    match l
    case Unlistable => []
    case Listed(es) => FilesInEntries(dir, es)
  }

  function FilesInEntries(dir: Path, es: seq<Entry>): seq<FileAt>
    decreases es
  {
    if es == [] then [] else FilesInEntry(dir, es[0]) + FilesInEntries(dir, es[1..])
  }

  function FilesInEntry(dir: Path, e: Entry): seq<FileAt>
    decreases e
  {
    match e
    case Directory(n, l) => FilesIn(Join(dir, n), l)
    case File(n, m) => [FileAt(dir, n, m)]
    case Other(_) => []
    case Unstatable(_) => []
  }

  /** Every directory below can be listed and every entry can be stat'ed. */
  predicate Readable(l: Listing)
    decreases l
  {
    match l
    case Unlistable => false
    case Listed(es) => forall i :: 0 <= i < |es| ==> EntryReadable(es[i])
  }

  predicate EntryReadable(e: Entry)
    decreases e
  {
    match e
    case Directory(_, l) => Readable(l)
    case Unstatable(_) => false
    case _ => true
  }

  /** The files whose name is the manifest file name, in order. */
  function Named(files: seq<FileAt>, manifest: string): (r: seq<FileAt>)
    ensures forall i :: 0 <= i < |r| ==> r[i].name == manifest
  {
    if files == [] then []
    else (if files[0].name == manifest then [files[0]] else []) + Named(files[1..], manifest)
  }

  predicate AllLoad(files: seq<FileAt>)
  {
    forall i :: 0 <= i < |files| ==> files[i].manifest.Some?
  }

  /** One component per manifest: its declared name, and the directory holding it. */
  function ComponentsOf(files: seq<FileAt>): (r: seq<Found>)
    requires AllLoad(files)
    ensures |r| == |files|
    ensures forall i :: 0 <= i < |r| ==> r[i] == Found(files[i].manifest.value, files[i].dir)
  {
    if files == [] then [] else [Found(files[0].manifest.value, files[0].dir)] + ComponentsOf(files[1..])
  }

  lemma {:induction false} NamedAppend(a: seq<FileAt>, b: seq<FileAt>, manifest: string)
    ensures Named(a + b, manifest) == Named(a, manifest) + Named(b, manifest)
    decreases |a|
  {
    if a == [] {
      assert a + b == b;
    } else {
      assert (a + b)[0] == a[0] && (a + b)[1..] == a[1..] + b;
      NamedAppend(a[1..], b, manifest);
    }
  }

  lemma ComponentsOfAppend(a: seq<FileAt>, b: seq<FileAt>)
    requires AllLoad(a) && AllLoad(b)
    ensures AllLoad(a + b)
    ensures ComponentsOf(a + b) == ComponentsOf(a) + ComponentsOf(b)
  {
    assert forall i :: 0 <= i < |a + b| ==> (a + b)[i] == if i < |a| then a[i] else b[i - |a|];
  }

  lemma AllLoadAppend(a: seq<FileAt>, b: seq<FileAt>)
    ensures AllLoad(a + b) <==> AllLoad(a) && AllLoad(b)
  {
    if AllLoad(a + b) {
      forall i | 0 <= i < |a| ensures a[i].manifest.Some? { assert a[i] == (a + b)[i]; }
      forall i | 0 <= i < |b| ensures b[i].manifest.Some? { assert b[i] == (a + b)[|a| + i]; }
    }
  }

  lemma ReadableCons(es: seq<Entry>)
    requires es != []
    ensures (forall i :: 0 <= i < |es| ==> EntryReadable(es[i]))
        <==> EntryReadable(es[0]) && (forall i :: 0 <= i < |es[1..]| ==> EntryReadable(es[1..][i]))
  {
    assert forall i :: 1 <= i < |es| ==> es[i] == es[1..][i - 1];
  }

  /**
   * Discovery yields exactly one component per regular file named as the
   * manifest, anywhere below the root and depth-first in listing order:
   * its name is the one the manifest declares and its path the directory
   * holding it; no other entry contributes. The walk fails exactly when a
   * directory cannot be listed, an entry cannot be stat'ed or a manifest
   * cannot be loaded.
   */
  lemma {:induction false} DiscoveryFindsEveryManifest(dir: Path, l: Listing, manifest: string)
    ensures var found := InDirectory(dir, l, manifest);
      var manifests := Named(FilesIn(dir, l), manifest);
      && (found.Ok? <==> Readable(l) && AllLoad(manifests))
      && (found.Ok? ==> found.components == ComponentsOf(manifests))
    decreases l
  {
    match l
    case Unlistable =>
    case Listed(es) => EntriesFindEveryManifest(dir, es, manifest);
  }

  lemma {:induction false} EntriesFindEveryManifest(dir: Path, es: seq<Entry>, manifest: string)
    ensures var found := InEntries(dir, es, manifest);
      var manifests := Named(FilesInEntries(dir, es), manifest);
      && (found.Ok? <==> (forall i :: 0 <= i < |es| ==> EntryReadable(es[i])) && AllLoad(manifests))
      && (found.Ok? ==> found.components == ComponentsOf(manifests))
    decreases es
  {
    if es != [] {
      EntryFindsEveryManifest(dir, es[0], manifest);
      EntriesFindEveryManifest(dir, es[1..], manifest);
      var a, b := FilesInEntry(dir, es[0]), FilesInEntries(dir, es[1..]);
      NamedAppend(a, b, manifest);
      var na, nb := Named(a, manifest), Named(b, manifest);
      AllLoadAppend(na, nb);
      ReadableCons(es);
      if AllLoad(na) && AllLoad(nb) {
        ComponentsOfAppend(na, nb);
      }
    }
  }

  lemma {:induction false} EntryFindsEveryManifest(dir: Path, e: Entry, manifest: string)
    ensures var found := InEntry(dir, e, manifest);
      var manifests := Named(FilesInEntry(dir, e), manifest);
      && (found.Ok? <==> EntryReadable(e) && AllLoad(manifests))
      && (found.Ok? ==> found.components == ComponentsOf(manifests))
    decreases e
  {
    match e
    case Directory(n, l) => DiscoveryFindsEveryManifest(Join(dir, n), l, manifest);
    case File(n, m) =>
      assert [FileAt(dir, n, m)][1..] == [];
      assert Named(FilesInEntry(dir, e), manifest) == if n == manifest then [FileAt(dir, n, m)] else [];
    case Other(_) =>
    case Unstatable(_) =>
  }
}
