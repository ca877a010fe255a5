/**
 * The file system the engine works on, abstracted as a map from path to
 * content: exists, unlink, copyFile and writeFile. An unlink of a missing
 * file and a copy from a missing file reject; a write always succeeds.
 */
module FileSystems {
  import opened Common

  type Files = map<Path, Bytes>

  /** The file system after a batch of operations, and whether every one of them succeeded. */
  datatype IoResult = IoResult(files: Files, ok: bool)

  datatype Copy = Copy(from: Path, to: Path)
  datatype Write = Write(to: Path, data: Bytes)

  function Targets(copies: seq<Copy>): (r: seq<Path>)
    ensures |r| == |copies| && forall i :: 0 <= i < |r| ==> r[i] == copies[i].to
  {
    if copies == [] then [] else [copies[0].to] + Targets(copies[1..])
  }

  function WriteTargets(writes: seq<Write>): (r: seq<Path>)
    ensures |r| == |writes| && forall i :: 0 <= i < |r| ==> r[i] == writes[i].to
  {
    if writes == [] then [] else [writes[0].to] + WriteTargets(writes[1..])
  }

  /**
   * Unlinking every target: exactly the targets are gone afterwards, and
   * the batch succeeds exactly when every target existed and none is
   * named twice (a second unlink of one path finds it missing).
   */
  function UnlinkAll(files: Files, targets: seq<Path>): (r: IoResult)
    ensures r.files == files - (set t | t in targets)
    ensures r.ok <==> (forall i :: 0 <= i < |targets| ==> targets[i] in files) && Distinct(targets)
    decreases |targets|
  {
    if targets == [] then IoResult(files, true)
    else
      var rest := UnlinkAll(files - {targets[0]}, targets[1..]);
      assert (set t | t in targets) == {targets[0]} + (set t | t in targets[1..]);
      assert forall i :: 1 <= i < |targets| ==> targets[i] == targets[1..][i - 1];
      IoResult(rest.files, targets[0] in files && rest.ok)
  }

  /** Copying in order; a copy from a missing path fails and leaves the files alone. */
  function CopyAll(files: Files, copies: seq<Copy>): IoResult
    decreases |copies|
  {
    if copies == [] then IoResult(files, true)
    else
      var c := copies[0];
      var step := if c.from in files then files[c.to := files[c.from]] else files;
      var rest := CopyAll(step, copies[1..]);
      IoResult(rest.files, c.from in files && rest.ok)
  }

  /** Writing in order. */
  function WriteAll(files: Files, writes: seq<Write>): Files
    decreases |writes|
  {
    if writes == [] then files else WriteAll(files[writes[0].to := writes[0].data], writes[1..])
  }

  /**
   * Copies only add or overwrite: no file disappears, every copy whose
   * source existed beforehand leaves its target present, and the batch
   * succeeds when every source existed beforehand.
   */
  lemma {:induction false} CopyAllGrows(files: Files, copies: seq<Copy>)
    ensures var r := CopyAll(files, copies);
      && files.Keys <= r.files.Keys
      && (forall i :: 0 <= i < |copies| && copies[i].from in files ==> copies[i].to in r.files)
      && ((forall i :: 0 <= i < |copies| ==> copies[i].from in files) ==> r.ok)
      && (r.ok ==> forall i :: 0 <= i < |copies| ==> copies[i].to in r.files)
    decreases |copies|
  {
    if copies != [] {
      var c := copies[0];
      var step := if c.from in files then files[c.to := files[c.from]] else files;
      CopyAllGrows(step, copies[1..]);
      forall i | 1 <= i < |copies| ensures copies[i] == copies[1..][i - 1] {}
    }
  }

  /** No copy reads a path that some copy of the batch writes. */
  predicate SourcesAreNotTargets(copies: seq<Copy>)
  {
    forall i, j :: 0 <= i < |copies| && 0 <= j < |copies| ==> copies[i].from != copies[j].to
  }

  /**
   * When no two copies share a target and no source is a target, the batch
   * succeeds exactly when every source exists, each target then holds its
   * source's bytes, and every path that is no target is left as it was.
   */
  lemma {:induction false} CopyAllExact(files: Files, copies: seq<Copy>)
    requires Distinct(Targets(copies)) && SourcesAreNotTargets(copies)
    ensures var r := CopyAll(files, copies);
      && (r.ok <==> forall i :: 0 <= i < |copies| ==> copies[i].from in files)
      && (forall i :: 0 <= i < |copies| && copies[i].from in files ==>
            copies[i].to in r.files && r.files[copies[i].to] == files[copies[i].from])
      && (forall p :: p !in Targets(copies) ==> (p in r.files <==> p in files))
      && (forall p :: p !in Targets(copies) && p in files ==> r.files[p] == files[p])
    decreases |copies|
  {
    if copies != [] {
      var c := copies[0];
      var step := if c.from in files then files[c.to := files[c.from]] else files;
      var tail := copies[1..];
      assert forall i :: 0 <= i < |tail| ==> tail[i] == copies[i + 1];
      assert Targets(copies) == [c.to] + Targets(tail);
      CopyAllExact(step, tail);
      var r := CopyAll(step, tail);
      assert c.to !in Targets(tail) by {
        forall k | 0 <= k < |tail| ensures Targets(tail)[k] != c.to {
          assert Targets(copies)[k + 1] == Targets(tail)[k];
        }
      }
      forall i | 0 <= i < |copies| && copies[i].from in files
        ensures copies[i].to in r.files && r.files[copies[i].to] == files[copies[i].from]
      {
        if i > 0 {
          assert copies[i].from != c.to;
          assert tail[i - 1] == copies[i];
        }
      }
    }
  }

  /**
   * Writes in order: when no two writes share a target, each target holds
   * its data afterwards and every other path is left as it was.
   */
  lemma {:induction false} WriteAllExact(files: Files, writes: seq<Write>)
    requires Distinct(WriteTargets(writes))
    ensures var r := WriteAll(files, writes);
      && (forall i :: 0 <= i < |writes| ==> writes[i].to in r && r[writes[i].to] == writes[i].data)
      && (forall p :: p !in WriteTargets(writes) ==> (p in r <==> p in files))
      && (forall p :: p !in WriteTargets(writes) && p in files ==> r[p] == files[p])
    decreases |writes|
  {
    if writes != [] {
      var w := writes[0];
      var tail := writes[1..];
      assert forall i :: 0 <= i < |tail| ==> tail[i] == writes[i + 1];
      assert WriteTargets(writes) == [w.to] + WriteTargets(tail);
      WriteAllExact(files[w.to := w.data], tail);
      assert w.to !in WriteTargets(tail) by {
        forall k | 0 <= k < |tail| ensures WriteTargets(tail)[k] != w.to {
          assert WriteTargets(writes)[k + 1] == WriteTargets(tail)[k];
        }
      }
    }
  }

  /** Writes never remove a file, and every target is present afterwards. */
  lemma {:induction false} WriteAllGrows(files: Files, writes: seq<Write>)
    ensures var r := WriteAll(files, writes);
      && files.Keys <= r.Keys
      && forall i :: 0 <= i < |writes| ==> writes[i].to in r
    decreases |writes|
  {
    if writes != [] {
      WriteAllGrows(files[writes[0].to := writes[0].data], writes[1..]);
      forall i | 1 <= i < |writes| ensures writes[i] == writes[1..][i - 1] {}
    }
  }

  class FileSystem {
    var files: Files

    constructor (files: Files)
      ensures this.files == files
    {
      this.files := files;
    }

    predicate Exists(p: Path)
      reads this
    {
      p in files
    }

    method Unlink(p: Path) returns (ok: bool)
      modifies this
      ensures ok == (p in old(files))
      ensures files == old(files) - {p}
    {
      ok := p in files;
      files := files - {p};
    }

    method CopyFile(from: Path, to: Path) returns (ok: bool)
      modifies this
      ensures ok == (from in old(files))
      ensures files == if ok then old(files)[to := old(files)[from]] else old(files)
    {
      ok := from in files;
      if ok {
        files := files[to := files[from]];
      }
    }

    method WriteFile(to: Path, data: Bytes)
      modifies this
      ensures files == old(files)[to := data]
    {
      files := files[to := data];
    }
  }
}
