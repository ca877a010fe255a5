/**
 * The build request handed to every task: a minimal BuildRequest with the
 * operations the tasks use (addBinary, addDependency, addError and the
 * resolved entry source).
 */
module Requests {
  import opened Common

  /** A source file: its path and its content. */
  datatype Source = Source(path: Path, content: string)

  /** A problem reported against a source, at a line. */
  datatype Error = Error(message: string, source: Source, line: int)

  /** What a request has accumulated so far. */
  datatype Ledger = Ledger(binaries: seq<Binary>, dependencies: seq<Source>, errors: seq<Error>)

  const EmptyLedger := Ledger([], [], [])

  /** One mutation a task may make on the request it is given. */
  datatype Op = AddBinary(binary: Binary) | AddDependency(dependency: Source) | AddError(error: Error)

  /** `after` is `before` with entries appended: nothing is removed or reordered. */
  predicate Extends(after: Ledger, before: Ledger)
  {
    && before.binaries <= after.binaries
    && before.dependencies <= after.dependencies
    && before.errors <= after.errors
  }

  function Apply(l: Ledger, op: Op): (r: Ledger)
    ensures Extends(r, l)
    ensures |r.binaries| + |r.dependencies| + |r.errors| == |l.binaries| + |l.dependencies| + |l.errors| + 1
  {
    match op
    case AddBinary(b) => l.(binaries := l.binaries + [b])
    case AddDependency(d) => l.(dependencies := l.dependencies + [d])
    case AddError(e) => l.(errors := l.errors + [e])
  }

  /** The ledger after the operations, applied in order. */
  function ApplyAll(l: Ledger, ops: seq<Op>): (r: Ledger)
    ensures Extends(r, l)
    ensures |r.binaries| + |r.dependencies| + |r.errors| == |l.binaries| + |l.dependencies| + |l.errors| + |ops|
    decreases |ops|
  {
    if ops == [] then l else ApplyAll(Apply(l, ops[0]), ops[1..])
  }

  class BuildRequest {
    /** The component's entry source, already resolved. */
    const source: Source
    var binaries: seq<Binary>
    var dependencies: seq<Source>
    var errors: seq<Error>

    function Contents(): Ledger
      reads this
    {
      Ledger.Ledger(binaries, dependencies, errors)
    }

    constructor (source: Source)
      ensures this.source == source
      ensures Contents() == EmptyLedger
    {
      this.source := source;
      binaries, dependencies, errors := [], [], [];
    }

    method AddBinary(binary: Binary)
      modifies this
      ensures Contents() == Apply(old(Contents()), Op.AddBinary(binary))
    {
      binaries := binaries + [binary];
    }

    method AddDependency(dependency: Source)
      modifies this
      ensures Contents() == Apply(old(Contents()), Op.AddDependency(dependency))
    {
      dependencies := dependencies + [dependency];
    }

    method AddError(error: Error)
      modifies this
      ensures Contents() == Apply(old(Contents()), Op.AddError(error))
    {
      errors := errors + [error];
    }

    /** Performs the operations in order, each through the matching add method. */
    method PerformAll(ops: seq<Op>)
      modifies this
      ensures Contents() == ApplyAll(old(Contents()), ops)
    {
      var i := 0;
      while i < |ops|
        invariant 0 <= i <= |ops|
        invariant ApplyAll(old(Contents()), ops) == ApplyAll(Contents(), ops[i..])
      {
        match ops[i] {
          case AddBinary(b) => AddBinary(b);
          case AddDependency(d) => AddDependency(d);
          case AddError(e) => AddError(e);
        }
        i := i + 1;
      }
    }
  }
}
