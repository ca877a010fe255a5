/** What the job semantics promise: order, short-circuiting, joins and nesting. */
module TaskLaws {
  import opened Common
  import opened Requests
  import opened Tasks

  lemma ExtendsTransitive(a: Ledger, b: Ledger, c: Ledger)
    requires Extends(b, a) && Extends(c, b)
    ensures Extends(c, a)
  {
  }

  /**
   * Tasks communicate only through the request's add operations: whatever
   * a task, a job or a nest of jobs does, the request's lists only grow.
   */
  lemma {:induction false} RunOnlyExtends(t: Task, src: Source, l: Ledger)
    requires t.Valid()
    ensures Extends(Exec(t, src, l).ledger, l)
    decreases t.height, 1, 0
  {
    match t.body
    case Primitive(_) =>
    case Chain(ts) => SequentialOnlyExtends(ts, src, l);
    case FanOut(ts) => ConcurrentOnlyExtends(ts, src, l);
  }

  lemma {:induction false} SequentialOnlyExtends(ts: seq<Task>, src: Source, l: Ledger)
    requires AllValid(ts)
    ensures Extends(ExecSequential(ts, src, l).ledger, l)
    decreases Bound(ts), 0, |ts|
  {
    if ts != [] {
      var first := Exec(ts[0], src, l);
      RunOnlyExtends(ts[0], src, l);
      if first.outcome.Done? {
        SequentialOnlyExtends(ts[1..], src, first.ledger);
        ExtendsTransitive(l, first.ledger, ExecSequential(ts, src, l).ledger);
      }
    }
  }

  lemma {:induction false} ConcurrentOnlyExtends(ts: seq<Task>, src: Source, l: Ledger)
    requires AllValid(ts)
    ensures Extends(ExecConcurrent(ts, src, l).ledger, l)
    decreases Bound(ts), 0, |ts|
  {
    if ts != [] {
      var first := Exec(ts[0], src, l);
      RunOnlyExtends(ts[0], src, l);
      ConcurrentOnlyExtends(ts[1..], src, first.ledger);
      ExtendsTransitive(l, first.ledger, ExecConcurrent(ts, src, l).ledger);
    }
  }

  /**
   * A chain invokes a prefix of its task list, in list order, each task at
   * most once; all of them when it resolves, and at least one when it rejects.
   */
  lemma {:induction false} SequentialInvokesPrefix(ts: seq<Task>, src: Source, l: Ledger)
    requires AllValid(ts)
    ensures var c := ExecSequential(ts, src, l);
      && |c.invoked| <= |ts|
      && c.invoked == ts[..|c.invoked|]
      && (c.outcome.Done? ==> c.invoked == ts)
      && (c.outcome.Failed? ==> c.invoked != [])
    decreases |ts|
  {
    if ts != [] {
      var first := Exec(ts[0], src, l);
      if first.outcome.Done? {
        SequentialInvokesPrefix(ts[1..], src, first.ledger);
        var rest := ExecSequential(ts[1..], src, first.ledger);
        assert [ts[0]] + ts[1..][..|rest.invoked|] == ts[..1 + |rest.invoked|];
        assert rest.invoked == ts[1..] ==> [ts[0]] + rest.invoked == ts;
      }
    }
  }

  /**
   * When a chain rejects, the last task it invoked is the one that rejected:
   * every task before it resolved, and the job's outcome and the request's
   * contents are exactly what that task left. No later task ran.
   */
  lemma {:induction false} SequentialStopsAtFailure(ts: seq<Task>, src: Source, l: Ledger)
    requires AllValid(ts)
    requires ExecSequential(ts, src, l).outcome.Failed?
    ensures var c := ExecSequential(ts, src, l);
      var k := |c.invoked| - 1;
      && 0 <= k < |ts|
      && c.invoked == ts[..k + 1]
      && ExecSequential(ts[..k], src, l).outcome.Done?
      && var failing := Exec(ts[k], src, ExecSequential(ts[..k], src, l).ledger);
         failing.outcome == c.outcome && failing.ledger == c.ledger
    decreases |ts|
  {
    SequentialInvokesPrefix(ts, src, l);
    var c := ExecSequential(ts, src, l);
    var first := Exec(ts[0], src, l);
    if first.outcome.Failed? {
      assert ts[..0] == [];
    } else {
      var rest := ExecSequential(ts[1..], src, first.ledger);
      SequentialStopsAtFailure(ts[1..], src, first.ledger);
      var k := |c.invoked| - 1;
      assert |rest.invoked| - 1 == k - 1;
      assert ts[..k][0] == ts[0] && ts[..k][1..] == ts[1..][..k - 1];
    }
  }

  lemma AllValidAppend(a: seq<Task>, b: seq<Task>)
    requires AllValid(a) && AllValid(b)
    ensures AllValid(a + b)
  {
    forall i | 0 <= i < |a + b| ensures (a + b)[i].Valid() {
      if i < |a| { assert (a + b)[i] == a[i]; } else { assert (a + b)[i] == b[i - |a|]; }
    }
  }

  /**
   * Running the concatenation of two task lists in sequence is running the
   * first list and then, only if it resolved, the second on what it left.
   */
  lemma {:induction false} SequentialAppend(a: seq<Task>, b: seq<Task>, src: Source, l: Ledger)
    requires AllValid(a) && AllValid(b)
    ensures AllValid(a + b)
    ensures var ca := ExecSequential(a, src, l);
      ExecSequential(a + b, src, l)
        == if ca.outcome.Failed? then ca else Continue(ca.invoked, ExecSequential(b, src, ca.ledger))
    decreases |a|
  {
    AllValidAppend(a, b);
    if a == [] {
      assert a + b == b;
    } else {
      assert (a + b)[0] == a[0] && (a + b)[1..] == a[1..] + b;
      var first := Exec(a[0], src, l);
      if first.outcome.Done? {
        SequentialAppend(a[1..], b, src, first.ledger);
        var ca' := ExecSequential(a[1..], src, first.ledger);
        if ca'.outcome.Done? {
          var cb := ExecSequential(b, src, ca'.ledger);
          assert [a[0]] + (ca'.invoked + cb.invoked) == ([a[0]] + ca'.invoked) + cb.invoked;
        }
      }
    }
  }

  /**
   * Jobs nest: a chain of two sequential jobs leaves the request and
   * settles exactly as one sequential job over both task lists would.
   */
  lemma NestedSequentialJobs(j1: Task, j2: Task, src: Source, l: Ledger)
    requires j1.Valid() && j2.Valid() && j1.body.Chain? && j2.body.Chain?
    ensures AllValid([j1, j2]) && AllValid(j1.Tasks() + j2.Tasks())
    ensures var nested := ExecSequential([j1, j2], src, l);
      var flat := ExecSequential(j1.Tasks() + j2.Tasks(), src, l);
      nested.ledger == flat.ledger && nested.outcome == flat.outcome
  {
    SequentialAppend(j1.Tasks(), j2.Tasks(), src, l);
    var c1 := Exec(j1, src, l);
    assert [j1, j2][1..] == [j2];
    if c1.outcome.Done? {
      assert ExecSequential([j2][1..], src, Exec(j2, src, c1.ledger).ledger).invoked == [];
    }
  }

  /**
   * In this model, where each run completes before the next is invoked,
   * fanning out settles as the chain would: it rejects exactly when the
   * chain rejects, with the same reason (the first rejection in list order);
   * when everything resolves, the request ends up the same.
   */
  lemma {:induction false} ConcurrentAgreesWithSequential(ts: seq<Task>, src: Source, l: Ledger)
    requires AllValid(ts)
    ensures var s := ExecSequential(ts, src, l);
      var c := ExecConcurrent(ts, src, l);
      && c.outcome == s.outcome
      && (s.outcome.Done? ==> c.ledger == s.ledger)
    decreases |ts|
  {
    if ts != [] {
      var first := Exec(ts[0], src, l);
      ConcurrentAgreesWithSequential(ts[1..], src, first.ledger);
    }
  }

  /** A job with no tasks resolves at once, invokes nothing and leaves the request alone. */
  lemma EmptyJobsSucceed(j: Task, src: Source, l: Ledger)
    requires j.Valid() && j.IsJob() && j.Tasks() == []
    ensures Exec(j, src, l) == Completion(l, Done, [])
  {
  }
}
