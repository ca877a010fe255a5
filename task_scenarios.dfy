/**
 * The sequential job on concrete tasks: the ordering its unit test checks
 * (the second task sees what the first recorded), and a rejecting first task
 * stopping the chain, which follows from the reduce over the task list.
 */
module TaskScenarios {
  import opened Common
  import opened Requests
  import opened Tasks

  /**
   * A first task records a binary; the second resolves only if it can see
   * that binary, so it resolves exactly when it runs after the first has
   * completed. Each run is invoked on its own task, in list order.
   */
  method SecondTaskSeesFirst() returns (observed: bool, receivers: seq<Task>, foo: Task, bar: Task)
    ensures observed
    ensures receivers == [foo, bar]
  {
    foo := new Task.Primitive("foo", (src: Source, l: Ledger) =>
      Step([AddBinary(Binary("bin1", [98], None))], Done));
    bar := new Task.Primitive("bar", (src: Source, l: Ledger) =>
      if |l.binaries| == 1 && l.binaries[0].name == "bin1" then Step([], Done)
      else Step([], Failed("foo has not completed")));
    var job := new Task.JobSequential("foo job", [foo, bar]);
    var request := new BuildRequest(Source("foo", "bar"));
    var src, bin1 := request.source, Binary("bin1", [98], None);
    var afterFoo := Ledger([bin1], [], []);
    assert ApplyAll(EmptyLedger, [AddBinary(bin1)]) == afterFoo by {
      assert [AddBinary(bin1)][1..] == [];
    }
    assert Exec(foo, src, EmptyLedger) == Completion(afterFoo, Done, []);
    assert Exec(bar, src, afterFoo) == Completion(afterFoo, Done, []);
    assert [foo, bar][1..] == [bar] && [bar][1..] == [];
    assert ExecSequential([bar], src, afterFoo) == Completion(afterFoo, Done, [bar]);
    assert ExecSequential([foo, bar], src, EmptyLedger) == Completion(afterFoo, Done, [foo, bar]);
    var outcome;
    outcome, receivers := job.Run(request);
    observed := outcome.Done?;
  }

  /** When the first task rejects, the job rejects with its reason and the second is never invoked. */
  method RejectionStopsTheChain() returns (outcome: Outcome, receivers: seq<Task>, failing: Task)
    ensures outcome == Failed("entry failed")
    ensures receivers == [failing]
  {
    failing := new Task.Primitive("error", (src: Source, l: Ledger) =>
      Step([AddDependency(src), AddError(Error("entry failed", src, 1))], Failed("entry failed")));
    var bar := new Task.Primitive("bar", (src: Source, l: Ledger) => Step([], Done));
    var job := new Task.JobSequential("error job", [failing, bar]);
    var request := new BuildRequest(Source("foo", "bar"));
    var src := request.source;
    var c := Exec(failing, src, EmptyLedger);
    assert c.outcome == Failed("entry failed") && c.invoked == [];
    assert ExecSequential([failing, bar], src, EmptyLedger) == Completion(c.ledger, c.outcome, [failing]);
    outcome, receivers := job.Run(request);
  }
}
