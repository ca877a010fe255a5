/**
 * Task and Job composition: a Task is a described unit of work whose run
 * receives the shared build request; a Job is a Task holding an ordered list
 * of sub-tasks, run either one after another (JobSequential) or all invoked
 * up front and then joined (JobConcurrent).
 *
 * The three kinds live in one class whose const `body` says which it is, so
 * that a Job can sit in another Job's task list exactly as a Task can.
 */
module Tasks {
  import opened Common
  import opened Requests

  /** How a run's promise settles: resolved with no value, or rejected. */
  datatype Outcome = Done | Failed(reason: string)

  /** What one primitive run does: the mutations it makes on the request, then how it settles. */
  datatype Step = Step(ops: seq<Op>, outcome: Outcome)

  /** A primitive task's behaviour, as a function of the entry source and of what the request holds. */
  type Effect = (Source, Ledger) -> Step

  datatype Body =
    | Primitive(effect: Effect)
    | Chain(tasks: seq<Task>)     // JobSequential
    | FanOut(tasks: seq<Task>)    // JobConcurrent

  /**
   * The effect of running a task: the request's new contents, how the run
   * settled, and the sub-tasks whose run was invoked (receivers, in order).
   */
  datatype Completion = Completion(ledger: Ledger, outcome: Outcome, invoked: seq<Task>)

  function Max(a: nat, b: nat): nat { if a < b then b else a }

  /** A bound strictly above the height of every task of the list. */
  ghost function Bound(ts: seq<Task>): (b: nat)
    ensures forall i :: 0 <= i < |ts| ==> ts[i].height < b
  {
    if ts == [] then 0 else Max(ts[0].height + 1, Bound(ts[1..]))
  }

  ghost predicate AllValid(ts: seq<Task>)
  {
    forall i :: 0 <= i < |ts| ==> ts[i].Valid()
  }

  class Task {
    /** Set once by the constructor; never reassigned. */
    const description: string
    const body: Body
    /** Nesting depth, which makes every job strictly deeper than its sub-tasks. */
    ghost const height: nat

    /** A job is well formed: its sub-tasks are well formed and shallower. */
    ghost predicate Valid()
      decreases height
    {
      match body
      case Primitive(_) => true
      case Chain(ts) => Bound(ts) <= height && forall i :: 0 <= i < |ts| ==> ts[i].Valid()
      case FanOut(ts) => Bound(ts) <= height && forall i :: 0 <= i < |ts| ==> ts[i].Valid()
    }

    /** Task: a concrete task, defined by what its run does. */
    constructor Primitive(description: string, effect: Effect)
      ensures this.description == description
      ensures body.Primitive? && body.effect == effect
      ensures Valid()
    {
      this.description := description;
      body := Body.Primitive(effect);
      height := 0;
    }

    /** JobSequential: a job over the given tasks, run one after another. */
    constructor JobSequential(description: string, tasks: seq<Task>)
      requires AllValid(tasks)
      ensures this.description == description
      ensures body.Chain? && Tasks() == tasks
      ensures Valid()
    {
      this.description := description;
      body := Chain(tasks);
      height := Bound(tasks);
    }

    /** JobConcurrent: a job over the given tasks, all invoked and then joined. */
    constructor JobConcurrent(description: string, tasks: seq<Task>)
      requires AllValid(tasks)
      ensures this.description == description
      ensures body.FanOut? && Tasks() == tasks
      ensures Valid()
    {
      this.description := description;
      body := FanOut(tasks);
      height := Bound(tasks);
    }

    predicate IsJob()
    {
      body.Chain? || body.FanOut?
    }

    /** Job.tasks: the task list given to the constructor. */
    function Tasks(): (ts: seq<Task>)
      requires IsJob()
      ensures Valid() ==> AllValid(ts) && forall i :: 0 <= i < |ts| ==> ts[i].height < height
    {
      body.tasks
    }

    /** Task.run: runs this task on the request, which every sub-task shares. */
    method Run(request: BuildRequest) returns (outcome: Outcome, invoked: seq<Task>)
      requires Valid()
      modifies request
      ensures Completion(request.Contents(), outcome, invoked) == Exec(this, request.source, old(request.Contents()))
      decreases height, 1, 0
    {
      match body
      case Primitive(effect) =>
        var step := effect(request.source, request.Contents());
        request.PerformAll(step.ops);
        outcome, invoked := step.outcome, [];
      case Chain(_) =>
        outcome, invoked := RunSequential(request);
      case FanOut(_) =>
        outcome, invoked := RunConcurrent(request);
    }

    /**
     * JobSequential.run: each task runs only once the previous one has
     * resolved; the first rejection stops the chain and is the job's outcome.
     */
    method RunSequential(request: BuildRequest) returns (outcome: Outcome, invoked: seq<Task>)
      requires Valid() && body.Chain?
      modifies request
      ensures Completion(request.Contents(), outcome, invoked) == ExecSequential(Tasks(), request.source, old(request.Contents()))
      decreases height, 0, 0
    {
      var ts := body.tasks;
      invoked := [];
      var i := 0;
      while i < |ts|
        invariant 0 <= i <= |ts|
        invariant invoked == ts[..i]
        invariant ExecSequential(ts, request.source, old(request.Contents()))
               == Continue(invoked, ExecSequential(ts[i..], request.source, request.Contents()))
        decreases |ts| - i
      {
        assert ts[i..][0] == ts[i] && ts[i..][1..] == ts[i + 1..];
        var o, _ := ts[i].Run(request);
        ContinueStep(invoked, ts[i], ExecSequential(ts[i + 1..], request.source, request.Contents()));
        invoked := invoked + [ts[i]];
        if o.Failed? {
          return o, invoked;
        }
        i := i + 1;
      }
      outcome := Done;
    }

    /**
     * JobConcurrent.run: every task is invoked, whatever the earlier ones
     * did; the job resolves only if all of them resolved.
     */
    method RunConcurrent(request: BuildRequest) returns (outcome: Outcome, invoked: seq<Task>)
      requires Valid() && body.FanOut?
      modifies request
      ensures Completion(request.Contents(), outcome, invoked) == ExecConcurrent(Tasks(), request.source, old(request.Contents()))
      decreases height, 0, 0
    {
      var ts := body.tasks;
      outcome, invoked := Done, [];
      var i := 0;
      while i < |ts|
        invariant 0 <= i <= |ts|
        invariant invoked == ts[..i]
        invariant ExecConcurrent(ts, request.source, old(request.Contents()))
               == Join(outcome, invoked, ExecConcurrent(ts[i..], request.source, request.Contents()))
        decreases |ts| - i
      {
        ghost var before := request.Contents();
        assert ts[i..][0] == ts[i] && ts[i..][1..] == ts[i + 1..];
        var o, _ := ts[i].Run(request);
        JoinStep(outcome, invoked, ts[i], o, ExecConcurrent(ts[i + 1..], request.source, request.Contents()));
        if outcome.Done? {
          outcome := o;
        }
        invoked := invoked + [ts[i]];
        i := i + 1;
      }
    }
  }

  /** The rest of a chain, after the given tasks have run and resolved. */
  function Continue(before: seq<Task>, rest: Completion): Completion
  {
    Completion(rest.ledger, rest.outcome, before + rest.invoked)
  }

  /** Continuing a chain one task at a time is continuing it with all of them at once. */
  lemma ContinueStep(before: seq<Task>, t: Task, rest: Completion)
    ensures Continue(before, Continue([t], rest)) == Continue(before + [t], rest)
  {
    assert before + ([t] + rest.invoked) == (before + [t]) + rest.invoked;
  }

  /** The rest of a fan-out, after the given tasks were invoked and settled with `sofar`. */
  function Join(sofar: Outcome, before: seq<Task>, rest: Completion): Completion
  {
    Completion(rest.ledger, if sofar.Failed? then sofar else rest.outcome, before + rest.invoked)
  }

  /** Joining tasks one at a time is joining them all at once. */
  lemma JoinStep(sofar: Outcome, before: seq<Task>, t: Task, o: Outcome, rest: Completion)
    ensures Join(sofar, before, Join(o, [t], rest))
         == Join(if sofar.Done? then o else sofar, before + [t], rest)
  {
    assert before + ([t] + rest.invoked) == (before + [t]) + rest.invoked;
  }

  /** What running a task does to a request holding `l` whose entry source is `src`. */
  ghost function Exec(t: Task, src: Source, l: Ledger): (c: Completion)
    requires t.Valid()
    ensures t.body.Primitive? ==> c.invoked == []
    ensures t.body.FanOut? ==> c.invoked == t.body.tasks
    decreases t.height, 1, 0
  {
    match t.body
    case Primitive(effect) =>
      var step := effect(src, l);
      Completion(ApplyAll(l, step.ops), step.outcome, [])
    case Chain(ts) => ExecSequential(ts, src, l)
    case FanOut(ts) => ExecConcurrent(ts, src, l)
  }

  /** The chain: run the first task; go on with the rest only if it resolved. */
  ghost function ExecSequential(ts: seq<Task>, src: Source, l: Ledger): (c: Completion)
    requires AllValid(ts)
    ensures c.outcome.Failed? ==> c.invoked != []
    decreases Bound(ts), 0, |ts|
  {
    if ts == [] then Completion(l, Done, [])
    else
      var first := Exec(ts[0], src, l);
      if first.outcome.Failed? then Completion(first.ledger, first.outcome, [ts[0]])
      else Continue([ts[0]], ExecSequential(ts[1..], src, first.ledger))
  }

  /** The fan-out: every task runs; the first rejection in list order is the outcome. */
  ghost function ExecConcurrent(ts: seq<Task>, src: Source, l: Ledger): (c: Completion)
    requires AllValid(ts)
    ensures c.invoked == ts
    decreases Bound(ts), 0, |ts|
  {
    if ts == [] then Completion(l, Done, [])
    else
      var first := Exec(ts[0], src, l);
      Join(first.outcome, [ts[0]], ExecConcurrent(ts[1..], src, first.ledger))
  }
}
