/**
The workflow engine: an interpreter over an ordered list of steps that suspends at waits and is resumed
by periodic sweeps.  The step list is fixed during a run and sweeps of one execution do not overlap.
 */
module WorkflowEngine {
  import opened Options

  type Time = int

  const SECOND: Time := 1_000_000

  /** The step types; only sends, waits and END do anything.  A wait without a duration waits 0 seconds. */
  datatype Kind =
    | SendTemplate
    | WaitDuration(seconds: Option<nat>)
    | ConditionalBranch
    | SetTag
    | UnsubscribeIfCondition
    | End

  datatype Step = Step(id: nat, order: nat, kind: Kind)
  {
    function Delay(): Time
      requires kind.WaitDuration?
    {
      if kind.seconds.Some? then kind.seconds.value * SECOND else 0
    }
  }

  /** A workflow's steps as `order_by("order")` lists them; orders are unique per workflow. */
  predicate Ordered(steps: seq<Step>) {
    forall i, j :: 0 <= i < j < |steps| ==> steps[i].order < steps[j].order
  }

  type Workflow = steps: seq<Step> | Ordered(steps) witness []

  datatype Status = Running | Waiting | Completed | Failed | Cancelled
  datatype RunStatus = Sent | Suppressed | SendFailed | WaitElapsed
  datatype StepRun = StepRun(step: Step, status: RunStatus, at: Time)

  datatype Exec = Exec(current: Option<Step>, nextRunAt: Time, status: Status, runs: seq<StepRun>)

  /** What creating the message for a send step does: `Raises` covers a missing template and every error
      raised before a message exists, `RenderFails` a message that was created with status FAILED. */
  datatype SendResult = Queues | Suppresses | RenderFails | Raises

  /** The surroundings of one sweep: successive readings of the clock and successive send results. */
  datatype Env = Env(clock: nat -> Time, send: nat -> SendResult)

  function NextLinearStep(wf: seq<Step>, after: nat): (r: Option<Step>)
    ensures r.Some? ==> r.value in wf && r.value.order > after
    ensures r.None? ==> forall i :: 0 <= i < |wf| ==> wf[i].order <= after
  {
    if wf == [] then None else if wf[0].order > after then Some(wf[0]) else NextLinearStep(wf[1..], after)
  }

  /** How many steps lie beyond an order: what every recursive call of the interpreter brings down. */
  function StepsBeyond(wf: seq<Step>, order: nat): nat {
    if wf == [] then 0 else (if wf[0].order > order then 1 else 0) + StepsBeyond(wf[1..], order)
  }

  lemma {:induction false} BeyondShrinks(wf: seq<Step>, step: Step, order: nat)
    requires order < step.order
    ensures StepsBeyond(wf, step.order) <= StepsBeyond(wf, order)
    ensures step in wf ==> StepsBeyond(wf, step.order) < StepsBeyond(wf, order)
  {
    if wf != [] {
      BeyondShrinks(wf[1..], step, order);
    }
  }

  function Left(wf: seq<Step>, current: Option<Step>): nat {
    if current.None? then 0 else 1 + StepsBeyond(wf, current.value.order)
  }

  lemma NextStepLeavesFewer(wf: seq<Step>, step: Step)
    ensures Left(wf, NextLinearStep(wf, step.order)) < Left(wf, Some(step))
  {
    var next := NextLinearStep(wf, step.order);
    if next.Some? {
      BeyondShrinks(wf, next.value, step.order);
    }
  }

  datatype Processed = Processed(ex: Exec, raised: bool, readings: nat)

  function Finished(ex: Exec): Exec {
    ex.(status := Completed, current := None)
  }

  /** What one step does: the interpreter goes on with the next step, suspends or finishes, or raises. */
  datatype Outcome = GoesOn(ex: Exec) | Stops(ex: Exec) | Throws(ex: Exec)

  function Advance(wf: Workflow, ex: Exec, now: Time, sent: SendResult): Outcome {
    if ex.current.None? then Stops(Finished(ex))
    else
      var step := ex.current.value;
      var next := NextLinearStep(wf, step.order);
      match step.kind
      case WaitDuration(_) =>
        var passed := Exec(next, now, Running, ex.runs + [StepRun(step, WaitElapsed, now)]);
        if next.None? then Stops(Finished(passed)) else GoesOn(passed)
      case SendTemplate =>
        if sent == Raises then Throws(ex)
        else if sent == RenderFails then Throws(ex.(runs := ex.runs + [StepRun(step, SendFailed, now)]))
        else
          var runs := ex.runs + [StepRun(step, if sent == Queues then Sent else Suppressed, now)];
          if next.None? then Stops(Finished(ex.(runs := runs)))
          else if next.value.kind.WaitDuration? then Stops(Exec(next, now + next.value.Delay(), Waiting, runs))
          else GoesOn(Exec(next, now, Running, runs))
      case End => Stops(Finished(ex))
      case _ =>
        if next.None? then Stops(Finished(ex)) else GoesOn(ex.(current := next, nextRunAt := now))
  }

  /** Every recursive call moves to a step of strictly higher order. */
  lemma AdvanceMovesOn(wf: Workflow, ex: Exec, now: Time, sent: SendResult)
    requires Advance(wf, ex, now, sent).GoesOn?
    ensures var ex' := Advance(wf, ex, now, sent).ex;
            ex.current.Some? && ex'.current.Some? && ex.current.value.order < ex'.current.value.order
    ensures Left(wf, Advance(wf, ex, now, sent).ex.current) < Left(wf, ex.current)
  {
    NextStepLeavesFewer(wf, ex.current.value);
  }

  /** One call of the interpreter, as a function of the execution row and of the surroundings;
      `k` counts the clock readings made so far in this sweep. */
  function Process(wf: Workflow, env: Env, ex: Exec, k: nat): Processed
    decreases Left(wf, ex.current)
  {
    var r := Advance(wf, ex, env.clock(k), env.send(k));
    if !r.GoesOn? then Processed(r.ex, r.Throws?, k + 1)
    else
      AdvanceMovesOn(wf, ex, env.clock(k), env.send(k));
      Process(wf, env, r.ex, k + 1)
  }

  predicate Due(ex: Exec, now: Time) {
    (ex.status == Running || ex.status == Waiting) && ex.nextRunAt <= now
  }

  /** What one sweep that picks the execution up leaves behind; an exception marks it FAILED. */
  function Attempt(wf: Workflow, env: Env, ex: Exec): Exec {
    var p := Process(wf, env, ex, 0);
    if p.raised then p.ex.(status := Failed) else p.ex
  }

  // ---------------------------------------------------------------------------------------------
  // The engine over mutable rows
  // ---------------------------------------------------------------------------------------------

  class WorkflowExecution {
    const wf: Workflow
    var currentStep: Option<Step>
    var nextRunAt: Time
    var status: Status
    var runs: seq<StepRun>

    function View(): Exec
      reads this
    {
      Exec(currentStep, nextRunAt, status, runs)
    }

    constructor (wf: Workflow, first: Step, now: Time)
      ensures this.wf == wf && View() == Exec(Some(first), now, Running, [])
    {
      this.wf := wf;
      currentStep, nextRunAt, status, runs := Some(first), now, Running, [];
    }

    /** No sweep picks a completed execution up again, and its step runs stay. */
    method Complete()
      modifies this
      ensures View() == Finished(old(View()))
      ensures runs == old(runs) && forall now :: !Due(View(), now)
    {
      status := Completed;
      currentStep := None;
    }

    method ProcessOne(env: Env, k: nat) returns (raised: bool, readings: nat)
      modifies this
      ensures Processed(View(), raised, readings) == Process(wf, env, old(View()), k)
      decreases Left(wf, currentStep)
    {
      var now := env.clock(k);
      readings := k + 1;
      if currentStep.None? {
        Complete();
        return false, readings;
      }
      var step := currentStep.value;
      NextStepLeavesFewer(wf, step);
      if step.kind.WaitDuration? {
        var next := NextLinearStep(wf, step.order);
        currentStep, nextRunAt, status := next, now, Running;
        runs := runs + [StepRun(step, WaitElapsed, now)];
        if next.None? {
          Complete();
          return false, readings;
        }
        raised, readings := ProcessOne(env, k + 1);
        return raised, readings;
      }
      if step.kind.SendTemplate? {
        var sent := env.send(k);
        if sent == Raises {
          return true, readings;
        }
        if sent == RenderFails {
          runs := runs + [StepRun(step, SendFailed, now)];
          return true, readings;
        }
        runs := runs + [StepRun(step, if sent == Queues then Sent else Suppressed, now)];
        var next := NextLinearStep(wf, step.order);
        if next.None? {
          Complete();
          return false, readings;
        }
        if next.value.kind.WaitDuration? {
          currentStep, nextRunAt, status := next, now + next.value.Delay(), Waiting;
          return false, readings;
        }
        currentStep, nextRunAt, status := next, now, Running;
        raised, readings := ProcessOne(env, k + 1);
        return raised, readings;
      }
      if step.kind.End? {
        Complete();
        return false, readings;
      }
      var next := NextLinearStep(wf, step.order);
      if next.None? {
        Complete();
        return false, readings;
      }
      currentStep, nextRunAt := next, now;
      raised, readings := ProcessOne(env, k + 1);
    }
  }

  /** `get_or_create` per enrollment: an existing execution is returned untouched. */
  method EnrollWorkflow(wf: Workflow, existing: WorkflowExecution?, now: Time) returns (ex: WorkflowExecution?)
    ensures wf == [] ==> ex == null
    ensures wf != [] && existing != null ==> ex == existing
    ensures wf != [] && existing == null ==>
              ex != null && fresh(ex) && ex.wf == wf && ex.View() == Exec(Some(wf[0]), now, Running, [])
  {
    if wf == [] {
      return null;
    }
    if existing != null {
      return existing;
    }
    ex := new WorkflowExecution(wf, wf[0], now);
  }

  /** The body of the sweep's loop; every exception is caught and marks the execution FAILED. */
  method AttemptOne(ex: WorkflowExecution, env: Env) returns (processed: bool)
    modifies ex
    ensures ex.View() == Attempt(ex.wf, env, old(ex.View()))
    ensures processed <==> !Process(ex.wf, env, old(ex.View()), 0).raised
  {
    var raised, _ := ex.ProcessOne(env, 0);
    if raised {
      ex.status := Failed;
    }
    processed := !raised;
  }

  method AttemptIfDue(ex: WorkflowExecution, now: Time, room: bool, env: Env) returns (picked: bool, processed: bool)
    modifies ex
    ensures picked <==> room && old(Due(ex.View(), now))
    ensures processed <==> picked && !Process(ex.wf, env, old(ex.View()), 0).raised
    ensures ex.View() == if picked then Attempt(ex.wf, env, old(ex.View())) else old(ex.View())
  {
    picked, processed := room && Due(ex.View(), now), false;
    if picked {
      processed := AttemptOne(ex, env);
    }
  }

  function DueCount(rows: seq<Exec>, now: Time): nat {
    if rows == [] then 0 else DueCount(rows[..|rows| - 1], now) + if Due(rows[|rows| - 1], now) then 1 else 0
  }

  /** Whether the query, which takes at most `limit` due rows, picks row `i` up. */
  predicate Picked(rows: seq<Exec>, now: Time, limit: nat, i: nat)
    requires i < |rows|
  {
    Due(rows[i], now) && DueCount(rows[..i], now) < limit
  }

  /** How many of the first n executions are picked up and processed without an exception. */
  ghost function Succeeded(exs: seq<WorkflowExecution>, rows: seq<Exec>, now: Time, limit: nat, env: nat -> Env, n: nat): nat
    requires n <= |exs| == |rows|
  {
    if n == 0 then 0
    else
      Succeeded(exs, rows, now, limit, env, n - 1)
      + if Picked(rows, now, limit, n - 1) && !Process(exs[n - 1].wf, env(n - 1), rows[n - 1], 0).raised then 1 else 0
  }

  /** One sweep over the table: the first `limit` due executions are attempted, the others untouched.
      `rows` is the table as the query sees it. */
  method ProcessDueExecutions(exs: seq<WorkflowExecution>, ghost rows: seq<Exec>, now: Time, limit: nat, env: nat -> Env)
    returns (count: nat)
    requires forall i, j :: 0 <= i < j < |exs| ==> exs[i] != exs[j]
    requires |rows| == |exs| && forall i :: 0 <= i < |exs| ==> exs[i].View() == rows[i]
    modifies set i | 0 <= i < |exs| :: exs[i]
    ensures forall i :: 0 <= i < |exs| ==>
              exs[i].View() == if Picked(rows, now, limit, i) then Attempt(exs[i].wf, env(i), rows[i]) else rows[i]
    ensures count == Succeeded(exs, rows, now, limit, env, |exs|) <= limit
  {
    var taken := 0;
    count := 0;
    for i := 0 to |exs|
      invariant taken == if DueCount(rows[..i], now) < limit then DueCount(rows[..i], now) else limit
      invariant count == Succeeded(exs, rows, now, limit, env, i) <= taken
      invariant forall j :: i <= j < |exs| ==> exs[j].View() == rows[j]
      invariant forall j :: 0 <= j < i ==>
                  exs[j].View() == if Picked(rows, now, limit, j) then Attempt(exs[j].wf, env(j), rows[j]) else rows[j]
    {
      assert rows[..i + 1][..i] == rows[..i];
      var picked, processed := AttemptIfDue(exs[i], now, taken < limit, env(i));
      if picked {
        taken := taken + 1;
      }
      if processed {
        count := count + 1;
      }
    }
  }

  // ---------------------------------------------------------------------------------------------
  // The reference: what a step list should do, without interpreter, sweeps or clock
  // ---------------------------------------------------------------------------------------------

  /** The send and wait steps in order, up to the first END. */
  function Trace(steps: seq<Step>): seq<Step> {
    if steps == [] || steps[0].kind.End? then []
    else (if steps[0].kind.SendTemplate? || steps[0].kind.WaitDuration? then [steps[0]] else []) + Trace(steps[1..])
  }

  function StepsOf(runs: seq<StepRun>): (steps: seq<Step>)
    ensures |steps| == |runs| && forall i :: 0 <= i < |runs| ==> steps[i] == runs[i].step
  {
    if runs == [] then [] else StepsOf(runs[..|runs| - 1]) + [runs[|runs| - 1].step]
  }

  /** One sweep in the life of an execution: when the table was queried, and its surroundings. */
  datatype Sweep = Sweep(at: Time, env: Env)

  function Swept(wf: Workflow, ex: Exec, sweep: Sweep): Exec {
    if Due(ex, sweep.at) then Attempt(wf, sweep.env, ex) else ex
  }

  function RunSchedule(wf: Workflow, ex: Exec, sweeps: seq<Sweep>): Exec
    decreases |sweeps|
  {
    if sweeps == [] then ex else RunSchedule(wf, Swept(wf, ex, sweeps[0]), sweeps[1..])
  }

  function Enrolled(wf: Workflow, now: Time): Exec
    requires wf != []
  {
    Exec(Some(wf[0]), now, Running, [])
  }

  ghost predicate Live(ex: Exec) {
    ex.status == Running || ex.status == Waiting
  }

  /** A live execution points at a step, and what it has done plus what the list still asks for from
      there on is exactly the trace. */
  ghost predicate OnTrack(wf: Workflow, ex: Exec, p: nat) {
    p < |wf| && ex.current == Some(wf[p]) && StepsOf(ex.runs) + Trace(wf[p..]) == Trace(wf)
  }

  ghost predicate Faithful(wf: Workflow, ex: Exec) {
    && StepsOf(ex.runs) <= Trace(wf)
    && (Live(ex) ==> exists p: nat :: OnTrack(wf, ex, p))
    && (ex.status == Completed ==> StepsOf(ex.runs) == Trace(wf))
  }

  lemma {:induction false} NextInList(wf: seq<Step>, p: nat, from: nat)
    requires Ordered(wf) && from <= p + 1 && p < |wf|
    ensures NextLinearStep(wf[from..], wf[p].order) == if p + 1 < |wf| then Some(wf[p + 1]) else None
    decreases |wf| - from
  {
    if from < |wf| {
      assert wf[from..][0] == wf[from] && wf[from..][1..] == wf[from + 1..];
      if from <= p {
        assert wf[from].order <= wf[p].order;
        NextInList(wf, p, from + 1);
      }
    }
  }

  lemma NextOf(wf: Workflow, p: nat)
    requires p < |wf|
    ensures NextLinearStep(wf, wf[p].order) == if p + 1 < |wf| then Some(wf[p + 1]) else None
  {
    assert wf[0..] == wf;
    NextInList(wf, p, 0);
  }

  predicate Records(step: Step) {
    step.kind.SendTemplate? || step.kind.WaitDuration?
  }

  /** The shape of one step: where it points next, and why it stops; then what it records. */
  lemma AdvanceShape(wf: Workflow, ex: Exec, now: Time, sent: SendResult, p: nat)
    requires Live(ex) && p < |wf| && ex.current == Some(wf[p])
    ensures var r := Advance(wf, ex, now, sent);
            && (r.GoesOn? ==> Live(r.ex) && !wf[p].kind.End?)
            && (r.GoesOn? || (r.Stops? && r.ex.status == Waiting) ==> p + 1 < |wf| && r.ex.current == Some(wf[p + 1]))
            && (r.Stops? && r.ex.status != Waiting ==> r.ex.status == Completed && (wf[p].kind.End? || p + 1 == |wf|))
            && (r.Stops? && r.ex.status == Waiting ==> wf[p].kind.SendTemplate?)
  {
    NextOf(wf, p);
  }

  lemma AdvanceRecords(wf: Workflow, ex: Exec, now: Time, sent: SendResult, p: nat)
    requires Live(ex) && p < |wf| && ex.current == Some(wf[p])
    ensures var r := Advance(wf, ex, now, sent);
            && (r.ex.runs == ex.runs || (Records(wf[p]) && exists run: StepRun :: run.step == wf[p] && r.ex.runs == ex.runs + [run]))
            && (!r.Throws? && Records(wf[p]) ==> r.ex.runs != ex.runs)
  {
    var r := Advance(wf, ex, now, sent);
    assert r.ex.runs != ex.runs ==> r.ex.runs == ex.runs + [r.ex.runs[|ex.runs|]] && r.ex.runs[|ex.runs|].step == wf[p];
  }

  /** One step stays on the trace. */
  lemma AdvanceIsFaithful(wf: Workflow, ex: Exec, r: Outcome, now: Time, sent: SendResult, p: nat)
    requires Live(ex) && OnTrack(wf, ex, p)
    requires r == Advance(wf, ex, now, sent)
    ensures r.GoesOn? || (r.Stops? && r.ex.status == Waiting) ==> OnTrack(wf, r.ex, p + 1)
    ensures r.Stops? && r.ex.status != Waiting ==> StepsOf(r.ex.runs) == Trace(wf)
    ensures r.Throws? ==> StepsOf(r.ex.runs) <= Trace(wf)
  {
    AdvanceShape(wf, ex, now, sent, p);
    AdvanceRecords(wf, ex, now, sent, p);
    StaysOnTrace(wf, ex.runs, r.ex.runs, p);
  }

  lemma StaysOnTrace(wf: Workflow, before: seq<StepRun>, after: seq<StepRun>, p: nat)
    requires p < |wf| && StepsOf(before) + Trace(wf[p..]) == Trace(wf)
    requires after == before || (Records(wf[p]) && exists run: StepRun :: run.step == wf[p] && after == before + [run])
    ensures StepsOf(after) <= Trace(wf)
    ensures after != before || (!Records(wf[p]) && !wf[p].kind.End?) ==> StepsOf(after) + Trace(wf[p + 1..]) == Trace(wf)
    ensures wf[p].kind.End? || (p + 1 == |wf| && (Records(wf[p]) ==> after != before)) ==> StepsOf(after) == Trace(wf)
  {
    if after == before {
      NothingRecorded(wf, before, p);
    } else {
      var run: StepRun :| run.step == wf[p] && after == before + [run];
      OneRecorded(wf, before, run, p);
    }
  }

  lemma NothingRecorded(wf: Workflow, runs: seq<StepRun>, p: nat)
    requires p < |wf| && StepsOf(runs) + Trace(wf[p..]) == Trace(wf)
    ensures StepsOf(runs) <= Trace(wf)
    ensures !Records(wf[p]) && !wf[p].kind.End? ==> StepsOf(runs) + Trace(wf[p + 1..]) == Trace(wf)
    ensures wf[p].kind.End? || (p + 1 == |wf| && !Records(wf[p])) ==> StepsOf(runs) == Trace(wf)
  {
    TraceFrom(wf, p);
    WholeTrace(StepsOf(runs), Trace(wf[p..]), Trace(wf));
  }

  lemma OneRecorded(wf: Workflow, runs: seq<StepRun>, run: StepRun, p: nat)
    requires p < |wf| && run.step == wf[p] && Records(wf[p]) && StepsOf(runs) + Trace(wf[p..]) == Trace(wf)
    ensures StepsOf(runs + [run]) <= Trace(wf)
    ensures StepsOf(runs + [run]) + Trace(wf[p + 1..]) == Trace(wf)
    ensures p + 1 == |wf| ==> StepsOf(runs + [run]) == Trace(wf)
  {
    RunRecorded(runs, run, wf, p);
    TraceFrom(wf, p);
    WholeTrace(StepsOf(runs + [run]), Trace(wf[p + 1..]), Trace(wf));
  }

  lemma TraceFrom(wf: seq<Step>, p: nat)
    requires p < |wf|
    ensures Trace(wf[p..]) == if wf[p].kind.End? then []
                              else if Records(wf[p]) then [wf[p]] + Trace(wf[p + 1..]) else Trace(wf[p + 1..])
    ensures p + 1 == |wf| ==> Trace(wf[p + 1..]) == []
  {
    assert wf[p..][0] == wf[p] && wf[p..][1..] == wf[p + 1..];
  }

  lemma WholeTrace(a: seq<Step>, b: seq<Step>, c: seq<Step>)
    requires a + b == c
    ensures a <= c && (b == [] ==> a == c)
  {
  }

  lemma {:induction false} ProcessIsFaithful(wf: Workflow, env: Env, ex: Exec, k: nat, p: nat)
    requires Live(ex) && OnTrack(wf, ex, p)
    ensures var r := Process(wf, env, ex, k);
            if r.raised then StepsOf(r.ex.runs) <= Trace(wf) else Faithful(wf, r.ex) && r.ex.status != Failed
    decreases |wf| - p
  {
    var r := Advance(wf, ex, env.clock(k), env.send(k));
    AdvanceShape(wf, ex, env.clock(k), env.send(k), p);
    AdvanceIsFaithful(wf, ex, r, env.clock(k), env.send(k), p);
    if r.GoesOn? {
      ProcessIsFaithful(wf, env, r.ex, k + 1, p + 1);
    }
  }

  lemma RunRecorded(runs: seq<StepRun>, run: StepRun, wf: Workflow, p: nat)
    requires p < |wf| && run.step == wf[p] && Records(wf[p])
    requires StepsOf(runs) + Trace(wf[p..]) == Trace(wf)
    ensures StepsOf(runs + [run]) + Trace(wf[p + 1..]) == Trace(wf)
  {
    TraceFrom(wf, p);
    assert (runs + [run])[..|runs|] == runs;
    assert StepsOf(runs) + ([wf[p]] + Trace(wf[p + 1..])) == (StepsOf(runs) + [wf[p]]) + Trace(wf[p + 1..]);
  }

  lemma SweepIsFaithful(wf: Workflow, ex: Exec, sweep: Sweep)
    requires Faithful(wf, ex)
    ensures Faithful(wf, Swept(wf, ex, sweep))
  {
    if Due(ex, sweep.at) {
      var p: nat :| OnTrack(wf, ex, p);
      ProcessIsFaithful(wf, sweep.env, ex, 0, p);
    }
  }

  lemma {:induction false} ScheduleIsFaithful(wf: Workflow, ex: Exec, sweeps: seq<Sweep>)
    requires Faithful(wf, ex)
    ensures Faithful(wf, RunSchedule(wf, ex, sweeps))
    decreases |sweeps|
  {
    if sweeps != [] {
      SweepIsFaithful(wf, ex, sweeps[0]);
      ScheduleIsFaithful(wf, Swept(wf, ex, sweeps[0]), sweeps[1..]);
    }
  }

  lemma EnrolledIsFaithful(wf: Workflow, now: Time)
    requires wf != []
    ensures Faithful(wf, Enrolled(wf, now))
  {
    assert wf[0..] == wf;
    assert OnTrack(wf, Enrolled(wf, now), 0);
  }

  // ---------------------------------------------------------------------------------------------
  // Main results
  // ---------------------------------------------------------------------------------------------

  /** Refinement: under every sweep schedule the recorded runs are a prefix of the trace, and the whole
      trace once the execution completes. */
  lemma RunsFollowTrace(wf: Workflow, now: Time, sweeps: seq<Sweep>)
    requires wf != []
    ensures var ex := RunSchedule(wf, Enrolled(wf, now), sweeps);
            && StepsOf(ex.runs) <= Trace(wf)
            && (ex.status == Completed ==> StepsOf(ex.runs) == Trace(wf))
  {
    EnrolledIsFaithful(wf, now);
    ScheduleIsFaithful(wf, Enrolled(wf, now), sweeps);
  }

  /** No step is sent, or waited for, twice. */
  lemma NoStepRunsTwice(wf: Workflow, now: Time, sweeps: seq<Sweep>, i: nat, j: nat)
    requires wf != []
    requires var ex := RunSchedule(wf, Enrolled(wf, now), sweeps); i < j < |ex.runs|
    ensures var ex := RunSchedule(wf, Enrolled(wf, now), sweeps); ex.runs[i].step.order < ex.runs[j].step.order
  {
    var ex := RunSchedule(wf, Enrolled(wf, now), sweeps);
    RunsFollowTrace(wf, now, sweeps);
    TraceIsOrdered(wf);
    assert StepsOf(ex.runs)[i] == Trace(wf)[i] && StepsOf(ex.runs)[j] == Trace(wf)[j];
  }

  predicate Beyond(steps: seq<Step>, order: nat) {
    forall i :: 0 <= i < |steps| ==> steps[i].order > order
  }

  lemma {:induction false} TraceBeyond(steps: seq<Step>, order: nat)
    requires Beyond(steps, order)
    ensures Beyond(Trace(steps), order)
  {
    if steps != [] && !steps[0].kind.End? {
      TraceBeyond(steps[1..], order);
    }
  }

  lemma {:induction false} TraceIsOrdered(steps: seq<Step>)
    requires Ordered(steps)
    ensures Ordered(Trace(steps))
  {
    if steps != [] && !steps[0].kind.End? {
      TraceIsOrdered(steps[1..]);
      assert Beyond(steps[1..], steps[0].order);
      TraceBeyond(steps[1..], steps[0].order);
    }
  }

  /** Two schedules that both complete have done the same steps in the same order. */
  lemma ScheduleDoesNotMatter(wf: Workflow, now: Time, now': Time, sweeps: seq<Sweep>, sweeps': seq<Sweep>)
    requires wf != []
    requires RunSchedule(wf, Enrolled(wf, now), sweeps).status == Completed
    requires RunSchedule(wf, Enrolled(wf, now'), sweeps').status == Completed
    ensures StepsOf(RunSchedule(wf, Enrolled(wf, now), sweeps).runs) == StepsOf(RunSchedule(wf, Enrolled(wf, now'), sweeps').runs)
  {
    RunsFollowTrace(wf, now, sweeps);
    RunsFollowTrace(wf, now', sweeps');
  }

  // ---------------------------------------------------------------------------------------------
  // Which waits are honoured
  // ---------------------------------------------------------------------------------------------

  /** `b` is a wait directly after the send `a`. */
  predicate WaitAfterSend(wf: seq<Step>, a: Step, b: Step) {
    a.kind.SendTemplate? && b.kind.WaitDuration? && NextLinearStep(wf, a.order) == Some(b)
  }

  predicate Delivered(run: StepRun) {
    run.status == Sent || run.status == Suppressed
  }

  /** Each wait directly after a send was crossed no earlier than the send's clock reading plus its delay. */
  ghost predicate WaitsHeld(wf: seq<Step>, runs: seq<StepRun>) {
    forall i :: 0 <= i < |runs| - 1 && Delivered(runs[i]) && WaitAfterSend(wf, runs[i].step, runs[i + 1].step) ==>
      runs[i].at + runs[i + 1].step.Delay() <= runs[i + 1].at
  }

  /** The instant before which the current step must not be crossed, if it is a wait directly after the last send. */
  ghost predicate NotBefore(wf: seq<Step>, ex: Exec, t: Time) {
    ex.current.Some? && ex.runs != [] && Delivered(ex.runs[|ex.runs| - 1])
    && WaitAfterSend(wf, ex.runs[|ex.runs| - 1].step, ex.current.value)
    ==> ex.runs[|ex.runs| - 1].at + ex.current.value.Delay() <= t
  }

  /** Recorded steps lie before the current one. */
  ghost predicate Behind(wf: seq<Step>, ex: Exec) {
    ex.current.Some? ==>
      ex.current.value in wf && (ex.runs != [] ==> ex.runs[|ex.runs| - 1].step.order < ex.current.value.order)
  }

  /** The next step is the one of lowest order among those beyond. */
  lemma {:induction false} NextIsNearest(wf: seq<Step>, after: nat, s: Step)
    requires Ordered(wf) && s in wf && s.order > after
    ensures NextLinearStep(wf, after).Some? && NextLinearStep(wf, after).value.order <= s.order
  {
    if wf[0].order <= after {
      NextIsNearest(wf[1..], after, s);
    } else if wf[0] != s {
      var j :| 0 <= j < |wf| && wf[j] == s;
      assert wf[0].order < wf[j].order;
    }
  }

  /** One step: a wait is crossed in time, and the step the interpreter goes on with is never a wait that
      has to be held, so only the first step of a sweep can be one. */
  lemma AdvanceHoldsWaits(wf: Workflow, ex: Exec, now: Time, sent: SendResult)
    requires Live(ex) && Behind(wf, ex) && WaitsHeld(wf, ex.runs) && NotBefore(wf, ex, now)
    ensures var r := Advance(wf, ex, now, sent);
            && WaitsHeld(wf, r.ex.runs) && (!r.Throws? ==> Behind(wf, r.ex))
            && (r.GoesOn? ==> Live(r.ex) && forall t :: NotBefore(wf, r.ex, t))
            && (r.Stops? ==> NotBefore(wf, r.ex, r.ex.nextRunAt))
  {
    if ex.current.Some? {
      if ex.current.value.kind.WaitDuration? || ex.current.value.kind.SendTemplate? {
        RecordingHoldsWaits(wf, ex, now, sent);
      } else {
        SkippingHoldsWaits(wf, ex, now, sent);
      }
    }
  }

  lemma RecordingHoldsWaits(wf: Workflow, ex: Exec, now: Time, sent: SendResult)
    requires Live(ex) && Behind(wf, ex) && WaitsHeld(wf, ex.runs) && NotBefore(wf, ex, now)
    requires ex.current.Some? && (ex.current.value.kind.WaitDuration? || ex.current.value.kind.SendTemplate?)
    ensures var r := Advance(wf, ex, now, sent);
            && WaitsHeld(wf, r.ex.runs) && (!r.Throws? ==> Behind(wf, r.ex))
            && (r.GoesOn? ==> Live(r.ex) && forall t :: NotBefore(wf, r.ex, t))
            && (r.Stops? ==> NotBefore(wf, r.ex, r.ex.nextRunAt))
  {
    var r := Advance(wf, ex, now, sent);
    if r.ex.runs != ex.runs {
      var run := r.ex.runs[|ex.runs|];
      assert run.at == now && run.step == ex.current.value;
      WaitsHeldSnoc(wf, ex.runs, run);
      assert r.ex.runs == ex.runs + [run];
      assert r.ex.runs[|r.ex.runs| - 1] == run;
    }
  }

  lemma WaitsHeldSnoc(wf: Workflow, runs: seq<StepRun>, run: StepRun)
    requires WaitsHeld(wf, runs)
    requires runs != [] && Delivered(runs[|runs| - 1]) && WaitAfterSend(wf, runs[|runs| - 1].step, run.step) ==>
               runs[|runs| - 1].at + run.step.Delay() <= run.at
    ensures WaitsHeld(wf, runs + [run])
  {
  }

  lemma SkippingHoldsWaits(wf: Workflow, ex: Exec, now: Time, sent: SendResult)
    requires Live(ex) && Behind(wf, ex) && WaitsHeld(wf, ex.runs)
    requires ex.current.Some? && !ex.current.value.kind.WaitDuration? && !ex.current.value.kind.SendTemplate?
    ensures var r := Advance(wf, ex, now, sent);
            && WaitsHeld(wf, r.ex.runs) && !r.Throws? && Behind(wf, r.ex)
            && (r.GoesOn? ==> Live(r.ex) && forall t :: NotBefore(wf, r.ex, t))
            && (r.Stops? ==> NotBefore(wf, r.ex, r.ex.nextRunAt))
  {
    if ex.runs != [] {
      NextIsNearest(wf, ex.runs[|ex.runs| - 1].step.order, ex.current.value);
    }
  }

  lemma {:induction false} ProcessHoldsWaits(wf: Workflow, env: Env, ex: Exec, k: nat)
    requires Live(ex) && Behind(wf, ex) && WaitsHeld(wf, ex.runs) && NotBefore(wf, ex, env.clock(k))
    ensures var r := Process(wf, env, ex, k);
            && WaitsHeld(wf, r.ex.runs)
            && (!r.raised ==> Behind(wf, r.ex) && NotBefore(wf, r.ex, r.ex.nextRunAt))
    decreases Left(wf, ex.current)
  {
    AdvanceHoldsWaits(wf, ex, env.clock(k), env.send(k));
    var r := Advance(wf, ex, env.clock(k), env.send(k));
    if r.GoesOn? {
      AdvanceMovesOn(wf, ex, env.clock(k), env.send(k));
      ProcessHoldsWaits(wf, env, r.ex, k + 1);
    }
  }

  /** Sweeps read the clock again after they have queried for due rows. */
  ghost predicate ClocksAdvance(sweeps: seq<Sweep>) {
    forall i :: 0 <= i < |sweeps| ==> sweeps[i].at <= sweeps[i].env.clock(0)
  }

  lemma {:induction false} ScheduleHoldsWaits(wf: Workflow, ex: Exec, sweeps: seq<Sweep>)
    requires ClocksAdvance(sweeps)
    requires WaitsHeld(wf, ex.runs) && (Live(ex) ==> Behind(wf, ex) && NotBefore(wf, ex, ex.nextRunAt))
    ensures WaitsHeld(wf, RunSchedule(wf, ex, sweeps).runs)
    decreases |sweeps|
  {
    if sweeps != [] {
      if Due(ex, sweeps[0].at) {
        ProcessHoldsWaits(wf, sweeps[0].env, ex, 0);
      }
      ScheduleHoldsWaits(wf, Swept(wf, ex, sweeps[0]), sweeps[1..]);
    }
  }

  /** Under every schedule, a wait that directly follows a send is never crossed before the send's time
      plus the wait's duration. */
  lemma WaitsAfterSendsAreHeld(wf: Workflow, now: Time, sweeps: seq<Sweep>)
    requires wf != [] && ClocksAdvance(sweeps)
    ensures WaitsHeld(wf, RunSchedule(wf, Enrolled(wf, now), sweeps).runs)
  {
    ScheduleHoldsWaits(wf, Enrolled(wf, now), sweeps);
  }

  /** Some wait that directly follows a send stands before the first END. */
  predicate HasHeldWait(steps: seq<Step>) {
    |steps| >= 2 && !steps[0].kind.End? && (HeldFirst(steps) || HasHeldWait(steps[1..]))
  }

  predicate HeldFirst(steps: seq<Step>)
    requires |steps| >= 2
  {
    steps[0].kind.SendTemplate? && steps[1].kind.WaitDuration?
  }

  /** Where the first such wait stands, and how many there are. */
  function FirstHeld(steps: seq<Step>): (q: nat)
    requires HasHeldWait(steps)
    ensures 0 < q < |steps| && steps[q].kind.WaitDuration? && steps[q - 1].kind.SendTemplate?
  {
    if HeldFirst(steps) then 1 else 1 + FirstHeld(steps[1..])
  }

  function HeldWaits(steps: seq<Step>): nat {
    if |steps| < 2 || steps[0].kind.End? then 0 else (if HeldFirst(steps) then 1 else 0) + HeldWaits(steps[1..])
  }

  /** With sends that succeed, one step suspends exactly before a wait that directly follows it. */
  lemma AdvanceSuspends(wf: Workflow, ex: Exec, now: Time, sent: SendResult, p: nat)
    requires Live(ex) && p < |wf| && ex.current == Some(wf[p])
    requires sent == Queues || sent == Suppresses
    ensures var r := Advance(wf, ex, now, sent);
            var last := wf[p].kind.End? || p + 1 == |wf|;
            var held := !last && wf[p].kind.SendTemplate? && wf[p + 1].kind.WaitDuration?;
            && (r.Stops? <==> last || held) && (r.GoesOn? <==> !last && !held)
            && (r.Stops? ==> r.ex.status == (if held then Waiting else Completed)
                             && r.ex.current == if held then Some(wf[p + 1]) else None)
            && (r.GoesOn? ==> Live(r.ex) && r.ex.current == Some(wf[p + 1]))
  {
    NextOf(wf, p);
  }

  lemma HeldWaitFrom(wf: seq<Step>, p: nat)
    requires p < |wf|
    ensures var last := wf[p].kind.End? || p + 1 == |wf|;
            var held := !last && wf[p].kind.SendTemplate? && wf[p + 1].kind.WaitDuration?;
            && (HasHeldWait(wf[p..]) <==> !last && (held || HasHeldWait(wf[p + 1..])))
            && (HasHeldWait(wf[p..]) ==> FirstHeld(wf[p..]) == if held then 1 else 1 + FirstHeld(wf[p + 1..]))
  {
    if p + 1 < |wf| {
      assert wf[p..][1] == wf[p + 1] && wf[p..][1..] == wf[p + 1..];
    }
  }

  /** Always queued or suppressed. */
  predicate Succeeds(r: SendResult) {
    r == Queues || r == Suppresses
  }

  /** No other wait is honoured: as long as sends succeed, one call of the interpreter suspends exactly at the
      first wait that directly follows a send, having crossed every wait before it, and otherwise runs through
      every remaining wait to completion. */
  lemma {:induction false} OnlyWaitsAfterSendsSuspend(wf: Workflow, env: Env, ex: Exec, k: nat, p: nat)
    requires Live(ex) && p < |wf| && ex.current == Some(wf[p])
    requires forall n :: Succeeds(env.send(n))
    ensures var r, held := Process(wf, env, ex, k), HasHeldWait(wf[p..]);
            && !r.raised && r.ex.status == (if held then Waiting else Completed)
            && r.ex.current == if held then Some(wf[p + FirstHeld(wf[p..])]) else None
    decreases |wf| - p
  {
    assert Succeeds(env.send(k));
    AdvanceSuspends(wf, ex, env.clock(k), env.send(k), p);
    HeldWaitFrom(wf, p);
    var r := Advance(wf, ex, env.clock(k), env.send(k));
    if r.GoesOn? {
      OnlyWaitsAfterSendsSuspend(wf, env, r.ex, k + 1, p + 1);
    }
  }

  function OpeningWait(seconds: nat): Workflow {
    [Step(0, 1, WaitDuration(Some(seconds))), Step(1, 2, SendTemplate)]
  }

  /** A workflow that opens with a wait, of any length, sends in the very sweep that starts it. */
  lemma OpeningWaitIsCrossed(seconds: nat, now: Time, env: Env)
    requires env.send(1) == Queues
    ensures var wf := OpeningWait(seconds);
            var ex := RunSchedule(wf, Enrolled(wf, now), [Sweep(now, env)]);
            && ex.status == Completed
            && ex.runs == [StepRun(wf[0], WaitElapsed, env.clock(0)), StepRun(wf[1], Sent, env.clock(1))]
  {
    var wf := OpeningWait(seconds);
    var ex := Enrolled(wf, now);
    NextOf(wf, 0);
    NextOf(wf, 1);
    var r := Advance(wf, ex, env.clock(0), env.send(0));
    assert Process(wf, env, ex, 0) == Process(wf, env, r.ex, 1);
    assert RunSchedule(wf, ex, [Sweep(now, env)]) == Swept(wf, ex, Sweep(now, env)) by {
      assert [Sweep(now, env)][1..] == [];
    }
  }

  // ---------------------------------------------------------------------------------------------
  // What a suspended execution waits for, and what its runs report
  // ---------------------------------------------------------------------------------------------

  /** The wait's seconds, none meaning 0, in microseconds. */
  predicate WaitsFor(ex: Exec) {
    && ex.status == Waiting && ex.current.Some? && ex.current.value.kind.WaitDuration?
    && ex.runs != [] && ex.runs[|ex.runs| - 1].step.kind.SendTemplate?
    && var seconds := ex.current.value.kind.seconds;
       ex.nextRunAt == ex.runs[|ex.runs| - 1].at + (if seconds.Some? then seconds.value else 0) * 1_000_000
  }

  /** Whenever the interpreter suspends, it does so for exactly the duration of the wait it stands at, counted from the
      send it has just made. */
  lemma {:induction false} SuspendedForItsWait(wf: Workflow, env: Env, ex: Exec, k: nat)
    requires Live(ex) && (ex.status == Waiting ==> ex.current.Some? && ex.current.value.kind.WaitDuration?)
    ensures var r := Process(wf, env, ex, k); !r.raised && r.ex.status == Waiting ==> WaitsFor(r.ex)
    decreases Left(wf, ex.current)
  {
    var r := Advance(wf, ex, env.clock(k), env.send(k));
    if r.GoesOn? {
      AdvanceMovesOn(wf, ex, env.clock(k), env.send(k));
      assert r.ex.status == Running;
      SuspendedForItsWait(wf, env, r.ex, k + 1);
    }
  }

  /** A waiting execution is the one a sweep left so. */
  lemma {:induction false} WaitingWaits(wf: Workflow, ex: Exec, sweeps: seq<Sweep>)
    requires ex.status == Waiting ==> WaitsFor(ex)
    ensures var r := RunSchedule(wf, ex, sweeps); r.status == Waiting ==> WaitsFor(r)
    decreases |sweeps|
  {
    if sweeps != [] {
      if Due(ex, sweeps[0].at) {
        SuspendedForItsWait(wf, sweeps[0].env, ex, 0);
      }
      WaitingWaits(wf, Swept(wf, ex, sweeps[0]), sweeps[1..]);
    }
  }

  /** Under every schedule, a sweep finds a waiting execution due if and only if the wait's seconds have passed since the
      last send. */
  lemma DueExactlyWhenWaitIsOver(wf: Workflow, now: Time, sweeps: seq<Sweep>, at: Time)
    requires wf != [] && RunSchedule(wf, Enrolled(wf, now), sweeps).status == Waiting
    ensures var ex := RunSchedule(wf, Enrolled(wf, now), sweeps);
            && ex.runs != [] && ex.current.Some? && ex.current.value.kind.WaitDuration?
            && var seconds := ex.current.value.kind.seconds;
               Due(ex, at) <==> at >= ex.runs[|ex.runs| - 1].at + (if seconds.Some? then seconds.value else 0) * 1_000_000
  {
    WaitingWaits(wf, Enrolled(wf, now), sweeps);
  }

  /** The run reports what happened at one reading of the sweep: a send its result, a wait its end, at that time. */
  predicate Reports(env: Env, n: nat, run: StepRun) {
    && run.at == env.clock(n)
    && match run.status
       case Sent => run.step.kind.SendTemplate? && env.send(n) == Queues
       case Suppressed => run.step.kind.SendTemplate? && env.send(n) == Suppresses
       case SendFailed => run.step.kind.SendTemplate? && env.send(n) == RenderFails
       case WaitElapsed => run.step.kind.WaitDuration?
  }

  ghost predicate Reported(env: Env, k: nat, run: StepRun) {
    exists n :: n >= k && Reports(env, n, run)
  }

  /** The send at the n-th reading raised, or its message could not be rendered; only the latter leaves a run behind. */
  predicate BrokeAt(env: Env, n: nat, ex: Exec) {
    && ex.current.Some? && ex.current.value.kind.SendTemplate?
    && (env.send(n) == Raises
        || (env.send(n) == RenderFails && ex.runs != []
            && ex.runs[|ex.runs| - 1] == StepRun(ex.current.value, SendFailed, env.clock(n))))
  }

  ghost predicate Broke(env: Env, k: nat, ex: Exec) {
    exists n: nat :: n >= k && BrokeAt(env, n, ex)
  }

  /** One call of the interpreter only adds runs, each a true report, and raises only on a failed send. */
  lemma {:induction false} RunsAreTrue(wf: Workflow, env: Env, ex: Exec, k: nat)
    ensures var r := Process(wf, env, ex, k);
            && ex.runs <= r.ex.runs
            && (forall j :: |ex.runs| <= j < |r.ex.runs| ==> Reported(env, k, r.ex.runs[j]))
            && (r.raised ==> Broke(env, k, r.ex))
    decreases Left(wf, ex.current)
  {
    var r := Advance(wf, ex, env.clock(k), env.send(k));
    AdvanceReports(wf, ex, env, k);
    if r.Throws? {
      assert Broke(env, k, r.ex);
    }
    if r.GoesOn? {
      AdvanceMovesOn(wf, ex, env.clock(k), env.send(k));
      RunsAreTrue(wf, env, r.ex, k + 1);
      var after := Process(wf, env, r.ex, k + 1).ex.runs;
      forall j | |r.ex.runs| <= j < |after|
        ensures Reported(env, k, after[j])
      {
        var n :| n >= k + 1 && Reports(env, n, after[j]);
      }
    }
  }

  lemma AdvanceReports(wf: Workflow, ex: Exec, env: Env, k: nat)
    ensures var r := Advance(wf, ex, env.clock(k), env.send(k));
            && ex.runs <= r.ex.runs && |r.ex.runs| <= |ex.runs| + 1
            && (|r.ex.runs| > |ex.runs| ==> Reports(env, k, r.ex.runs[|ex.runs|]))
            && (r.GoesOn? ==> r.ex.nextRunAt == env.clock(k))
            && (r.Throws? ==> BrokeAt(env, k, r.ex) && (env.send(k) == Raises ==> r.ex == ex))
            && (ex.current.Some? && ex.current.value.kind.SendTemplate? && !Succeeds(env.send(k)) ==> r.Throws?)
  {
  }

  /** A sweep marks an execution FAILED exactly when the interpreter raised, and otherwise leaves it live or completed. */
  lemma SweepOutcome(wf: Workflow, env: Env, ex: Exec, p: nat)
    requires Live(ex) && OnTrack(wf, ex, p)
    ensures var after := Attempt(wf, env, ex);
            && (after.status == Failed <==> Process(wf, env, ex, 0).raised)
            && (after.status != Failed ==> Live(after) || after.status == Completed)
            && (after.status == Failed ==> Broke(env, 0, after))
  {
    ProcessIsFaithful(wf, env, ex, 0, p);
    RunsAreTrue(wf, env, ex, 0);
    EndsWell(wf, env, ex, 0);
    if Process(wf, env, ex, 0).raised {
      var n: nat :| BrokeAt(env, n, Process(wf, env, ex, 0).ex);
      assert BrokeAt(env, n, Attempt(wf, env, ex));
    }
  }

  lemma {:induction false} EndsWell(wf: Workflow, env: Env, ex: Exec, k: nat)
    requires Live(ex)
    ensures var r := Process(wf, env, ex, k); Live(r.ex) || r.ex.status == Completed
    decreases Left(wf, ex.current)
  {
    var r := Advance(wf, ex, env.clock(k), env.send(k));
    if r.GoesOn? {
      AdvanceMovesOn(wf, ex, env.clock(k), env.send(k));
      EndsWell(wf, env, r.ex, k + 1);
    }
  }

  // ---------------------------------------------------------------------------------------------
  // Progress
  // ---------------------------------------------------------------------------------------------

  /** How many sweeps of a schedule find the execution due. */
  function DueSweeps(wf: Workflow, ex: Exec, sweeps: seq<Sweep>): nat
    decreases |sweeps|
  {
    if sweeps == [] then 0
    else (if Due(ex, sweeps[0].at) then 1 else 0) + DueSweeps(wf, Swept(wf, ex, sweeps[0]), sweeps[1..])
  }

  /** A completed execution is final. */
  lemma {:induction false} FinishedIsFinal(wf: Workflow, ex: Exec, sweeps: seq<Sweep>)
    requires !Live(ex)
    ensures RunSchedule(wf, ex, sweeps) == ex && DueSweeps(wf, ex, sweeps) == 0
    decreases |sweeps|
  {
    if sweeps != [] {
      FinishedIsFinal(wf, ex, sweeps[1..]);
    }
  }

  /** From the first held wait on there is one held wait less. */
  lemma {:induction false} FirstHeldSplits(steps: seq<Step>)
    ensures HasHeldWait(steps) <==> HeldWaits(steps) > 0
    ensures HasHeldWait(steps) ==> HeldWaits(steps[FirstHeld(steps)..]) == HeldWaits(steps) - 1
  {
    if |steps| >= 2 && !steps[0].kind.End? {
      FirstHeldSplits(steps[1..]);
      if HasHeldWait(steps) && !HeldFirst(steps) {
        assert steps[FirstHeld(steps)..] == steps[1..][FirstHeld(steps[1..])..];
      }
    }
  }

  lemma {:induction false} LiveCompletesIff(wf: Workflow, ex: Exec, sweeps: seq<Sweep>, p: nat)
    requires Live(ex) && p < |wf| && ex.current == Some(wf[p])
    requires forall i, n :: 0 <= i < |sweeps| ==> Succeeds(sweeps[i].env.send(n))
    ensures RunSchedule(wf, ex, sweeps).status == Completed <==> DueSweeps(wf, ex, sweeps) > HeldWaits(wf[p..])
    decreases |sweeps|
  {
    if sweeps != [] {
      var next := Swept(wf, ex, sweeps[0]);
      if Due(ex, sweeps[0].at) {
        OnlyWaitsAfterSendsSuspend(wf, sweeps[0].env, ex, 0, p);
        FirstHeldSplits(wf[p..]);
        if HasHeldWait(wf[p..]) {
          var q := p + FirstHeld(wf[p..]);
          assert wf[p..][FirstHeld(wf[p..])..] == wf[q..];
          LiveCompletesIff(wf, next, sweeps[1..], q);
        } else {
          FinishedIsFinal(wf, next, sweeps[1..]);
        }
      } else {
        LiveCompletesIff(wf, next, sweeps[1..], p);
      }
    }
  }

  /** Progress: with sends that succeed, a schedule completes exactly when more of its sweeps find the execution
      due than there are waits directly after a send. */
  lemma CompletesIffEnoughDueSweeps(wf: Workflow, now: Time, sweeps: seq<Sweep>)
    requires wf != []
    requires forall i, n :: 0 <= i < |sweeps| ==> Succeeds(sweeps[i].env.send(n))
    ensures RunSchedule(wf, Enrolled(wf, now), sweeps).status == Completed
       <==> DueSweeps(wf, Enrolled(wf, now), sweeps) > HeldWaits(wf)
  {
    assert wf[0..] == wf;
    LiveCompletesIff(wf, Enrolled(wf, now), sweeps, 0);
  }

  /** `late(t)` is what a sweep at time t sees: it reads the clock after its query, and its sends succeed. */
  ghost predicate SweepsWork(late: Time -> Env) {
    (forall t :: late(t).clock(0) >= t) && forall t, n :: Succeeds(late(t).send(n))
  }

  lemma {:induction false} SweepsToCompletion(wf: Workflow, ex: Exec, late: Time -> Env, p: nat) returns (sweeps: seq<Sweep>)
    requires Live(ex) && p < |wf| && ex.current == Some(wf[p]) && SweepsWork(late)
    ensures RunSchedule(wf, ex, sweeps).status == Completed
    ensures ClocksAdvance(sweeps) && |sweeps| == HeldWaits(wf[p..]) + 1
    ensures forall i :: 0 <= i < |sweeps| ==> sweeps[i].env == late(sweeps[i].at)
    decreases |wf| - p
  {
    var sweep := Sweep(ex.nextRunAt, late(ex.nextRunAt));
    var next := Swept(wf, ex, sweep);
    OnlyWaitsAfterSendsSuspend(wf, sweep.env, ex, 0, p);
    FirstHeldSplits(wf[p..]);
    var more := [];
    if HasHeldWait(wf[p..]) {
      var q := p + FirstHeld(wf[p..]);
      assert wf[p..][FirstHeld(wf[p..])..] == wf[q..];
      more := SweepsToCompletion(wf, next, late, q);
    }
    sweeps := [sweep] + more;
    assert sweeps[1..] == more;
  }

  /** A schedule of sweeps that see what `late` says, with clocks that hold the waits, and that completes. */
  ghost predicate Completes(wf: Workflow, now: Time, late: Time -> Env, sweeps: seq<Sweep>)
    requires wf != []
  {
    && RunSchedule(wf, Enrolled(wf, now), sweeps).status == Completed
    && ClocksAdvance(sweeps) && forall i :: 0 <= i < |sweeps| ==> sweeps[i].env == late(sweeps[i].at)
  }

  /** Such schedules exist: sweeping when the execution is due completes every workflow, in one sweep more than
      there are waits directly after a send. */
  lemma SomeScheduleCompletes(wf: Workflow, now: Time, late: Time -> Env)
    requires wf != [] && SweepsWork(late)
    ensures exists sweeps :: Completes(wf, now, late, sweeps) && |sweeps| == HeldWaits(wf) + 1
  {
    assert wf[0..] == wf;
    var sweeps := SweepsToCompletion(wf, Enrolled(wf, now), late, 0);
    assert Completes(wf, now, late, sweeps);
  }
}
