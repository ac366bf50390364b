/** No error of a capability fetch is lost, doubled or made up: what the channel holds at its close is what the calls
    of the run reported and the notices of the two kinds that are not implemented
    (internal/apiserver/handler/mcp.go). */
module CapabilityErrors {
  import opened Options
  import opened Capabilities

  /** What a step finds to report, by the names of the servers. */
  function Reports(names: seq<string>, step: Step): multiset<string> {
    match step
    case OwnStep(i, Create(Some(problem))) => multiset{problem}
    case OwnStep(i, Start(Some(problem))) => multiset{problem}
    case OwnStep(i, Start(None)) => if i < |names| then Notices(names[i]) else multiset{}
    case OwnStep(i, FindRunning) => if i < |names| then Notices(names[i]) else multiset{}
    case TaskStep(_, _, Fetch(Err(problem))) => multiset{problem}
    case _ => multiset{}
  }

  /** A server's goroutine forks one for each kind; those for resources and templates have only this to say. */
  function Notices(name: string): multiset<string> {
    multiset{"resources fetching not implemented for server " + name,
             "resource templates fetching not implemented for server " + name}
  }

  function ReportedIn(names: seq<string>, steps: seq<Step>): multiset<string> {
    if steps == [] then multiset{}
    else ReportedIn(names, steps[..|steps| - 1]) + Reports(names, steps[|steps| - 1])
  }

  // ---- What is still to be sent ----

  /** Whether a goroutine has the error to send. */
  function HasError(t: Task, err: string): nat {
    if t.Failing? && t.err == err then 1 else 0
  }

  function OwnError(s: Server, err: string): nat {
    if s.stage.Refused? && s.stage.err == err then 1 else 0
  }

  /** How many goroutines of a server have it to send. */
  function Errors(s: Server, err: string): nat {
    OwnError(s, err) + HasError(s.tools, err) + HasError(s.prompts, err) + HasError(s.resources, err)
      + HasError(s.templates, err)
  }

  function Pending(err: string): Server -> nat {
    (s: Server) => Errors(s, err)
  }

  // ---- One step ----

  /** Whether a step sends the error. */
  function SentBy(st: State, step: Step, err: string): nat
    requires Enabled(st, step)
  {
    if step.OwnStep? && step.own.Refuse? then OwnError(st.servers[step.i], err)
    else if step.TaskStep? && step.act.Send? then HasError(TaskOf(st.servers[step.i], step.k), err)
    else 0
  }

  lemma SentGrows(st: State, step: Step, err: string)
    requires Enabled(st, step)
    ensures multiset(Next(st, step).sent)[err] == multiset(st.sent)[err] + SentBy(st, step, err)
  {
    if Sending(step) == 1 {
      var more := if step.OwnStep? then st.servers[step.i].stage.err else TaskOf(st.servers[step.i], step.k).err;
      assert Next(st, step).sent == st.sent + [more];
    }
  }

  lemma ErrorsWithoutTasks(s: Server, err: string)
    requires NoTasks(s)
    ensures Errors(s, err) == OwnError(s, err)
  {
  }

  lemma ErrorsWhenOver(s: Server, err: string)
    requires AllOver(s)
    ensures Errors(s, err) == OwnError(s, err)
  {
  }

  lemma ErrorsWhenForked(s: Server, owns: bool, err: string)
    ensures Errors(Forked(s, owns), err) == Notices(s.name)[err]
  {
  }

  /** A goroutine's errors change by what it reports and what it sends. */
  lemma OwnErrorsMove(st: State, step: Step, names: seq<string>, err: string)
    requires Enabled(st, step) && step.OwnStep? && WellFormed(st.servers[step.i])
    requires step.i < |names| && st.servers[step.i].name == names[step.i]
    ensures Errors(ServerAfter(st, step), err) + SentBy(st, step, err) ==
            Errors(st.servers[step.i], err) + Reports(names, step)[err]
  {
    var s, own := st.servers[step.i], step.own;
    if own.Join? {
      ErrorsWhenOver(s, err);
      ErrorsWhenOver(OwnAfter(s, own), err);
    } else {
      ErrorsWithoutTasks(s, err);
      if own.FindRunning? || (own.Start? && own.problem.None?) {
        ErrorsWhenForked(s, own.Start?, err);
      } else {
        ErrorsWithoutTasks(OwnAfter(s, own), err);
      }
    }
  }

  lemma TaskErrorMoves(t: Task, act: TaskAct, list: seq<Item>, err: string)
    requires TaskReady(t, act)
    ensures HasError(TaskAfter(t, act, list), err) + (if act.Send? then HasError(t, err) else 0) ==
            HasError(t, err) + if act.Fetch? && act.result.Err? && act.result.err == err then 1 else 0
  {
  }

  lemma TaskErrorsMove(st: State, step: Step, names: seq<string>, err: string)
    requires Enabled(st, step) && step.TaskStep?
    ensures Errors(ServerAfter(st, step), err) + SentBy(st, step, err) ==
            Errors(st.servers[step.i], err) + Reports(names, step)[err]
  {
    TaskErrorMoves(TaskOf(st.servers[step.i], step.k), step.act, Shared(st, step.k), err);
  }

  // ---- Runs ----

  /** Sent and still to be sent: together what the run reported. */
  ghost predicate Accounted(names: seq<string>, reported: multiset<string>, st: State) {
    && |st.servers| == |names|
    && (forall i :: 0 <= i < |names| ==> st.servers[i].name == names[i])
    && forall err :: multiset(st.sent)[err] + Sum(Pending(err), st.servers) == reported[err]
  }

  lemma NamesStay(st: State, step: Step)
    requires Enabled(st, step)
    ensures var next := Next(st, step);
            |next.servers| == |st.servers|
            && forall i :: 0 <= i < |st.servers| ==> next.servers[i].name == st.servers[i].name
  {
  }

  lemma ErrorIsAccounted(names: seq<string>, st: State, step: Step, err: string)
    requires AllWellFormed(st) && Enabled(st, step) && |st.servers| == |names|
    requires forall i :: 0 <= i < |names| ==> st.servers[i].name == names[i]
    ensures multiset(Next(st, step).sent)[err] + Sum(Pending(err), Next(st, step).servers) ==
            multiset(st.sent)[err] + Sum(Pending(err), st.servers) + Reports(names, step)[err]
  {
    SentGrows(st, step, err);
    if step.OwnStep? || step.TaskStep? {
      assert WellFormed(st.servers[step.i]);
      if step.OwnStep? {
        OwnErrorsMove(st, step, names, err);
      } else {
        TaskErrorsMove(st, step, names, err);
      }
      SumUpdate(Pending(err), st.servers, step.i, ServerAfter(st, step));
    }
  }

  lemma {:induction false} RunIsAccounted(names: seq<string>, steps: seq<Step>, st: State)
    requires Reaches(names, steps, st)
    ensures Accounted(names, ReportedIn(names, steps), st)
  {
    if steps == [] {
      forall err ensures Sum(Pending(err), st.servers) == 0 {
        SumOfEach(Pending(err), st.servers, 0);
      }
    } else {
      var before := After(names, steps[..|steps| - 1]).value;
      var step := steps[|steps| - 1];
      RunIsAccounted(names, steps[..|steps| - 1], before);
      RunIsWellFormed(names, steps[..|steps| - 1], before);
      NamesStay(before, step);
      forall err ensures multiset(st.sent)[err] + Sum(Pending(err), st.servers) == ReportedIn(names, steps)[err] {
        ErrorIsAccounted(names, before, step, err);
      }
    }
  }

  lemma ReturnedHasNoError(s: Server, err: string)
    requires WellFormed(s) && s.stage == Returned
    ensures Errors(s, err) == 0
  {
  }

  /** Once every server has returned, the errors sent are exactly those that calls reported, each as often as it was,
      and the notices of the servers that were asked. */
  lemma SentIsReported(names: seq<string>, steps: seq<Step>, st: State)
    requires Reaches(names, steps, st) && st.main != Waiting
    ensures multiset(st.sent) == ReportedIn(names, steps)
  {
    RunIsAccounted(names, steps, st);
    RunIsWellFormed(names, steps, st);
    forall err ensures multiset(st.sent)[err] == ReportedIn(names, steps)[err] {
      forall s | s in st.servers ensures Pending(err)(s) == 0 {
        ReturnedHasNoError(s, err);
      }
      SumOfEach(Pending(err), st.servers, 0);
    }
  }

  /** So an error answered is one of them. */
  lemma AnsweredErrorWasReported(names: seq<string>, steps: seq<Step>, st: State)
    requires Reaches(names, steps, st) && st.main.Answered? && st.main.answer.Error?
    ensures st.main.answer.err in ReportedIn(names, steps)
  {
    AnswerIsExact(names, steps, st);
    SentIsReported(names, steps, st);
    assert st.main.answer.err in multiset(st.sent);
  }
}
