/** Fetching the capabilities of all servers at once (internal/apiserver/handler/mcp.go): one goroutine a server, four
    more inside each, an error channel of four places a server, and a mutex around the two shared lists. Every step
    below is one action of one goroutine; a run is any interleaving of them. */
module Capabilities {
  import opened Options

  datatype Item = Item(name: string, body: string)

  /** A goroutine inside a server's: it calls, and then either sends its error or appends what it got to a shared
      list: lock, read the list, write the longer one, unlock. */
  datatype Task =
    | Unborn
    | Calling
    | Failing(err: string)
    | Sent
    | Got(items: seq<Item>)
    | Locked(items: seq<Item>)
    | Copied(items: seq<Item>, copy: seq<Item>)
    | Written(items: seq<Item>)
    | Appended(items: seq<Item>)

  datatype Stage = Creating | Starting | Refused(err: string) | Fetching | Returned

  /** A server's goroutine; `early` counts the errors it sent itself, `owns` says that it started the transport. */
  datatype Server = Server(name: string, stage: Stage, owns: bool, running: bool, early: nat,
                           tools: Task, prompts: Task, resources: Task, templates: Task)

  datatype Kind = Tools | Prompts | Resources | Templates

  function TaskOf(s: Server, k: Kind): Task {
    match k
    case Tools => s.tools
    case Prompts => s.prompts
    case Resources => s.resources
    case Templates => s.templates
  }

  function WithTask(s: Server, k: Kind, t: Task): (after: Server)
    ensures TaskOf(after, k) == t && forall j :: j != k ==> TaskOf(after, j) == TaskOf(s, j)
  {
    match k
    case Tools => s.(tools := t)
    case Prompts => s.(prompts := t)
    case Resources => s.(resources := t)
    case Templates => s.(templates := t)
  }

  datatype Answer = Info(tools: seq<Item>, prompts: seq<Item>) | Error(err: string)

  datatype Main = Waiting | Closed | Answered(answer: Answer)

  datatype State = State(servers: seq<Server>, sent: seq<string>, mutex: Option<(nat, Kind)>,
                         tools: seq<Item>, prompts: seq<Item>, main: Main)

  function Capacity(st: State): nat {
    4 * |st.servers|
  }

  datatype Fetched = Ok(items: seq<Item>) | Err(err: string)

  datatype TaskAct = Fetch(result: Fetched) | Send | Lock | Copy | Write | Unlock

  datatype OwnAct = Create(problem: Option<string>) | FindRunning | Start(problem: Option<string>) | Refuse | Join

  datatype Step = OwnStep(i: nat, own: OwnAct) | TaskStep(i: nat, k: Kind, act: TaskAct) | Close | Reply

  predicate Over(t: Task) {
    t.Sent? || t.Appended?
  }

  predicate AllOver(s: Server) {
    Over(s.tools) && Over(s.prompts) && Over(s.resources) && Over(s.templates)
  }

  // ---- One goroutine ----

  predicate TaskReady(t: Task, act: TaskAct) {
    match act
    case Fetch(_) => t.Calling?
    case Send => t.Failing?
    case Lock => t.Got?
    case Copy => t.Locked?
    case Write => t.Copied?
    case Unlock => t.Written?
  }

  function TaskAfter(t: Task, act: TaskAct, list: seq<Item>): Task
    requires TaskReady(t, act)
  {
    match act
    case Fetch(result) => if result.Ok? then Got(result.items) else Failing(result.err)
    case Send => Sent
    case Lock => Locked(t.items)
    case Copy => Copied(t.items, list)
    case Write => Written(t.items)
    case Unlock => Appended(t.items)
  }

  predicate OwnReady(s: Server, own: OwnAct) {
    match own
    case Create(_) => s.stage.Creating?
    case FindRunning => s.stage.Starting?
    case Start(_) => s.stage.Starting?
    case Refuse => s.stage.Refused?
    case Join => s.stage.Fetching? && AllOver(s)
  }

  function Forked(s: Server, owns: bool): Server {
    Server(s.name, Fetching, owns, true, s.early, Calling, Calling,
           Failing("resources fetching not implemented for server " + s.name),
           Failing("resource templates fetching not implemented for server " + s.name))
  }

  function OwnAfter(s: Server, own: OwnAct): Server
    requires OwnReady(s, own)
  {
    match own
    case Create(problem) => s.(stage := if problem.Some? then Refused(problem.value) else Starting)
    case FindRunning => Forked(s, false)
    case Start(problem) => if problem.Some? then s.(stage := Refused(problem.value)) else Forked(s, true)
    case Refuse => s.(stage := Returned, early := s.early + 1)
    case Join => s.(stage := Returned, running := if s.owns then false else s.running)
  }

  // ---- All of them ----

  function Sending(step: Step): nat {
    if (step.OwnStep? && step.own.Refuse?) || (step.TaskStep? && step.act.Send?) then 1 else 0
  }

  /** A send waits for a free place; locking waits for the mutex; the main goroutine waits for all servers. */
  predicate Enabled(st: State, step: Step) {
    && (Sending(step) == 1 ==> |st.sent| < Capacity(st))
    && match step
       case Close => st.main == Waiting && forall j :: 0 <= j < |st.servers| ==> st.servers[j].stage == Returned
       case Reply => st.main == Closed
       case OwnStep(i, own) => i < |st.servers| && OwnReady(st.servers[i], own)
       case TaskStep(i, k, act) =>
         i < |st.servers| && TaskReady(TaskOf(st.servers[i], k), act) && (act.Lock? ==> st.mutex == None)
  }

  function Shared(st: State, k: Kind): seq<Item> {
    if k.Tools? then st.tools else if k.Prompts? then st.prompts else []
  }

  function ServerAfter(st: State, step: Step): Server
    requires Enabled(st, step) && !step.Close? && !step.Reply?
  {
    var s := st.servers[step.i];
    if step.OwnStep? then OwnAfter(s, step.own)
    else WithTask(s, step.k, TaskAfter(TaskOf(s, step.k), step.act, Shared(st, step.k)))
  }

  function SentAfter(st: State, step: Step): seq<string>
    requires Enabled(st, step)
  {
    if Sending(step) == 0 then st.sent
    else st.sent + [if step.OwnStep? then st.servers[step.i].stage.err else TaskOf(st.servers[step.i], step.k).err]
  }

  function MutexAfter(st: State, step: Step): Option<(nat, Kind)> {
    if step.TaskStep? && step.act.Lock? then Some((step.i, step.k))
    else if step.TaskStep? && step.act.Unlock? then None
    else st.mutex
  }

  function ListAfter(st: State, step: Step, k: Kind): seq<Item>
    requires Enabled(st, step)
  {
    if step.TaskStep? && step.act.Write? && step.k == k then
      var t := TaskOf(st.servers[step.i], k);
      t.copy + t.items
    else Shared(st, k)
  }

  function AnswerOf(st: State): Answer {
    if |st.sent| > 0 && |st.tools| == 0 && |st.prompts| == 0 then Error(st.sent[0]) else Info(st.tools, st.prompts)
  }

  function Next(st: State, step: Step): State
    requires Enabled(st, step)
  {
    if step.Close? then st.(main := Closed)
    else if step.Reply? then st.(main := Answered(AnswerOf(st)))
    else State(st.servers[step.i := ServerAfter(st, step)], SentAfter(st, step), MutexAfter(st, step),
               ListAfter(st, step, Tools), ListAfter(st, step, Prompts), st.main)
  }

  function Fresh(name: string): Server {
    Server(name, Creating, false, false, 0, Unborn, Unborn, Unborn, Unborn)
  }

  function Begin(names: seq<string>): State {
    State(seq(|names|, i requires 0 <= i < |names| => Fresh(names[i])), [], None, [], [], Waiting)
  }

  /** The state after a run, if each of its steps could be taken when it was. */
  function After(names: seq<string>, steps: seq<Step>): Option<State> {
    if steps == [] then Some(Begin(names))
    else
      match After(names, steps[..|steps| - 1])
      case None => None
      case Some(before) =>
        if Enabled(before, steps[|steps| - 1]) then Some(Next(before, steps[|steps| - 1])) else None
  }

  predicate Reaches(names: seq<string>, steps: seq<Step>, st: State) {
    After(names, steps) == Some(st)
  }

  // ---- Sums over the servers ----

  function Sum(f: Server -> nat, servers: seq<Server>): nat {
    if servers == [] then 0 else Sum(f, servers[..|servers| - 1]) + f(servers[|servers| - 1])
  }

  function Union(f: Server -> seq<Item>, servers: seq<Server>): multiset<Item> {
    if servers == [] then multiset{} else Union(f, servers[..|servers| - 1]) + multiset(f(servers[|servers| - 1]))
  }

  lemma {:induction false} SumUpdate(f: Server -> nat, servers: seq<Server>, i: nat, s: Server)
    requires i < |servers|
    ensures Sum(f, servers[i := s]) + f(servers[i]) == Sum(f, servers) + f(s)
  {
    var n := |servers| - 1;
    if i < n {
      SumUpdate(f, servers[..n], i, s);
      assert servers[i := s][..n] == servers[..n][i := s];
    } else {
      assert servers[i := s][..n] == servers[..n];
    }
  }

  lemma {:induction false} UnionUpdate(f: Server -> seq<Item>, servers: seq<Server>, i: nat, s: Server)
    requires i < |servers|
    ensures Union(f, servers[i := s]) + multiset(f(servers[i])) == Union(f, servers) + multiset(f(s))
  {
    var n := |servers| - 1;
    if i < n {
      UnionUpdate(f, servers[..n], i, s);
      assert servers[i := s][..n] == servers[..n][i := s];
      AddThird(Union(f, servers[..n][i := s]), multiset(f(servers[i])), Union(f, servers[..n]), multiset(f(s)),
               multiset(f(servers[n])));
    } else {
      assert servers[i := s][..n] == servers[..n];
      AddThird(multiset(f(s)), multiset(f(servers[i])), multiset(f(servers[i])), multiset(f(s)),
               Union(f, servers[..n]));
    }
  }

  lemma AddThird(a: multiset<Item>, x: multiset<Item>, b: multiset<Item>, y: multiset<Item>, z: multiset<Item>)
    requires a + x == b + y
    ensures a + z + x == b + z + y && z + a + x == z + b + y
  {
    assert a + z + x == (a + x) + z && b + z + y == (b + y) + z;
    assert z + a + x == z + (a + x) && z + b + y == z + (b + y);
  }

  lemma {:induction false} SumBound(f: Server -> nat, servers: seq<Server>, bound: nat)
    requires forall s :: s in servers ==> f(s) <= bound
    ensures Sum(f, servers) <= bound * |servers|
  {
    if servers == [] {
    } else {
      SumBound(f, servers[..|servers| - 1], bound);
    }
  }

  lemma {:induction false} SumBelowBound(f: Server -> nat, servers: seq<Server>, bound: nat, i: nat)
    requires i < |servers| && f(servers[i]) < bound && forall s :: s in servers ==> f(s) <= bound
    ensures Sum(f, servers) < bound * |servers|
  {
    var front := servers[..|servers| - 1];
    Multiple(bound, |front|);
    if i < |front| {
      SumBelowBound(f, front, bound, i);
    } else {
      SumBound(f, front, bound);
    }
  }

  lemma Multiple(b: nat, n: nat)
    ensures b * (n + 1) == b * n + b
  {
  }

  lemma {:induction false} SumOfEach(f: Server -> nat, servers: seq<Server>, each: nat)
    requires forall s :: s in servers ==> f(s) == each
    ensures Sum(f, servers) == each * |servers|
  {
    if servers == [] {
    } else {
      SumOfEach(f, servers[..|servers| - 1], each);
    }
  }

  lemma {:induction false} UnionAgrees(f: Server -> seq<Item>, g: Server -> seq<Item>, servers: seq<Server>)
    requires forall s :: s in servers ==> f(s) == g(s)
    ensures Union(f, servers) == Union(g, servers)
  {
    if servers == [] {
    } else {
      UnionAgrees(f, g, servers[..|servers| - 1]);
    }
  }

  // ---- The error channel ----

  function SentBy(t: Task): nat {
    if t.Sent? then 1 else 0
  }

  /** How many errors a server's goroutines have sent. */
  function Sends(s: Server): nat {
    s.early + SentBy(s.tools) + SentBy(s.prompts) + SentBy(s.resources) + SentBy(s.templates)
  }

  predicate IsNotice(t: Task) {
    t.Failing? || t.Sent?
  }

  /** What the goroutines of one server look like at each stage. */
  predicate WellFormed(s: Server) {
    match s.stage
    case Fetching => s.early == 0 && HasTasks(s) && s.running
    case Returned =>
      if s.early == 0 then HasTasks(s) && AllOver(s) && (s.owns ==> !s.running) else s.early == 1 && NoTasks(s)
    case _ => s.early == 0 && NoTasks(s)
  }

  predicate HasTasks(s: Server) {
    !s.tools.Unborn? && !s.prompts.Unborn? && IsNotice(s.resources) && IsNotice(s.templates)
  }

  predicate NoTasks(s: Server) {
    s.tools == s.prompts == s.resources == s.templates == Unborn && !s.owns
  }

  /** A goroutine of the server has an error to send. */
  predicate AboutToSend(s: Server) {
    s.stage.Refused? || s.tools.Failing? || s.prompts.Failing? || s.resources.Failing? || s.templates.Failing?
  }

  /** A server sends at most four errors, and fewer while one of its goroutines has one to send. */
  lemma SendsAreBounded(s: Server)
    requires WellFormed(s)
    ensures Sends(s) <= 4
    ensures AboutToSend(s) ==> Sends(s) < 4
    ensures s.stage.Returned? ==> Sends(s) >= 1
  {
  }

  ghost predicate AllWellFormed(st: State) {
    && (forall s :: s in st.servers ==> WellFormed(s))
    && |st.sent| == Sum(Sends, st.servers)
    && (st.main != Waiting ==> forall s :: s in st.servers ==> s.stage == Returned)
  }

  lemma OwnKeepsWellFormed(s: Server, own: OwnAct)
    requires WellFormed(s) && OwnReady(s, own)
    ensures WellFormed(OwnAfter(s, own)) && !s.stage.Returned?
    ensures Sends(OwnAfter(s, own)) == Sends(s) + if own.Refuse? then 1 else 0
  {
  }

  lemma TaskKeepsWellFormed(s: Server, k: Kind, act: TaskAct, list: seq<Item>)
    requires WellFormed(s) && TaskReady(TaskOf(s, k), act)
    ensures var after := WithTask(s, k, TaskAfter(TaskOf(s, k), act, list));
            && WellFormed(after) && !s.stage.Returned?
            && Sends(after) == Sends(s) + if act.Send? then 1 else 0
  {
    assert s.stage.Fetching?;
  }

  lemma StepKeepsWellFormed(st: State, step: Step)
    requires AllWellFormed(st) && Enabled(st, step)
    ensures AllWellFormed(Next(st, step)) && |Next(st, step).servers| == |st.servers|
  {
    if step.OwnStep? || step.TaskStep? {
      var s := st.servers[step.i];
      assert WellFormed(s);
      if step.OwnStep? {
        OwnKeepsWellFormed(s, step.own);
      } else {
        TaskKeepsWellFormed(s, step.k, step.act, Shared(st, step.k));
      }
      SumUpdate(Sends, st.servers, step.i, ServerAfter(st, step));
    }
  }

  lemma {:induction false} RunIsWellFormed(names: seq<string>, steps: seq<Step>, st: State)
    requires Reaches(names, steps, st)
    ensures AllWellFormed(st) && |st.servers| == |names|
  {
    if steps == [] {
      SumOfEach(Sends, st.servers, 0);
    } else {
      var before := After(names, steps[..|steps| - 1]).value;
      RunIsWellFormed(names, steps[..|steps| - 1], before);
      StepKeepsWellFormed(before, steps[|steps| - 1]);
    }
  }

  /** No send waits, and none comes after the channel is closed; at most four errors a server are ever sent. */
  lemma SendsNeverBlock(names: seq<string>, steps: seq<Step>, st: State, i: nat)
    requires Reaches(names, steps, st)
    ensures |st.sent| <= 4 * |names|
    ensures i < |st.servers| && AboutToSend(st.servers[i]) ==> |st.sent| < Capacity(st) && st.main == Waiting
  {
    RunIsWellFormed(names, steps, st);
    forall s | s in st.servers ensures Sends(s) <= 4 {
      SendsAreBounded(s);
    }
    SumBound(Sends, st.servers, 4);
    if i < |st.servers| && AboutToSend(st.servers[i]) {
      SendsAreBounded(st.servers[i]);
      SumBelowBound(Sends, st.servers, 4, i);
    }
  }

  // ---- The shared lists ----

  predicate Holding(t: Task) {
    t.Locked? || t.Copied? || t.Written?
  }

  /** Who is inside the critical section holds the mutex, and what it has read is still the list. */
  ghost predicate Exclusive(st: State) {
    && (forall i: nat, k: Kind :: i < |st.servers| && Holding(TaskOf(st.servers[i], k)) ==>
          && st.mutex == Some((i, k))
          && (TaskOf(st.servers[i], k).Copied? ==> TaskOf(st.servers[i], k).copy == Shared(st, k)))
    && (st.mutex.Some? ==>
          st.mutex.value.0 < |st.servers| && Holding(TaskOf(st.servers[st.mutex.value.0], st.mutex.value.1)))
  }

  function AddedBy(t: Task): seq<Item> {
    if t.Written? || t.Appended? then t.items else []
  }

  function FetchedBy(t: Task): seq<Item> {
    if t.Got? || Holding(t) || t.Appended? then t.items else []
  }

  function Added(k: Kind): Server -> seq<Item> {
    (s: Server) => AddedBy(TaskOf(s, k))
  }

  function HasFetched(k: Kind): Server -> seq<Item> {
    (s: Server) => FetchedBy(TaskOf(s, k))
  }

  lemma TaskStaysOrMoves(st: State, step: Step, i: nat, k: Kind)
    requires Enabled(st, step) && i < |st.servers|
    requires WellFormed(st.servers[i])
    ensures var t, after := TaskOf(st.servers[i], k), TaskOf(Next(st, step).servers[i], k);
            if step.TaskStep? && step.i == i && step.k == k
            then TaskReady(t, step.act) && after == TaskAfter(t, step.act, Shared(st, k))
            else after == t || (t.Unborn? && (after.Calling? || after.Failing?))
  {
  }

  lemma HolderStaysExclusive(st: State, step: Step, i: nat, k: Kind)
    requires AllWellFormed(st) && Exclusive(st) && Enabled(st, step) && i < |st.servers|
    ensures var next := Next(st, step);
            Holding(TaskOf(next.servers[i], k)) ==>
              && next.mutex == Some((i, k))
              && (TaskOf(next.servers[i], k).Copied? ==> TaskOf(next.servers[i], k).copy == Shared(next, k))
  {
    assert WellFormed(st.servers[i]);
    TaskStaysOrMoves(st, step, i, k);
  }

  lemma MutexStaysHeld(st: State, step: Step)
    requires AllWellFormed(st) && Exclusive(st) && Enabled(st, step) && Next(st, step).mutex.Some?
    ensures var next := Next(st, step);
            && next.mutex.value.0 < |next.servers|
            && Holding(TaskOf(next.servers[next.mutex.value.0], next.mutex.value.1))
  {
    var (i, k) := Next(st, step).mutex.value;
    assert WellFormed(st.servers[i]);
    TaskStaysOrMoves(st, step, i, k);
  }

  lemma StepKeepsExclusive(st: State, step: Step)
    requires AllWellFormed(st) && Exclusive(st) && Enabled(st, step)
    ensures Exclusive(Next(st, step))
  {
    forall i: nat, k: Kind | i < |st.servers|
      ensures var next := Next(st, step);
              Holding(TaskOf(next.servers[i], k)) ==>
                && next.mutex == Some((i, k))
                && (TaskOf(next.servers[i], k).Copied? ==> TaskOf(next.servers[i], k).copy == Shared(next, k))
    {
      HolderStaysExclusive(st, step, i, k);
    }
    if Next(st, step).mutex.Some? {
      MutexStaysHeld(st, step);
    }
  }

  /** One goroutine turns from having nothing to having `gain`. */
  predicate Gains(before: seq<Item>, after: seq<Item>, gain: seq<Item>) {
    if gain == [] then after == before else before == [] && after == gain
  }

  lemma UnionGrows(f: Server -> seq<Item>, servers: seq<Server>, i: nat, s: Server, gain: seq<Item>)
    requires i < |servers| && Gains(f(servers[i]), f(s), gain)
    ensures Union(f, servers[i := s]) == Union(f, servers) + multiset(gain)
  {
    UnionUpdate(f, servers, i, s);
    if gain == [] {
      Cancel(Union(f, servers[i := s]), multiset(f(s)), Union(f, servers));
      assert Union(f, servers) + multiset([]) == Union(f, servers);
    } else {
      assert Union(f, servers[i := s]) + multiset([]) == Union(f, servers[i := s]);
    }
  }

  lemma Cancel(a: multiset<Item>, x: multiset<Item>, b: multiset<Item>)
    requires a + x == b + x
    ensures a == b
  {
    forall e ensures a[e] == b[e] {
      assert (a + x)[e] == (b + x)[e];
    }
  }

  /** What a step adds to the shared list. */
  function Gain(st: State, step: Step, k: Kind): seq<Item>
    requires Enabled(st, step)
  {
    if step.TaskStep? && step.k == k && step.act.Write? then TaskOf(st.servers[step.i], k).items else []
  }

  /** What a step fetches. */
  function Catch(step: Step, k: Kind): seq<Item> {
    if step.TaskStep? && step.k == k && step.act.Fetch? && step.act.result.Ok? then step.act.result.items else []
  }

  /** All the lists that the run's calls for one kind returned. */
  function FetchedIn(steps: seq<Step>, k: Kind): multiset<Item> {
    if steps == [] then multiset{}
    else FetchedIn(steps[..|steps| - 1], k) + multiset(Catch(steps[|steps| - 1], k))
  }

  lemma TaskAdds(st: State, step: Step, k: Kind)
    requires Enabled(st, step) && (step.OwnStep? || step.TaskStep?) && WellFormed(st.servers[step.i])
    ensures Gains(AddedBy(TaskOf(st.servers[step.i], k)), AddedBy(TaskOf(ServerAfter(st, step), k)), Gain(st, step, k))
  {
    TaskStaysOrMoves(st, step, step.i, k);
  }

  lemma ActFetches(t: Task, act: TaskAct, list: seq<Item>)
    requires TaskReady(t, act)
    ensures Gains(FetchedBy(t), FetchedBy(TaskAfter(t, act, list)),
                  if act.Fetch? && act.result.Ok? then act.result.items else [])
  {
  }

  /** A server's goroutine only gives its four others their start. */
  lemma OwnStartsTasks(s: Server, own: OwnAct, k: Kind)
    requires WellFormed(s) && OwnReady(s, own)
    ensures var t, after := TaskOf(s, k), TaskOf(OwnAfter(s, own), k);
            after == t || (t.Unborn? && (after.Calling? || after.Failing?))
  {
    if s.stage.Starting? {
      assert NoTasks(s);
    }
  }

  lemma StartedHasNothing(t: Task, after: Task)
    requires after == t || (t.Unborn? && (after.Calling? || after.Failing?))
    ensures FetchedBy(after) == FetchedBy(t)
  {
  }

  lemma OwnBringsNothing(s: Server, own: OwnAct, k: Kind)
    requires WellFormed(s) && OwnReady(s, own)
    ensures FetchedBy(TaskOf(OwnAfter(s, own), k)) == FetchedBy(TaskOf(s, k))
  {
    OwnStartsTasks(s, own, k);
    StartedHasNothing(TaskOf(s, k), TaskOf(OwnAfter(s, own), k));
  }

  lemma TaskFetches(st: State, step: Step, k: Kind)
    requires Enabled(st, step) && (step.OwnStep? || step.TaskStep?) && WellFormed(st.servers[step.i])
    ensures Gains(FetchedBy(TaskOf(st.servers[step.i], k)), FetchedBy(TaskOf(ServerAfter(st, step), k)), Catch(step, k))
  {
    if step.TaskStep? && step.k == k {
      ActFetches(TaskOf(st.servers[step.i], k), step.act, Shared(st, k));
    } else if step.TaskStep? {
      assert TaskOf(ServerAfter(st, step), k) == TaskOf(st.servers[step.i], k);
    } else {
      OwnBringsNothing(st.servers[step.i], step.own, k);
    }
  }

  lemma ListGains(st: State, step: Step, k: Kind)
    requires Exclusive(st) && Enabled(st, step) && (k.Tools? || k.Prompts?)
    ensures multiset(Shared(Next(st, step), k)) == multiset(Shared(st, k)) + multiset(Gain(st, step, k))
  {
    var gain := Gain(st, step, k);
    ListAppends(st, step, k);
    assert multiset(Shared(st, k) + gain) == multiset(Shared(st, k)) + multiset(gain);
  }

  lemma ListAppends(st: State, step: Step, k: Kind)
    requires Exclusive(st) && Enabled(st, step) && (k.Tools? || k.Prompts?)
    ensures Shared(Next(st, step), k) == Shared(st, k) + Gain(st, step, k)
  {
    if step.TaskStep? && step.k == k && step.act.Write? {
      assert Holding(TaskOf(st.servers[step.i], k));
    } else {
      assert Shared(st, k) + [] == Shared(st, k);
    }
  }

  lemma StepKeepsLists(st: State, step: Step, k: Kind)
    requires AllWellFormed(st) && Exclusive(st) && Enabled(st, step) && (k.Tools? || k.Prompts?)
    requires multiset(Shared(st, k)) == Union(Added(k), st.servers)
    ensures multiset(Shared(Next(st, step), k)) == Union(Added(k), Next(st, step).servers)
  {
    ListGains(st, step, k);
    if step.OwnStep? || step.TaskStep? {
      assert WellFormed(st.servers[step.i]);
      TaskAdds(st, step, k);
      UnionGrows(Added(k), st.servers, step.i, ServerAfter(st, step), Gain(st, step, k));
    }
  }

  lemma StepKeepsHistory(st: State, step: Step, k: Kind)
    requires AllWellFormed(st) && Enabled(st, step)
    ensures Union(HasFetched(k), Next(st, step).servers) == Union(HasFetched(k), st.servers) + multiset(Catch(step, k))
  {
    if step.OwnStep? || step.TaskStep? {
      assert WellFormed(st.servers[step.i]);
      TaskFetches(st, step, k);
      UnionGrows(HasFetched(k), st.servers, step.i, ServerAfter(st, step), Catch(step, k));
    }
  }

  lemma {:induction false} UnionOfNothing(f: Server -> seq<Item>, servers: seq<Server>)
    requires forall s :: s in servers ==> f(s) == []
    ensures Union(f, servers) == multiset{}
  {
    if servers == [] {
    } else {
      UnionOfNothing(f, servers[..|servers| - 1]);
    }
  }

  lemma {:induction false} RunIsExclusive(names: seq<string>, steps: seq<Step>, st: State)
    requires Reaches(names, steps, st)
    ensures Exclusive(st)
  {
    if steps == [] {
    } else {
      var before := After(names, steps[..|steps| - 1]).value;
      RunIsExclusive(names, steps[..|steps| - 1], before);
      RunIsWellFormed(names, steps[..|steps| - 1], before);
      StepKeepsExclusive(before, steps[|steps| - 1]);
    }
  }

  /** In every state of every run a shared list holds what the goroutines have appended: no append is lost. */
  lemma {:induction false} ListIsWhatWasAdded(names: seq<string>, steps: seq<Step>, st: State, k: Kind)
    requires Reaches(names, steps, st) && (k.Tools? || k.Prompts?)
    ensures multiset(Shared(st, k)) == Union(Added(k), st.servers)
  {
    if steps == [] {
      UnionOfNothing(Added(k), st.servers);
    } else {
      var before := After(names, steps[..|steps| - 1]).value;
      ListIsWhatWasAdded(names, steps[..|steps| - 1], before, k);
      RunIsExclusive(names, steps[..|steps| - 1], before);
      RunIsWellFormed(names, steps[..|steps| - 1], before);
      StepKeepsLists(before, steps[|steps| - 1], k);
    }
  }

  lemma {:induction false} HistoryIsWhatWasFetched(names: seq<string>, steps: seq<Step>, st: State, k: Kind)
    requires Reaches(names, steps, st)
    ensures FetchedIn(steps, k) == Union(HasFetched(k), st.servers)
  {
    if steps == [] {
      UnionOfNothing(HasFetched(k), st.servers);
    } else {
      var before := After(names, steps[..|steps| - 1]).value;
      HistoryIsWhatWasFetched(names, steps[..|steps| - 1], before, k);
      RunIsWellFormed(names, steps[..|steps| - 1], before);
      StepKeepsHistory(before, steps[|steps| - 1], k);
    }
  }

  lemma ReturnedAddedAll(s: Server, k: Kind)
    requires WellFormed(s) && s.stage == Returned && (k.Tools? || k.Prompts?)
    ensures Added(k)(s) == HasFetched(k)(s)
  {
    assert Over(TaskOf(s, k)) || TaskOf(s, k).Unborn?;
  }

  /** Once every server has returned, nothing fetched is lost and nothing is listed twice. */
  lemma CollectedIsFetched(names: seq<string>, steps: seq<Step>, st: State, k: Kind)
    requires Reaches(names, steps, st) && st.main != Waiting && (k.Tools? || k.Prompts?)
    ensures multiset(Shared(st, k)) == FetchedIn(steps, k)
  {
    ListIsWhatWasAdded(names, steps, st, k);
    HistoryIsWhatWasFetched(names, steps, st, k);
    RunIsWellFormed(names, steps, st);
    forall s | s in st.servers ensures Added(k)(s) == HasFetched(k)(s) {
      ReturnedAddedAll(s, k);
    }
    UnionAgrees(Added(k), HasFetched(k), st.servers);
  }

  // ---- The answer ----

  lemma {:induction false} SumIsPositive(f: Server -> nat, servers: seq<Server>)
    requires servers != [] && forall s :: s in servers ==> f(s) >= 1
    ensures Sum(f, servers) > 0
  {
    assert servers[|servers| - 1] in servers;
  }

  lemma ReturnedRests(s: Server, own: OwnAct, k: Kind, act: TaskAct)
    requires WellFormed(s) && s.stage.Returned?
    ensures !OwnReady(s, own) && !TaskReady(TaskOf(s, k), act)
  {
  }

  /** After the channel is closed only the main goroutine is left. */
  lemma OnlyReplyFollows(st: State, step: Step)
    requires AllWellFormed(st) && st.main != Waiting && Enabled(st, step)
    ensures step.Reply? && st.main == Closed
  {
    if step.OwnStep? {
      ReturnedRests(st.servers[step.i], step.own, Tools, Send);
    } else if step.TaskStep? {
      ReturnedRests(st.servers[step.i], Join, step.k, step.act);
    }
  }

  lemma AnswerIsRemembered(names: seq<string>, steps: seq<Step>, st: State)
    requires Reaches(names, steps, st) && st.main.Answered?
    ensures st.main.answer == AnswerOf(st)
  {
    var before := After(names, steps[..|steps| - 1]).value;
    RunIsWellFormed(names, steps[..|steps| - 1], before);
    if before.main != Waiting {
      OnlyReplyFollows(before, steps[|steps| - 1]);
    }
  }

  /** The answer is an error exactly when there are servers and no call for tools or prompts brought anything, whatever
      the interleaving; otherwise it lists exactly what was fetched. Every transport started here has been stopped. */
  lemma AnswerIsExact(names: seq<string>, steps: seq<Step>, st: State)
    requires Reaches(names, steps, st) && st.main.Answered?
    ensures st.main.answer.Error? <==>
            names != [] && FetchedIn(steps, Tools) == FetchedIn(steps, Prompts) == multiset{}
    ensures st.main.answer.Error? ==> st.sent != [] && st.main.answer.err == st.sent[0]
    ensures st.main.answer.Info? ==>
              && multiset(st.main.answer.tools) == FetchedIn(steps, Tools)
              && multiset(st.main.answer.prompts) == FetchedIn(steps, Prompts)
    ensures forall s :: s in st.servers && s.owns ==> !s.running
  {
    AnswerIsRemembered(names, steps, st);
    CollectedIsFetched(names, steps, st, Tools);
    CollectedIsFetched(names, steps, st, Prompts);
    RunIsWellFormed(names, steps, st);
    forall s | s in st.servers ensures Sends(s) >= 1 && (s.owns ==> !s.running) {
      SendsAreBounded(s);
    }
    if names != [] {
      SumIsPositive(Sends, st.servers);
    }
    assert |multiset(st.tools)| == |st.tools| && |multiset(st.prompts)| == |st.prompts|;
  }

  /** What a server's goroutine knows of its transport: found running, or started by itself. */
  ghost predicate TransportKnown(s: Server, i: nat, steps: seq<Step>) {
    && (OwnStep(i, FindRunning) in steps <==> s.running && !s.owns)
    && (OwnStep(i, Start(None)) in steps <==> s.owns)
    && (NoTasks(s) ==> !s.running)
  }

  lemma OwnKnowsTransport(s: Server, i: nat, own: OwnAct, steps: seq<Step>)
    requires WellFormed(s) && OwnReady(s, own) && TransportKnown(s, i, steps)
    ensures TransportKnown(OwnAfter(s, own), i, steps + [OwnStep(i, own)])
  {
  }

  lemma OtherStepKnowsTransport(s: Server, s': Server, i: nat, step: Step, steps: seq<Step>)
    requires TransportKnown(s, i, steps) && s'.running == s.running && s'.owns == s.owns
    requires !step.OwnStep? || step.i != i
    requires NoTasks(s') ==> NoTasks(s)
    ensures TransportKnown(s', i, steps + [step])
  {
  }

  lemma StepKnowsTransport(st: State, step: Step, i: nat, steps: seq<Step>)
    requires Enabled(st, step) && i < |st.servers| && WellFormed(st.servers[i])
    requires TransportKnown(st.servers[i], i, steps)
    ensures TransportKnown(Next(st, step).servers[i], i, steps + [step])
  {
    if step.OwnStep? && step.i == i {
      OwnKnowsTransport(st.servers[i], i, step.own, steps);
    } else {
      OtherStepKnowsTransport(st.servers[i], Next(st, step).servers[i], i, step, steps);
    }
  }

  lemma {:induction false} RunKnowsTransports(names: seq<string>, steps: seq<Step>, st: State, i: nat)
    requires Reaches(names, steps, st) && i < |st.servers|
    ensures TransportKnown(st.servers[i], i, steps)
  {
    if steps == [] {
    } else {
      var front, step := steps[..|steps| - 1], steps[|steps| - 1];
      var before := After(names, front).value;
      RunIsWellFormed(names, front, before);
      RunIsWellFormed(names, steps, st);
      RunKnowsTransports(names, front, before, i);
      assert before.servers[i] in before.servers;
      StepKnowsTransport(before, step, i, front);
      assert front + [step] == steps;
    }
  }

  /** When the answer is there, the transports that run are exactly those found running: what was started for the fetch
      has been stopped, and nothing else. */
  lemma TransportsAreLeftAsFound(names: seq<string>, steps: seq<Step>, st: State, i: nat)
    requires Reaches(names, steps, st) && st.main.Answered? && i < |st.servers|
    ensures st.servers[i].running <==> OwnStep(i, FindRunning) in steps
  {
    RunKnowsTransports(names, steps, st, i);
    RunIsWellFormed(names, steps, st);
    assert WellFormed(st.servers[i]);
  }

  // ---- Progress ----

  /** What a goroutine does next. */
  function Urgent(t: Task): (act: TaskAct)
    requires !t.Unborn? && !Over(t)
    ensures TaskReady(t, act)
  {
    match t
    case Calling => Fetch(Ok([]))
    case Failing(_) => Send
    case Got(_) => Lock
    case Locked(_) => Copy
    case Copied(_, _) => Write
    case Written(_) => Unlock
  }

  lemma TaskCanStep(st: State, i: nat, k: Kind) returns (step: Step)
    requires Exclusive(st) && i < |st.servers| && !TaskOf(st.servers[i], k).Unborn? && !Over(TaskOf(st.servers[i], k))
    requires TaskOf(st.servers[i], k).Failing? ==> |st.sent| < Capacity(st)
    ensures Enabled(st, step)
  {
    var t := TaskOf(st.servers[i], k);
    if t.Got? && st.mutex.Some? {
      var holder := TaskOf(st.servers[st.mutex.value.0], st.mutex.value.1);
      step := TaskStep(st.mutex.value.0, st.mutex.value.1, Urgent(holder));
    } else {
      step := TaskStep(i, k, Urgent(t));
    }
  }

  lemma ServerCanStep(st: State, i: nat) returns (step: Step)
    requires AllWellFormed(st) && Exclusive(st) && i < |st.servers| && !st.servers[i].stage.Returned?
    requires AboutToSend(st.servers[i]) ==> |st.sent| < Capacity(st)
    ensures Enabled(st, step)
  {
    var s := st.servers[i];
    assert WellFormed(s);
    if s.stage.Creating? {
      step := OwnStep(i, Create(None));
    } else if s.stage.Starting? {
      step := OwnStep(i, FindRunning);
    } else if s.stage.Refused? {
      step := OwnStep(i, Refuse);
    } else if AllOver(s) {
      step := OwnStep(i, Join);
    } else {
      var k := if !Over(s.tools) then Tools else if !Over(s.prompts) then Prompts
               else if !Over(s.resources) then Resources else Templates;
      step := TaskCanStep(st, i, k);
    }
  }

  /** As long as there is no answer, some goroutine can go on. */
  lemma NeverStuck(names: seq<string>, steps: seq<Step>, st: State) returns (step: Step)
    requires Reaches(names, steps, st) && !st.main.Answered?
    ensures Enabled(st, step)
  {
    RunIsWellFormed(names, steps, st);
    RunIsExclusive(names, steps, st);
    if st.main.Closed? {
      step := Reply;
    } else if i :| 0 <= i < |st.servers| && !st.servers[i].stage.Returned? {
      SendsNeverBlock(names, steps, st, i);
      step := ServerCanStep(st, i);
    } else {
      step := Close;
    }
  }

  function TaskRank(t: Task): nat {
    match t
    case Calling => 5
    case Got(_) => 4
    case Locked(_) => 3
    case Copied(_, _) => 2
    case Written(_) => 1
    case Failing(_) => 1
    case _ => 0
  }

  function ServerRank(s: Server): nat {
    match s.stage
    case Creating => 15
    case Starting => 14
    case Refused(_) => 1
    case Fetching => 1 + TaskRank(s.tools) + TaskRank(s.prompts) + TaskRank(s.resources) + TaskRank(s.templates)
    case Returned => 0
  }

  /** How many steps are left at most. */
  function Rank(st: State): nat {
    Sum(ServerRank, st.servers) + if st.main.Waiting? then 2 else if st.main.Closed? then 1 else 0
  }

  lemma OwnDescends(s: Server, own: OwnAct)
    requires WellFormed(s) && OwnReady(s, own)
    ensures ServerRank(OwnAfter(s, own)) < ServerRank(s)
  {
  }

  lemma TaskDescends(s: Server, k: Kind, act: TaskAct, list: seq<Item>)
    requires WellFormed(s) && TaskReady(TaskOf(s, k), act)
    ensures ServerRank(WithTask(s, k, TaskAfter(TaskOf(s, k), act, list))) < ServerRank(s)
  {
    assert s.stage.Fetching?;
  }

  lemma StepDescends(st: State, step: Step)
    requires AllWellFormed(st) && Enabled(st, step)
    ensures Rank(Next(st, step)) < Rank(st)
  {
    if step.OwnStep? || step.TaskStep? {
      var s := st.servers[step.i];
      assert WellFormed(s);
      if step.OwnStep? {
        OwnDescends(s, step.own);
      } else {
        TaskDescends(s, step.k, step.act, Shared(st, step.k));
      }
      SumUpdate(ServerRank, st.servers, step.i, ServerAfter(st, step));
    }
  }

  /** No run is longer than fifteen steps a server and two: with NeverStuck, every fetch ends in an answer. */
  lemma {:induction false} RunsAreShort(names: seq<string>, steps: seq<Step>, st: State)
    requires Reaches(names, steps, st)
    ensures |steps| + Rank(st) <= 15 * |names| + 2
  {
    if steps == [] {
      SumOfEach(ServerRank, st.servers, 15);
    } else {
      var before := After(names, steps[..|steps| - 1]).value;
      RunsAreShort(names, steps[..|steps| - 1], before);
      RunIsWellFormed(names, steps[..|steps| - 1], before);
      StepDescends(before, steps[|steps| - 1]);
    }
  }
}
