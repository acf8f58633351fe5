/**
 Per-Bot exclusive gates (bot-lifecycle-gate.ts) over FIFO mutexes
 (async-mutex.ts), as a step system of any number of tasks.

 A mutex is the queue of the tasks that joined its tail and have not released
 it; its first element is the task whose turn it is. One task is one call of
 `run` or `runAll`: it joins and awaits its gates one after the other, runs its
 critical section, in which it may take the state mutex any number of times
 (always innermost), and releases its gates innermost first.
 */
module LifecycleGate {
  import opened Common
  import opened LexOrder

  type BotId = string
  type TaskId = nat

  // ----- the plan of one call

  lemma {:induction false} SortedOfAscending(s: seq<BotId>)
    requires Ascending(s)
    ensures Sorted(s) == s
  {
    if s != [] {
      SortedOfAscending(s[1..]);
    }
  }

  lemma HeadBelow(ordered: seq<BotId>, rest: seq<BotId>)
    requires ordered != [] && Ascending(ordered) && Ascending(rest) && forall b :: b in rest ==> b in ordered[1..]
    ensures Ascending([ordered[0]] + rest)
  {
    forall j | 0 <= j < |rest| ensures Less(ordered[0], rest[j]) {
      assert rest[j] in ordered[1..];
    }
  }

  /** The gates `runAll` takes, outermost first: it stops at a falsy head. */
  function RunAllPlan(botIds: seq<BotId>): (plan: seq<BotId>)
    ensures Ascending(plan)
    ensures forall b :: b in plan ==> b in botIds
    decreases |Sorted(botIds)|
  {
    var ordered := Sorted(botIds);
    if ordered == [] || ordered[0] == "" then []
    else
      SortedOfAscending(ordered[1..]);
      var rest := RunAllPlan(ordered[1..]);
      HeadBelow(ordered, rest);
      [ordered[0]] + rest
  }

  function Gates(botIds: seq<BotId>): set<BotId>
  {
    set b | b in botIds
  }

  lemma {:induction false} RunAllPlanOfAscending(ordered: seq<BotId>)
    requires Ascending(ordered) && "" !in ordered
    ensures RunAllPlan(ordered) == ordered
  {
    SortedOfAscending(ordered);
    if ordered != [] {
      RunAllPlanOfAscending(ordered[1..]);
      assert ordered == [ordered[0]] + ordered[1..];
    }
  }

  /** `runAll` holds every listed gate, unless the list names the empty id: then it holds none. */
  lemma RunAllHoldsEveryListedGate(botIds: seq<BotId>)
    ensures Gates(RunAllPlan(botIds)) == Gates(botIds) <==> "" !in botIds
    ensures "" in botIds ==> RunAllPlan(botIds) == []
  {
    var ordered := Sorted(botIds);
    if "" in botIds {
      assert "" in ordered;
      var k :| 0 <= k < |ordered| && ordered[k] == "";
      assert !Less(ordered[0], "");
      assert "" in Gates(botIds) && "" !in Gates([]);
    } else {
      RunAllPlanOfAscending(ordered);
      SortedOfAscending(ordered);
      SamePlan(botIds);
      assert RunAllPlan(botIds) == ordered;
      assert Gates(ordered) == Gates(botIds);
    }
  }

  lemma SamePlan(botIds: seq<BotId>)
    ensures RunAllPlan(botIds) == RunAllPlan(Sorted(botIds))
  {
    SortedOfAscending(Sorted(botIds));
  }

  /** `run` takes its one gate whatever the id. */
  datatype Call = Run(botId: BotId) | RunAll(botIds: seq<BotId>)

  function Plan(call: Call): (plan: seq<BotId>)
    ensures Ascending(plan)
  {
    match call
    case Run(botId) => [botId]
    case RunAll(botIds) => RunAllPlan(botIds)
  }

  // ----- the step system

  datatype StateUse = Outside | Waiting | Inside

  datatype Phase =
    | Acquiring(asked: nat, got: nat)
    | Critical(sections: nat, use: StateUse)
    | Releasing(left: nat)

  datatype Task = Task(plan: seq<BotId>, sections: nat, phase: Phase)

  /** `locks` fills lazily, as in the source; `stateQueue` is the daemon state mutex. */
  datatype State = State(tasks: seq<Task>, locks: map<BotId, seq<TaskId>>, stateQueue: seq<TaskId>)

  function Queue(locks: map<BotId, seq<TaskId>>, g: BotId): seq<TaskId>
  {
    if g in locks then locks[g] else []
  }

  function Joined(locks: map<BotId, seq<TaskId>>, g: BotId, t: TaskId): map<BotId, seq<TaskId>>
  {
    locks[g := Queue(locks, g) + [t]]
  }

  function Dequeued(locks: map<BotId, seq<TaskId>>, g: BotId): map<BotId, seq<TaskId>>
    requires Queue(locks, g) != []
  {
    locks[g := Queue(locks, g)[1..]]
  }

  /** How many gates of its plan a task has joined, and how many it holds. */
  function AskedCount(t: Task): nat
  {
    match t.phase
    case Acquiring(asked, _) => asked
    case Critical(_, _) => |t.plan|
    case Releasing(left) => left
  }

  function HeldCount(t: Task): nat
  {
    match t.phase
    case Acquiring(_, got) => got
    case Critical(_, _) => |t.plan|
    case Releasing(left) => left
  }

  predicate TaskOk(t: Task)
  {
    match t.phase
    case Acquiring(asked, got) => got <= asked <= got + 1 && asked <= |t.plan|
    case Critical(n, _) => n <= t.sections
    case Releasing(left) => left <= |t.plan|
  }

  function AskedGates(t: Task): (r: set<BotId>)
    requires TaskOk(t)
  {
    set i | 0 <= i < AskedCount(t) :: t.plan[i]
  }

  function HeldGates(t: Task): (r: set<BotId>)
    requires TaskOk(t)
  {
    set i | 0 <= i < HeldCount(t) :: t.plan[i]
  }

  datatype Action = Ask | Get | Enter | AskState | GetState | PutState | Leave | Put

  predicate Enabled(s: State, t: TaskId, a: Action)
  {
    t < |s.tasks| && TaskOk(s.tasks[t]) &&
    var task := s.tasks[t];
    match (a, task.phase)
    case (Ask, Acquiring(asked, got)) => asked == got < |task.plan|
    case (Get, Acquiring(asked, got)) =>
      asked == got + 1 && [t] <= Queue(s.locks, task.plan[got])
    case (Enter, Acquiring(asked, got)) => got == |task.plan|
    case (AskState, Critical(n, Outside)) => n > 0
    case (GetState, Critical(n, Waiting)) => [t] <= s.stateQueue
    case (PutState, Critical(n, Inside)) => n > 0 && [t] <= s.stateQueue
    case (Leave, Critical(n, Outside)) => true
    case (Put, Releasing(left)) => left > 0 && [t] <= Queue(s.locks, task.plan[left - 1])
    case _ => false
  }

  function WithPhase(s: State, t: TaskId, phase: Phase): State
    requires t < |s.tasks|
  {
    s.(tasks := s.tasks[t := s.tasks[t].(phase := phase)])
  }

  function Step(s: State, t: TaskId, a: Action): State
    requires Enabled(s, t, a)
  {
    var task := s.tasks[t];
    match (a, task.phase)
    case (Ask, Acquiring(asked, got)) =>
      WithPhase(s, t, Acquiring(asked + 1, got)).(locks := Joined(s.locks, task.plan[asked], t))
    case (Get, Acquiring(asked, got)) => WithPhase(s, t, Acquiring(asked, got + 1))
    case (Enter, Acquiring(_, _)) => WithPhase(s, t, Critical(task.sections, Outside))
    case (AskState, Critical(n, _)) =>
      WithPhase(s, t, Critical(n, Waiting)).(stateQueue := s.stateQueue + [t])
    case (GetState, Critical(n, _)) => WithPhase(s, t, Critical(n, Inside))
    case (PutState, Critical(n, _)) =>
      WithPhase(s, t, Critical(n - 1, Outside)).(stateQueue := s.stateQueue[1..])
    case (Leave, Critical(_, _)) => WithPhase(s, t, Releasing(|task.plan|))
    case (Put, Releasing(left)) =>
      WithPhase(s, t, Releasing(left - 1)).(locks := Dequeued(s.locks, task.plan[left - 1]))
  }

  /** A new call joins the system; `sections` is how often it takes the state mutex at most. */
  function Submit(s: State, call: Call, sections: nat): State
  {
    s.(tasks := s.tasks + [Task(Plan(call), sections, Acquiring(0, 0))])
  }

  // ----- the invariant

  ghost predicate NoDuplicates(q: seq<TaskId>)
  {
    forall i, j :: 0 <= i < j < |q| ==> q[i] != q[j]
  }

  ghost predicate TasksOk(s: State)
  {
    forall t :: 0 <= t < |s.tasks| ==> TaskOk(s.tasks[t]) && Ascending(s.tasks[t].plan)
  }

  ghost predicate Joins(s: State, t: TaskId, g: BotId)
  {
    t < |s.tasks| && TaskOk(s.tasks[t]) && g in AskedGates(s.tasks[t])
  }

  ghost predicate Holds(s: State, t: TaskId, g: BotId)
  {
    t < |s.tasks| && TaskOk(s.tasks[t]) && g in HeldGates(s.tasks[t])
  }

  /** The queue of a gate lists exactly the tasks that joined it, each once; a holder comes first. */
  ghost predicate QueueOk(s: State, g: BotId)
  {
    && NoDuplicates(Queue(s.locks, g))
    && (forall t: TaskId :: t in Queue(s.locks, g) <==> Joins(s, t, g))
    && (forall t: TaskId :: Holds(s, t, g) ==> [t] <= Queue(s.locks, g))
  }

  ghost predicate QueuesOk(s: State)
  {
    forall g :: QueueOk(s, g)
  }

  ghost predicate UsesState(t: Task)
  {
    t.phase.Critical? && t.phase.use != Outside
  }

  ghost predicate StateQueueOk(s: State)
  {
    && NoDuplicates(s.stateQueue)
    && (forall t: TaskId :: t in s.stateQueue <==> t < |s.tasks| && UsesState(s.tasks[t]))
    && (forall t: TaskId :: t < |s.tasks| && UsesState(s.tasks[t]) ==>
          s.tasks[t].phase.sections > 0 && (s.tasks[t].phase.use == Inside ==> [t] <= s.stateQueue))
  }

  ghost predicate Inv(s: State)
  {
    TasksOk(s) && QueuesOk(s) && StateQueueOk(s)
  }

  /** A new `run` or `runAll` call, or one enabled step of a task. */
  ghost predicate Next(s: State, s': State)
  {
    || (exists call, sections :: s' == Submit(s, call, sections))
    || (exists t: TaskId, a :: Enabled(s, t, a) && s' == Step(s, t, a))
  }

  ghost predicate IsRun(run: seq<State>)
  {
    |run| > 0 && run[0] == State([], map[], []) && forall i :: 0 <= i < |run| - 1 ==> Next(run[i], run[i + 1])
  }

  // ----- preservation, one kind of step at a time

  lemma StepKeepsTasksOk(s: State, t: TaskId, a: Action)
    requires Inv(s) && Enabled(s, t, a)
    ensures TasksOk(Step(s, t, a))
  {
  }

  /** Changing one task's phase changes only what that task joins and holds. */
  lemma OtherTasksUnmoved(s: State, t: TaskId, a: Action, u: TaskId, g: BotId)
    requires Inv(s) && Enabled(s, t, a) && u != t
    ensures Joins(Step(s, t, a), u, g) == Joins(s, u, g)
    ensures Holds(Step(s, t, a), u, g) == Holds(s, u, g)
  {
  }

  lemma AskKeepsQueue(s: State, t: TaskId, h: BotId)
    requires Inv(s) && Enabled(s, t, Ask)
    ensures QueueOk(Step(s, t, Ask), h)
  {
    var s' := Step(s, t, Ask);
    var task, task' := s.tasks[t], s'.tasks[t];
    var k := task.phase.asked;
    var g := task.plan[k];
    forall u: TaskId | u != t ensures Joins(s', u, h) == Joins(s, u, h) && Holds(s', u, h) == Holds(s, u, h) {
      OtherTasksUnmoved(s, t, Ask, u, h);
    }
    assert AskedGates(task') == AskedGates(task) + {g};
    assert HeldGates(task') == HeldGates(task);
    assert QueueOk(s, h);
    if h == g {
      assert g !in AskedGates(task) by {
        if i :| 0 <= i < k && task.plan[i] == g { AscendingDistinct(task.plan, i, k); }
      }
      var q := Queue(s.locks, h);
      assert Queue(s'.locks, h) == q + [t];
      assert !Joins(s, t, h);
      assert t !in q;
    }
  }

  lemma GetKeepsQueue(s: State, t: TaskId, h: BotId)
    requires Inv(s) && Enabled(s, t, Get)
    ensures QueueOk(Step(s, t, Get), h)
  {
    var s' := Step(s, t, Get);
    var task, task' := s.tasks[t], s'.tasks[t];
    forall u: TaskId | u != t ensures Joins(s', u, h) == Joins(s, u, h) && Holds(s', u, h) == Holds(s, u, h) {
      OtherTasksUnmoved(s, t, Get, u, h);
    }
    assert AskedGates(task') == AskedGates(task);
    assert HeldGates(task') == HeldGates(task) + {task.plan[task.phase.got]};
    assert QueueOk(s, h);
  }

  lemma DropHead(q: seq<TaskId>, t: TaskId)
    requires NoDuplicates(q) && [t] <= q
    ensures NoDuplicates(q[1..]) && t !in q[1..]
    ensures forall u :: u in q <==> u == t || u in q[1..]
  {
    assert q == [t] + q[1..];
    forall i | 0 <= i < |q[1..]| ensures q[1..][i] != t {
      assert q[i + 1] != q[0];
    }
    forall i, j | 0 <= i < j < |q[1..]| ensures q[1..][i] != q[1..][j] {
      assert q[i + 1] != q[j + 1];
    }
  }

  lemma PutKeepsQueue(s: State, t: TaskId, h: BotId)
    requires Inv(s) && Enabled(s, t, Put)
    ensures QueueOk(Step(s, t, Put), h)
  {
    var s' := Step(s, t, Put);
    var task, task' := s.tasks[t], s'.tasks[t];
    var k := task.phase.left - 1;
    var g := task.plan[k];
    forall u: TaskId | u != t ensures Joins(s', u, h) == Joins(s, u, h) && Holds(s', u, h) == Holds(s, u, h) {
      OtherTasksUnmoved(s, t, Put, u, h);
    }
    assert AskedGates(task') == AskedGates(task) - {g} by {
      forall i | 0 <= i < k ensures task.plan[i] != g {
        if task.plan[i] == g { AscendingDistinct(task.plan, i, k); }
      }
    }
    assert HeldGates(task') == HeldGates(task) - {g};
    assert QueueOk(s, h);
    if h == g {
      var q := Queue(s.locks, h);
      assert Queue(s'.locks, h) == q[1..];
      DropHead(q, t);
      assert q[0] == t;
      forall u: TaskId ensures !Holds(s', u, h) {
        assert Holds(s, u, h) ==> [u] <= q;
      }
    }
  }

  lemma OtherStepKeepsQueue(s: State, t: TaskId, a: Action, h: BotId)
    requires Inv(s) && Enabled(s, t, a) && a != Ask && a != Get && a != Put
    ensures QueueOk(Step(s, t, a), h)
  {
    var s' := Step(s, t, a);
    forall u: TaskId | u != t ensures Joins(s', u, h) == Joins(s, u, h) && Holds(s', u, h) == Holds(s, u, h) {
      OtherTasksUnmoved(s, t, a, u, h);
    }
    assert AskedGates(s'.tasks[t]) == AskedGates(s.tasks[t]);
    assert HeldGates(s'.tasks[t]) == HeldGates(s.tasks[t]);
    assert QueueOk(s, h);
  }

  lemma StepKeepsStateQueue(s: State, t: TaskId, a: Action)
    requires Inv(s) && Enabled(s, t, a)
    ensures StateQueueOk(Step(s, t, a))
  {
    var s' := Step(s, t, a);
    if a == PutState {
      DropHead(s.stateQueue, t);
    } else {
      assert forall u :: 0 <= u < |s.tasks| && u != t ==> s'.tasks[u] == s.tasks[u];
    }
  }

  lemma StepKeepsInv(s: State, t: TaskId, a: Action)
    requires Inv(s) && Enabled(s, t, a)
    ensures Inv(Step(s, t, a))
  {
    StepKeepsTasksOk(s, t, a);
    forall h ensures QueueOk(Step(s, t, a), h) {
      match a {
        case Ask => AskKeepsQueue(s, t, h);
        case Get => GetKeepsQueue(s, t, h);
        case Put => PutKeepsQueue(s, t, h);
        case _ => OtherStepKeepsQueue(s, t, a, h);
      }
    }
    StepKeepsStateQueue(s, t, a);
  }

  lemma NextKeepsInv(s: State, s': State)
    requires Inv(s) && Next(s, s')
    ensures Inv(s')
  {
    if call, sections :| s' == Submit(s, call, sections) {
      forall g ensures QueueOk(s', g) {
        assert QueueOk(s, g);
        forall t: TaskId ensures Joins(s', t, g) == Joins(s, t, g) && Holds(s', t, g) == Holds(s, t, g) {}
      }
    } else {
      var t: TaskId, a :| Enabled(s, t, a) && s' == Step(s, t, a);
      StepKeepsInv(s, t, a);
    }
  }

  lemma {:induction false} RunInv(run: seq<State>, i: nat)
    requires IsRun(run) && i < |run|
    ensures Inv(run[i])
  {
    if i > 0 {
      RunInv(run, i - 1);
      NextKeepsInv(run[i - 1], run[i]);
    }
  }

  // ----- exclusion

  /** In every reachable state no two tasks hold overlapping gate sets. */
  lemma HeldGatesDisjoint(run: seq<State>, i: nat, t: TaskId, u: TaskId)
    requires IsRun(run) && i < |run|
    requires t < |run[i].tasks| && u < |run[i].tasks| && t != u
    ensures TaskOk(run[i].tasks[t]) && TaskOk(run[i].tasks[u])
    ensures HeldGates(run[i].tasks[t]) !! HeldGates(run[i].tasks[u])
  {
    RunInv(run, i);
    var s := run[i];
    forall g | g in HeldGates(s.tasks[t]) ensures g !in HeldGates(s.tasks[u]) {
      assert QueueOk(s, g) && Holds(s, t, g);
      assert Queue(s.locks, g)[0] == t;
      assert Holds(s, u, g) ==> [u] <= Queue(s.locks, g);
    }
  }

  // ----- deadlock freedom

  predicate Finished(t: Task)
  {
    t.phase == Releasing(0)
  }

  ghost predicate CanStep(s: State, t: TaskId)
  {
    exists a :: Enabled(s, t, a)
  }

  /** The gates any task plans to take. */
  ghost function AllGates(s: State): set<BotId>
  {
    set t, i | 0 <= t < |s.tasks| && 0 <= i < |s.tasks[t].plan| :: s.tasks[t].plan[i]
  }

  ghost function Above(s: State, g: BotId): set<BotId>
  {
    set h | h in AllGates(s) && Less(g, h)
  }

  /** A task that is not waiting for a mutex can step, or the state mutex holder can. */
  lemma StateHolderSteps(s: State, t: TaskId) returns (r: TaskId)
    requires Inv(s) && t < |s.tasks| && s.tasks[t].phase.Critical?
    ensures CanStep(s, r)
  {
    match s.tasks[t].phase.use {
      case Outside =>
        r := t;
        assert Enabled(s, r, Leave);
      case _ =>
        assert t in s.stateQueue;
        r := s.stateQueue[0];
        assert r in s.stateQueue && UsesState(s.tasks[r]);
        assert Enabled(s, r, if s.tasks[r].phase.use == Inside then PutState else GetState);
    }
  }

  /** Every unfinished task leads, along strictly rising gates, to one that can step. */
  lemma {:induction false} SomeTaskSteps(s: State, t: TaskId) returns (r: TaskId)
    requires Inv(s) && t < |s.tasks| && !Finished(s.tasks[t])
    ensures CanStep(s, r)
    decreases if s.tasks[t].phase.Acquiring? && s.tasks[t].phase.asked > s.tasks[t].phase.got
              then |Above(s, s.tasks[t].plan[s.tasks[t].phase.got])| + 1 else |AllGates(s)| + 2
  {
    var task := s.tasks[t];
    match task.phase {
      case Critical(_, _) =>
        r := StateHolderSteps(s, t);
      case Releasing(left) =>
        r := t;
        assert QueueOk(s, task.plan[left - 1]) && Holds(s, t, task.plan[left - 1]);
        assert Enabled(s, r, Put);
      case Acquiring(asked, got) =>
        if asked == got {
          r := t;
          assert Enabled(s, r, if got == |task.plan| then Enter else Ask);
        } else {
          r := WaiterLeadsOn(s, t);
        }
    }
  }

  lemma {:induction false} WaiterLeadsOn(s: State, t: TaskId) returns (r: TaskId)
    requires Inv(s) && t < |s.tasks|
    requires s.tasks[t].phase.Acquiring? && s.tasks[t].phase.asked == s.tasks[t].phase.got + 1
    ensures CanStep(s, r)
    decreases |Above(s, s.tasks[t].plan[s.tasks[t].phase.got])| + 1, 0
  {
    var got := s.tasks[t].phase.got;
    var g := s.tasks[t].plan[got];
    assert QueueOk(s, g) && Joins(s, t, g);
    var q := Queue(s.locks, g);
    assert t in q;
    var h: TaskId := q[0];
    assert h in q && Joins(s, h, g);
    var holder := s.tasks[h];
    var j :| 0 <= j < AskedCount(holder) && holder.plan[j] == g;
    match holder.phase {
      case Critical(_, _) =>
        r := StateHolderSteps(s, h);
      case Releasing(left) =>
        r := h;
        assert QueueOk(s, holder.plan[left - 1]) && Holds(s, h, holder.plan[left - 1]);
        assert Enabled(s, r, Put);
      case Acquiring(asked, hgot) =>
        if asked == hgot {
          r := h;
          assert Enabled(s, r, if hgot == |holder.plan| then Enter else Ask);
        } else if j == hgot {
          r := h;
          assert [h] <= q;
          assert Enabled(s, r, Get);
        } else {
          var g' := holder.plan[hgot];
          assert Less(g, g');
          assert Above(s, g') < Above(s, g) by {
            assert g' in AllGates(s) && g' in Above(s, g);
            Irreflexive(g');
            forall x | x in Above(s, g') ensures x in Above(s, g) { Transitive(g, g', x); }
          }
          SmallerSet(Above(s, g'), Above(s, g));
          r := WaiterLeadsOn(s, h);
        }
    }
  }

  lemma {:induction false} SmallerSet<T>(a: set<T>, b: set<T>)
    requires a < b
    ensures |a| < |b|
  {
    assert b == a + (b - a);
    assert b - a != {};
  }

  /** Deadlock freedom: while some task is unfinished, some task can step. */
  lemma DeadlockFree(run: seq<State>, i: nat)
    requires IsRun(run) && i < |run|
    requires !AllFinished(run[i])
    ensures !Stuck(run[i])
  {
    RunInv(run, i);
    var t: TaskId :| t < |run[i].tasks| && !Finished(run[i].tasks[t]);
    var r := SomeTaskSteps(run[i], t);
  }

  // ----- every call ends

  /** The steps of the current state section that are behind. */
  function Passed(use: StateUse, n: nat): nat
  {
    match use
    case Outside => 0
    case Waiting => if n > 0 then 1 else 0
    case Inside => if n > 0 then 2 else 0
  }

  /** What one task still has to do: three steps a gate, three a state section, and two in between. */
  function TaskWork(t: Task): nat
    requires TaskOk(t)
  {
    match t.phase
    case Acquiring(asked, got) => (|t.plan| - asked) + (|t.plan| - got) + |t.plan| + 3 * t.sections + 2
    case Critical(n, use) => |t.plan| + 1 + 3 * n - Passed(use, n)
    case Releasing(left) => left
  }

  ghost predicate AllOk(tasks: seq<Task>)
  {
    forall i :: 0 <= i < |tasks| ==> TaskOk(tasks[i])
  }

  ghost function Work(tasks: seq<Task>): nat
    requires AllOk(tasks)
  {
    if tasks == [] then 0 else TaskWork(tasks[0]) + Work(tasks[1..])
  }

  lemma {:induction false} WorkUpdate(tasks: seq<Task>, i: nat, t: Task)
    requires AllOk(tasks)
    requires i < |tasks| && TaskOk(t)
    ensures AllOk(tasks[i := t])
    ensures Work(tasks[i := t]) == Work(tasks) - TaskWork(tasks[i]) + TaskWork(t)
  {
    if i == 0 {
      assert tasks[i := t] == [t] + tasks[1..];
    } else {
      WorkUpdate(tasks[1..], i - 1, t);
      assert tasks[i := t] == [tasks[0]] + tasks[1..][i - 1 := t];
    }
  }

  /** Every step lowers the total work by exactly one, save an early leave, which lowers it at least by one. */
  lemma StepLowersWork(s: State, t: TaskId, a: Action)
    requires Inv(s) && Enabled(s, t, a)
    ensures Inv(Step(s, t, a))
    ensures Work(Step(s, t, a).tasks) < Work(s.tasks)
  {
    StepKeepsInv(s, t, a);
    WorkUpdate(s.tasks, t, Step(s, t, a).tasks[t]);
  }

  /** A run without new calls, from a state that satisfies the invariant. */
  ghost predicate ClosedRun(run: seq<State>)
  {
    |run| > 0 && Inv(run[0]) &&
    forall i :: 0 <= i < |run| - 1 ==> exists t: TaskId, a :: Enabled(run[i], t, a) && run[i + 1] == Step(run[i], t, a)
  }

  lemma {:induction false} ClosedRunWork(run: seq<State>, i: nat)
    requires ClosedRun(run) && i < |run|
    ensures Inv(run[i]) && Work(run[i].tasks) + i <= Work(run[0].tasks)
  {
    if i > 0 {
      ClosedRunWork(run, i - 1);
      var t: TaskId, a :| Enabled(run[i - 1], t, a) && run[i] == Step(run[i - 1], t, a);
      StepLowersWork(run[i - 1], t, a);
    }
  }

  ghost predicate Stuck(s: State)
  {
    forall r: TaskId :: !CanStep(s, r)
  }

  ghost predicate AllFinished(s: State)
  {
    forall t :: 0 <= t < |s.tasks| ==> Finished(s.tasks[t])
  }

  /** Without new calls a run is bounded, and where it cannot go on every call has finished. */
  lemma EveryCallEnds(run: seq<State>)
    requires ClosedRun(run)
    ensures |run| <= Work(run[0].tasks) + 1
    ensures Stuck(run[|run| - 1]) ==> AllFinished(run[|run| - 1])
  {
    ClosedRunWork(run, |run| - 1);
    var s := run[|run| - 1];
    if t: TaskId :| t < |s.tasks| && !Finished(s.tasks[t]) {
      var r := SomeTaskSteps(s, t);
    }
  }

  // ----- whose turn it is

  /** `t` waits for gate `g` and its turn has come. */
  predicate MayEnter(s: State, t: TaskId, g: BotId)
  {
    Enabled(s, t, Get) && s.tasks[t].plan[s.tasks[t].phase.got] == g
  }

  /** A task that joined a gate and does not hold it is waiting for that very gate. */
  lemma JoinedWaits(s: State, t: TaskId, g: BotId)
    requires Inv(s) && Joins(s, t, g) && !Holds(s, t, g)
    ensures s.tasks[t].phase.Acquiring?
    ensures var got := s.tasks[t].phase.got; s.tasks[t].phase.asked == got + 1 && s.tasks[t].plan[got] == g
  {
    var task := s.tasks[t];
    forall k | 0 <= k < HeldCount(task) ensures task.plan[k] != g {
      assert task.plan[k] in HeldGates(task);
    }
    var i :| 0 <= i < AskedCount(task) && task.plan[i] == g;
  }

  /** At a gate that nobody holds exactly the first in line may enter. */
  lemma FirstInLineEnters(s: State, g: BotId, u: TaskId)
    requires Inv(s) && forall t: TaskId :: !Holds(s, t, g)
    ensures MayEnter(s, u, g) <==> [u] <= Queue(s.locks, g)
  {
    assert QueueOk(s, g);
    var q := Queue(s.locks, g);
    if [u] <= q {
      assert u == q[0] && q[0] in q;
      JoinedWaits(s, u, g);
    }
  }

  /** After a `Put` nobody holds its gate. */
  lemma PutFrees(s: State, t: TaskId, u: TaskId)
    requires Inv(s) && Enabled(s, t, Put)
    ensures !Holds(Step(s, t, Put), u, s.tasks[t].plan[s.tasks[t].phase.left - 1])
  {
    var s' := Step(s, t, Put);
    var task := s.tasks[t];
    var k := task.phase.left - 1;
    var g := task.plan[k];
    assert QueueOk(s, g);
    if u == t {
      if i :| 0 <= i < k && task.plan[i] == g { AscendingDistinct(task.plan, i, k); }
    } else {
      OtherTasksUnmoved(s, t, Put, u, g);
      var q := Queue(s.locks, g);
      assert q[0] == t;
      assert Holds(s, u, g) ==> [u] <= q;
    }
  }

  /** A call that asks for a gate may enter at once exactly when its queue was empty. */
  lemma AskEntersExactly(s: State, t: TaskId)
    requires Inv(s) && Enabled(s, t, Ask)
    ensures var g := s.tasks[t].plan[s.tasks[t].phase.asked];
      MayEnter(Step(s, t, Ask), t, g) <==> Queue(s.locks, g) == []
  {
    var task := s.tasks[t];
    var k := task.phase.asked;
    var g := task.plan[k];
    assert g !in AskedGates(task) by {
      if i :| 0 <= i < k && task.plan[i] == g { AscendingDistinct(task.plan, i, k); }
    }
    var q := Queue(s.locks, g);
    assert QueueOk(s, g) && !Joins(s, t, g) && t !in q;
    var s' := Step(s, t, Ask);
    assert Queue(s'.locks, g) == q + [t] && s'.tasks[t] == task.(phase := Acquiring(k + 1, k));
    assert [t] <= q + [t] <==> q == [] by {
      if q != [] { assert (q + [t])[0] == q[0] && q[0] in q; }
    }
  }

  // ----- the object

  /** The map of mutexes that the gate object fills in place, as part of the system of calls. */
  class BotLifecycleGate {
    var locks: map<BotId, seq<TaskId>>
    ghost var system: State

    ghost predicate Valid()
      reads this
    {
      locks == system.locks && Inv(system)
    }

    constructor ()
      ensures Valid() && system == State([], map[], [])
    {
      locks, system := map[], State([], map[], []);
      new;
      RunInv([system], 0);
    }

    /** The synchronous part of `mutex.run`: find or create the mutex, join its tail. */
    method Join(botId: BotId, task: TaskId) returns (first: bool)
      requires Valid() && Enabled(system, task, Ask)
      requires botId == system.tasks[task].plan[system.tasks[task].phase.asked]
      modifies this
      ensures Valid() && system == Step(old(system), task, Ask)
      ensures first <==> MayEnter(system, task, botId)
      ensures forall g :: g != botId ==> Queue(locks, g) == Queue(old(locks), g)
    {
      StepKeepsInv(system, task, Ask);
      AskEntersExactly(system, task);
      if botId !in locks {
        locks := locks[botId := []];
      }
      first := locks[botId] == [];
      locks := locks[botId := locks[botId] + [task]];
      system := Step(system, task, Ask);
    }

    /**
     The `finally` of `mutex.run`: the turn passes. Of all tasks exactly `next`
     may enter the gate now, and no other gate is touched.
     */
    method Release(botId: BotId, task: TaskId) returns (next: Option<TaskId>)
      requires Valid() && Enabled(system, task, Put)
      requires botId == system.tasks[task].plan[system.tasks[task].phase.left - 1]
      modifies this
      ensures Valid() && system == Step(old(system), task, Put)
      ensures forall u: TaskId :: MayEnter(system, u, botId) <==> next == Some(u)
      ensures forall u: TaskId :: !Holds(system, u, botId)
      ensures forall g :: g != botId ==> Queue(locks, g) == Queue(old(locks), g)
    {
      ghost var before := system;
      StepKeepsInv(system, task, Put);
      locks := locks[botId := locks[botId][1..]];
      system := Step(system, task, Put);
      next := if locks[botId] == [] then None else Some(locks[botId][0]);
      forall u: TaskId ensures !Holds(system, u, botId) {
        PutFrees(before, task, u);
      }
      forall u: TaskId ensures MayEnter(system, u, botId) <==> next == Some(u) {
        FirstInLineEnters(system, botId, u);
      }
    }
  }
}
