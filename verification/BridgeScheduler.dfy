/**
 Per-session request lanes (bridge-request-scheduler.ts).

 A call of `run` joins the tail of its lane on the session's state object; a
 task starts once the task before it on that tail ended, ends once, and is then
 cleaned up, which can delete the session's entry. `states` numbers every state
 object ever made, so object identity is equality of numbers.
 */
module BridgeScheduler {
  import opened Common

  datatype Lane = Normal | Message

  datatype Phase = Waiting | Running | Ended(ok: bool) | Released

  /** `after` is the task whose end the tail was waiting for when this one joined. */
  datatype Task = Task(owner: nat, lane: Lane, after: Option<nat>, phase: Phase)

  datatype SessionState = SessionState(
    name: string, pendingNormals: nat, pendingMessages: nat, normalTail: Option<nat>, messageTail: Option<nat>)

  datatype State = State(sessions: map<string, nat>, states: seq<SessionState>, tasks: seq<Task>)

  function Tail(o: SessionState, lane: Lane): Option<nat>
  {
    if lane == Message then o.messageTail else o.normalTail
  }

  function Pending(o: SessionState, lane: Lane): nat
  {
    if lane == Message then o.pendingMessages else o.pendingNormals
  }

  function Submitted(o: SessionState, lane: Lane, t: nat): SessionState
  {
    if lane == Message then o.(pendingMessages := o.pendingMessages + 1, messageTail := Some(t))
    else o.(pendingNormals := o.pendingNormals + 1, normalTail := Some(t))
  }

  function Cleaned(o: SessionState, lane: Lane): SessionState
    requires Pending(o, lane) > 0
  {
    if lane == Message then o.(pendingMessages := o.pendingMessages - 1)
    else o.(pendingNormals := o.pendingNormals - 1)
  }

  // ----- steps

  /** The synchronous part of `run` on the normal or the message lane. */
  function Submit(s: State, name: string, lane: Lane): State
    requires name in s.sessions ==> s.sessions[name] < |s.states|
  {
    var s1 := if name in s.sessions then s
              else s.(sessions := s.sessions[name := |s.states|],
                      states := s.states + [SessionState(name, 0, 0, None, None)]);
    var k := s1.sessions[name];
    var o := s1.states[k];
    var t := |s.tasks|;
    s1.(states := s1.states[k := Submitted(o, lane, t)],
        tasks := s1.tasks + [Task(k, lane, Tail(o, lane), Waiting)])
  }

  predicate HasEnded(s: State, t: nat)
  {
    t < |s.tasks| && (s.tasks[t].phase.Ended? || s.tasks[t].phase.Released?)
  }

  predicate HasStarted(s: State, t: nat)
  {
    t < |s.tasks| && !s.tasks[t].phase.Waiting?
  }

  predicate CanStart(s: State, t: nat)
  {
    t < |s.tasks| && s.tasks[t].phase.Waiting? && (s.tasks[t].after.Some? ==> HasEnded(s, s.tasks[t].after.value))
  }

  function SetPhase(s: State, t: nat, phase: Phase): State
    requires t < |s.tasks|
  {
    s.(tasks := s.tasks[t := s.tasks[t].(phase := phase)])
  }

  predicate CanClean(s: State, t: nat)
  {
    t < |s.tasks| && s.tasks[t].phase.Ended? && s.tasks[t].owner < |s.states|
    && Pending(s.states[s.tasks[t].owner], s.tasks[t].lane) > 0
  }

  /** The `finally` handler: count down, and drop the entry if it is this object and it is idle. */
  function Clean(s: State, t: nat): State
    requires CanClean(s, t)
  {
    var k := s.tasks[t].owner;
    var o := Cleaned(s.states[k], s.tasks[t].lane);
    var s1 := SetPhase(s, t, Released).(states := s.states[k := o]);
    if o.pendingNormals == 0 && o.pendingMessages == 0 && o.name in s.sessions && s.sessions[o.name] == k
    then s1.(sessions := s.sessions - {o.name})
    else s1
  }

  ghost predicate Next(s: State, s': State)
  {
    || (exists name, lane :: (name in s.sessions ==> s.sessions[name] < |s.states|) && s' == Submit(s, name, lane))
    || (exists t: nat :: CanStart(s, t) && s' == SetPhase(s, t, Running))
    || (exists t: nat, ok :: t < |s.tasks| && s.tasks[t].phase.Running? && s' == SetPhase(s, t, Ended(ok)))
    || (exists t: nat :: CanClean(s, t) && s' == Clean(s, t))
  }

  const Initial := State(map[], [], [])

  ghost predicate IsRun(run: seq<State>)
  {
    |run| > 0 && run[0] == Initial && forall i :: 0 <= i < |run| - 1 ==> Next(run[i], run[i + 1])
  }

  // ----- the invariant

  /** The tasks of one lane of one object that were not cleaned up. */
  ghost function Unreleased(s: State, k: nat, lane: Lane): set<nat>
  {
    set t: nat | t < |s.tasks| && s.tasks[t].owner == k && s.tasks[t].lane == lane && !s.tasks[t].phase.Released?
  }

  predicate OnLane(s: State, t: nat, k: nat, lane: Lane)
  {
    t < |s.tasks| && s.tasks[t].owner == k && s.tasks[t].lane == lane
  }

  /** `last` is the latest task before `limit` on this lane of this object, if any. */
  ghost predicate IsLatest(s: State, last: Option<nat>, limit: nat, k: nat, lane: Lane)
  {
    match last
    case None => forall u: nat :: u < limit ==> !OnLane(s, u, k, lane)
    case Some(p) => p < limit && OnLane(s, p, k, lane) && forall u: nat :: p < u < limit ==> !OnLane(s, u, k, lane)
  }

  ghost predicate ObjectOk(s: State, k: nat)
    requires k < |s.states|
  {
    && s.states[k].pendingNormals == |Unreleased(s, k, Normal)|
    && s.states[k].pendingMessages == |Unreleased(s, k, Message)|
    && IsLatest(s, s.states[k].normalTail, |s.tasks|, k, Normal)
    && IsLatest(s, s.states[k].messageTail, |s.tasks|, k, Message)
  }

  ghost predicate Idle(s: State, k: nat)
  {
    Unreleased(s, k, Normal) == {} && Unreleased(s, k, Message) == {}
  }

  /** An object has work exactly while it is the entry of its session. */
  ghost predicate EntryOk(s: State, k: nat)
    requires k < |s.states|
  {
    !Idle(s, k) <==> (s.states[k].name in s.sessions && s.sessions[s.states[k].name] == k)
  }

  ghost predicate TaskOk(s: State, t: nat)
    requires t < |s.tasks|
  {
    && s.tasks[t].owner < |s.states|
    && IsLatest(s, s.tasks[t].after, t, s.tasks[t].owner, s.tasks[t].lane)
    && (HasStarted(s, t) && s.tasks[t].after.Some? ==> HasEnded(s, s.tasks[t].after.value))
  }

  ghost predicate SameSession(s: State, t: nat, u: nat)
  {
    && t < |s.tasks| && u < |s.tasks|
    && s.tasks[t].owner < |s.states| && s.tasks[u].owner < |s.states|
    && s.states[s.tasks[t].owner].name == s.states[s.tasks[u].owner].name
  }

  ghost predicate Inv(s: State)
  {
    && (forall name :: name in s.sessions ==> s.sessions[name] < |s.states| && s.states[s.sessions[name]].name == name)
    && (forall k: nat :: k < |s.states| && s.states[k].name in s.sessions ==> k <= s.sessions[s.states[k].name])
    && (forall k: nat :: k < |s.states| ==> ObjectOk(s, k))
    && (forall k: nat :: k < |s.states| ==> EntryOk(s, k))
    && (forall t: nat :: t < |s.tasks| ==> TaskOk(s, t))
    && (forall t: nat, u: nat :: t < u < |s.tasks| && SameSession(s, t, u) ==> s.tasks[t].owner <= s.tasks[u].owner)
  }

  // ----- preservation

  /** A phase change short of `Released` leaves every object, tail and entry as it was. */
  lemma PhaseKeepsInv(s: State, t: nat, phase: Phase)
    requires Inv(s) && t < |s.tasks| && !s.tasks[t].phase.Released? && !phase.Released?
    requires !phase.Waiting? && (HasEnded(s, t) ==> phase.Ended?)
    requires s.tasks[t].after.Some? ==> HasEnded(s, s.tasks[t].after.value)
    ensures Inv(SetPhase(s, t, phase))
  {
    var s' := SetPhase(s, t, phase);
    forall k: nat, lane ensures Unreleased(s', k, lane) == Unreleased(s, k, lane) {}
    forall last, limit: nat, k: nat, lane | IsLatest(s, last, limit, k, lane)
      ensures IsLatest(s', last, limit, k, lane)
    {
      assert forall u: nat :: OnLane(s', u, k, lane) == OnLane(s, u, k, lane);
    }
    forall k: nat | k < |s'.states| ensures ObjectOk(s', k) && EntryOk(s', k) {
      assert ObjectOk(s, k) && EntryOk(s, k);
    }
    forall u: nat | u < |s'.tasks| ensures TaskOk(s', u) {
      assert TaskOk(s, u);
    }
    forall u: nat, v: nat | u < v < |s'.tasks| && SameSession(s', u, v)
      ensures s'.tasks[u].owner <= s'.tasks[v].owner
    {
      assert SameSession(s, u, v);
    }
  }

  /** A submission adds its task to one lane of one object, which may be new. */
  lemma SubmitUnreleased(s: State, name: string, lane: Lane, k: nat, l: Lane)
    requires Inv(s)
    ensures var s' := Submit(s, name, lane);
      Unreleased(s', k, l) ==
        Unreleased(s, k, l) + if k == s'.sessions[name] && l == lane then {|s.tasks|} else {}
    ensures |s.tasks| !in Unreleased(s, k, l)
    ensures k >= |s.states| ==> Unreleased(s, k, l) == {}
  {
    forall u: nat | u < |s.tasks| ensures s.tasks[u].owner < |s.states| { assert TaskOk(s, u); }
  }

  lemma SubmitLatest(s: State, name: string, lane: Lane, k: nat, l: Lane)
    requires Inv(s) && k < |Submit(s, name, lane).states|
    ensures var s' := Submit(s, name, lane); IsLatest(s', Tail(s'.states[k], l), |s'.tasks|, k, l)
  {
    var s' := Submit(s, name, lane);
    var t := |s.tasks|;
    forall u: nat | u < t ensures OnLane(s', u, k, l) == OnLane(s, u, k, l) && s.tasks[u].owner < |s.states| {
      assert TaskOk(s, u);
    }
    assert OnLane(s', t, k, l) <==> k == s'.sessions[name] && l == lane;
    if k < |s.states| {
      assert ObjectOk(s, k);
      assert IsLatest(s, Tail(s.states[k], l), t, k, l);
    }
  }

  lemma SubmitKeepsObject(s: State, name: string, lane: Lane, k: nat)
    requires Inv(s) && k < |Submit(s, name, lane).states|
    ensures ObjectOk(Submit(s, name, lane), k)
  {
    SubmitUnreleased(s, name, lane, k, Normal);
    SubmitUnreleased(s, name, lane, k, Message);
    SubmitLatest(s, name, lane, k, Normal);
    SubmitLatest(s, name, lane, k, Message);
    if k < |s.states| {
      assert ObjectOk(s, k);
    }
  }

  lemma SubmitKeepsEntry(s: State, name: string, lane: Lane, k: nat)
    requires Inv(s) && k < |Submit(s, name, lane).states|
    ensures EntryOk(Submit(s, name, lane), k)
  {
    var s' := Submit(s, name, lane);
    SubmitUnreleased(s, name, lane, k, Normal);
    SubmitUnreleased(s, name, lane, k, Message);
    if k < |s.states| {
      assert EntryOk(s, k) && s'.states[k].name == s.states[k].name;
    }
    if k == s'.sessions[name] {
      assert |s.tasks| in Unreleased(s', k, lane);
    }
  }

  lemma SubmitKeepsInv(s: State, name: string, lane: Lane)
    requires Inv(s)
    ensures Inv(Submit(s, name, lane))
  {
    var s' := Submit(s, name, lane);
    var target := s'.sessions[name];
    var t := |s.tasks|;
    forall k: nat | k < |s'.states| ensures ObjectOk(s', k) && EntryOk(s', k) {
      SubmitKeepsObject(s, name, lane, k);
      SubmitKeepsEntry(s, name, lane, k);
    }
    forall u: nat | u < |s'.tasks| ensures TaskOk(s', u) {
      if u < t {
        assert TaskOk(s, u);
        var k, l := s.tasks[u].owner, s.tasks[u].lane;
        forall v: nat | v < u ensures OnLane(s', v, k, l) == OnLane(s, v, k, l) {}
      } else {
        SubmitAfterLatest(s, name, lane);
      }
    }
    forall u: nat, v: nat | u < v < |s'.tasks| && SameSession(s', u, v)
      ensures s'.tasks[u].owner <= s'.tasks[v].owner
    {
      assert TaskOk(s, u);
      if v < t {
        assert TaskOk(s, v);
        assert SameSession(s, u, v);
      }
    }
  }

  lemma SubmitAfterLatest(s: State, name: string, lane: Lane)
    requires Inv(s)
    ensures TaskOk(Submit(s, name, lane), |s.tasks|)
  {
    var s' := Submit(s, name, lane);
    var t := |s.tasks|;
    var k := s'.tasks[t].owner;
    forall u: nat | u < t ensures OnLane(s', u, k, lane) == OnLane(s, u, k, lane) {}
    if k < |s.states| {
      assert ObjectOk(s, k);
    } else {
      forall u: nat | u < t ensures !OnLane(s, u, k, lane) { assert TaskOk(s, u); }
    }
  }

  lemma CleanUnreleased(s: State, t: nat, k: nat, l: Lane)
    requires Inv(s) && CanClean(s, t)
    ensures Unreleased(Clean(s, t), k, l) ==
      Unreleased(s, k, l) - if k == s.tasks[t].owner && l == s.tasks[t].lane then {t} else {}
    ensures t in Unreleased(s, s.tasks[t].owner, s.tasks[t].lane)
  {
  }

  lemma CleanKeepsObject(s: State, t: nat, k: nat)
    requires Inv(s) && CanClean(s, t) && k < |s.states|
    ensures ObjectOk(Clean(s, t), k)
  {
    CleanUnreleased(s, t, k, Normal);
    CleanUnreleased(s, t, k, Message);
    assert ObjectOk(s, k);
    forall l, u: nat ensures OnLane(Clean(s, t), u, k, l) == OnLane(s, u, k, l) {}
  }

  lemma CleanKeepsEntry(s: State, t: nat, k: nat)
    requires Inv(s) && CanClean(s, t) && k < |s.states|
    ensures EntryOk(Clean(s, t), k)
  {
    CleanUnreleased(s, t, k, Normal);
    CleanUnreleased(s, t, k, Message);
    CleanKeepsObject(s, t, k);
    assert EntryOk(s, k) && EntryOk(s, s.tasks[t].owner);
  }

  lemma CleanKeepsInv(s: State, t: nat)
    requires Inv(s) && CanClean(s, t)
    ensures Inv(Clean(s, t))
  {
    var s' := Clean(s, t);
    forall k: nat | k < |s'.states| ensures ObjectOk(s', k) && EntryOk(s', k) {
      CleanKeepsObject(s, t, k);
      CleanKeepsEntry(s, t, k);
    }
    forall u: nat | u < |s'.tasks| ensures TaskOk(s', u) {
      assert TaskOk(s, u);
      forall l, v: nat, k: nat ensures OnLane(s', v, k, l) == OnLane(s, v, k, l) {}
    }
    forall u: nat, v: nat | u < v < |s'.tasks| && SameSession(s', u, v)
      ensures s'.tasks[u].owner <= s'.tasks[v].owner
    {
      assert SameSession(s, u, v);
    }
  }

  lemma NextKeepsInv(s: State, s': State)
    requires Inv(s) && Next(s, s')
    ensures Inv(s')
  {
    if name, lane :| (name in s.sessions ==> s.sessions[name] < |s.states|) && s' == Submit(s, name, lane) {
      SubmitKeepsInv(s, name, lane);
    } else if t: nat :| CanStart(s, t) && s' == SetPhase(s, t, Running) {
      PhaseKeepsInv(s, t, Running);
    } else if t: nat, ok :| t < |s.tasks| && s.tasks[t].phase.Running? && s' == SetPhase(s, t, Ended(ok)) {
      assert TaskOk(s, t);
      PhaseKeepsInv(s, t, Ended(ok));
    } else {
      var t: nat :| CanClean(s, t) && s' == Clean(s, t);
      CleanKeepsInv(s, t);
    }
  }

  lemma {:induction false} RunInv(run: seq<State>, i: nat)
    requires IsRun(run) && i < |run|
    ensures Inv(run[i])
  {
    if i > 0 {
      RunInv(run, i - 1);
      assert Next(run[i - 1], run[i]);
      NextKeepsInv(run[i - 1], run[i]);
    }
  }

  // ----- main results

  /** On one lane of one object a task starts only after every earlier one ended. */
  lemma {:induction false} LaneOrder(s: State, t: nat, u: nat)
    requires Inv(s) && t < u < |s.tasks| && HasStarted(s, u)
    requires s.tasks[t].owner == s.tasks[u].owner && s.tasks[t].lane == s.tasks[u].lane
    ensures HasEnded(s, t)
    decreases u
  {
    assert TaskOk(s, u);
    assert OnLane(s, t, s.tasks[u].owner, s.tasks[u].lane);
    var p := s.tasks[u].after.value;
    if t < p {
      LaneOrder(s, t, p);
    }
  }

  /**
   In every reachable state, the tasks of one session and lane ran one at a time
   in submission order, even where the session's entry was deleted and made anew
   in between.
   */
  lemma SessionLaneOrder(run: seq<State>, i: nat, t: nat, u: nat)
    requires IsRun(run) && i < |run| && t < u < |run[i].tasks|
    requires SameSession(run[i], t, u) && run[i].tasks[t].lane == run[i].tasks[u].lane
    ensures HasStarted(run[i], u) ==> HasEnded(run[i], t)
    ensures !(run[i].tasks[t].phase.Running? && run[i].tasks[u].phase.Running?)
  {
    RunInv(run, i);
    var s := run[i];
    var j, k, lane := s.tasks[t].owner, s.tasks[u].owner, s.tasks[t].lane;
    if HasStarted(s, u) {
      if j == k {
        LaneOrder(s, t, u);
      } else {
        OlderObjectIdle(s, j, k);
        assert t !in Unreleased(s, j, lane);
      }
    }
  }

  /** Once a session has a newer object, the older one has nothing left to run. */
  lemma OlderObjectIdle(s: State, j: nat, k: nat)
    requires Inv(s) && j < k < |s.states| && s.states[j].name == s.states[k].name
    ensures Idle(s, j)
  {
    assert EntryOk(s, j);
  }

  /** The entry of a session exists exactly while some task on it was not cleaned up, and it is that task's object. */
  lemma EntryExistsWhileBusy(run: seq<State>, i: nat, name: string)
    requires IsRun(run) && i < |run|
    ensures name in run[i].sessions <==>
      exists t: nat :: t < |run[i].tasks| && !run[i].tasks[t].phase.Released? &&
        run[i].tasks[t].owner < |run[i].states| && run[i].states[run[i].tasks[t].owner].name == name
  {
    RunInv(run, i);
    var s := run[i];
    if name in s.sessions {
      var k := s.sessions[name];
      assert EntryOk(s, k) && !Idle(s, k);
      var lane := if Unreleased(s, k, Normal) != {} then Normal else Message;
      var t :| t in Unreleased(s, k, lane);
      assert s.states[s.tasks[t].owner].name == name;
    }
    if t: nat :| t < |s.tasks| && !s.tasks[t].phase.Released?
                 && s.tasks[t].owner < |s.states| && s.states[s.tasks[t].owner].name == name {
      var k := s.tasks[t].owner;
      assert t in Unreleased(s, k, s.tasks[t].lane);
      assert EntryOk(s, k);
    }
  }

  /** Whenever a task ends, its clean-up can run, and the identity guard of the deletion holds. */
  lemma GuardAlwaysHolds(run: seq<State>, i: nat, t: nat)
    requires IsRun(run) && i < |run| && t < |run[i].tasks| && run[i].tasks[t].phase.Ended?
    ensures CanClean(run[i], t)
    ensures var s := run[i];
      var k := s.tasks[t].owner;
      s.states[k].name in s.sessions && s.sessions[s.states[k].name] == k
  {
    RunInv(run, i);
    var s := run[i];
    var k := s.tasks[t].owner;
    assert TaskOk(s, t) && ObjectOk(s, k) && EntryOk(s, k);
    assert t in Unreleased(s, k, s.tasks[t].lane);
  }

  predicate Moves(s: State, t: nat)
  {
    t < |s.tasks| && (s.tasks[t].phase.Running? || s.tasks[t].phase.Ended? || CanStart(s, t))
  }

  /** A waiting task leads along its lane to one that runs or can start: no lane ever stalls. */
  lemma {:induction false} LaneMoves(s: State, t: nat) returns (r: nat)
    requires Inv(s) && t < |s.tasks| && s.tasks[t].phase.Waiting?
    ensures r <= t && Moves(s, r) && OnLane(s, r, s.tasks[t].owner, s.tasks[t].lane)
    decreases t
  {
    r := t;
    assert TaskOk(s, t);
    if s.tasks[t].after.Some? && !HasEnded(s, s.tasks[t].after.value) {
      var p := s.tasks[t].after.value;
      r := p;
      if s.tasks[p].phase.Waiting? {
        r := LaneMoves(s, p);
      }
    }
  }

  // ----- the scheduler

  class BridgeRequestScheduler {
    var sessions: map<string, nat>
    var states: seq<SessionState>
    var tasks: seq<Task>

    function Now(): State
      reads this
    {
      State(sessions, states, tasks)
    }

    constructor ()
      ensures Now() == Initial && Inv(Now())
    {
      sessions, states, tasks := map[], [], [];
      new;
      RunInv([Initial], 0);
    }

    /** `run` on the normal or the message lane, up to its return. */
    method Run(name: string, lane: Lane)
      requires Inv(Now())
      modifies this
      ensures Inv(Now()) && Now() == Submit(old(Now()), name, lane)
    {
      SubmitKeepsInv(Now(), name, lane);
      var k: nat;
      if name in sessions {
        k := sessions[name];
      } else {
        k := CreateSessionState(name);
      }
      var state := states[k];
      var t := |tasks|;
      if lane == Message {
        tasks := tasks + [Task(k, lane, state.messageTail, Waiting)];
        state := state.(pendingMessages := state.pendingMessages + 1, messageTail := Some(t));
      } else {
        tasks := tasks + [Task(k, lane, state.normalTail, Waiting)];
        state := state.(pendingNormals := state.pendingNormals + 1, normalTail := Some(t));
      }
      states := states[k := state];
    }

    method CreateSessionState(name: string) returns (k: nat)
      modifies this`sessions, this`states
      ensures k == |old(states)| && sessions == old(sessions)[name := k]
      ensures states == old(states) + [SessionState(name, 0, 0, None, None)]
    {
      k := |states|;
      states := states + [SessionState(name, 0, 0, None, None)];
      sessions := sessions[name := k];
    }

    /** The task's turn comes, or it ends. */
    method Move(t: nat, phase: Phase)
      requires Inv(Now()) && t < |tasks|
      requires (phase.Running? && CanStart(Now(), t)) || (phase.Ended? && tasks[t].phase.Running?)
      modifies this`tasks
      ensures Inv(Now()) && Now() == SetPhase(old(Now()), t, phase)
    {
      assert TaskOk(Now(), t);
      PhaseKeepsInv(Now(), t, phase);
      tasks := tasks[t := tasks[t].(phase := phase)];
    }

    /** The `finally` callback; by `GuardAlwaysHolds` its identity test never fails on an idle object. */
    method Finally(t: nat)
      requires Inv(Now()) && CanClean(Now(), t)
      modifies this
      ensures Inv(Now()) && Now() == Clean(old(Now()), t)
    {
      CleanKeepsInv(Now(), t);
      var k := tasks[t].owner;
      var state := states[k];
      if tasks[t].lane == Message {
        state := state.(pendingMessages := state.pendingMessages - 1);
      } else {
        state := state.(pendingNormals := state.pendingNormals - 1);
      }
      states := states[k := state];
      tasks := tasks[t := tasks[t].(phase := Released)];
      if state.pendingNormals == 0 && state.pendingMessages == 0 {
        if state.name in sessions && sessions[state.name] == k {
          sessions := sessions - {state.name};
        }
      }
    }
  }
}
