/**
 Group membership edits (bot-service.ts, `updateGroup`) against everything that
 runs beside them: other edits, Group creation and deletion, Bot deletion, and
 Bot removal.

 A call is cut at its awaits. Between two awaits it runs as one step:
 the stale probe; the existence check and the request for the computed gates;
 the entry under those gates with the cover check; the read under the state
 mutex; the write that ends it. Gates are the ones of `LifecycleGate`: a
 critical section starts when no other task holds one of its gates.
 */
module GroupMembership {
  import opened Common
  import LifecycleGate

  type BotId = string
  type GroupId = string
  type TaskId = nat

  datatype Group = Group(botIds: seq<BotId>, lead: Option<BotId>, deleting: bool)

  datatype LeadPatch = KeepLead | ClearLead | SetLead(lead: BotId)

  /** `titleOk` and `textOk` stand for the shape checks of the title and the description. */
  datatype Patch = Patch(botIds: Option<seq<BotId>>, lead: LeadPatch, titleOk: bool, textOk: bool)

  datatype Phase =
    | Start
    | Probed(gates: set<BotId>)
    | Queued(gates: set<BotId>)
    | Checked(gates: set<BotId>, seen: Group)
    | Bare(gates: set<BotId>)
    | Writing(gates: set<BotId>, covered: Option<Group>, read: Group, next: Group)
    | Done(committed: bool)

  datatype Task = Task(group: GroupId, patch: Patch, phase: Phase)

  /**
   `named` holds every Group id that was ever created or asked for; a new id is
   random and therefore fresh. `barred` is the set of Bots for which
   `assertAcceptsWork` refuses, `work` the Bots with nonterminal Group work.
   */
  datatype State = State(
    groups: map<GroupId, Group>,
    bots: set<BotId>,
    barred: set<BotId>,
    work: set<(GroupId, BotId)>,
    named: set<GroupId>,
    tasks: seq<Task>,
    mutex: Option<TaskId>)

  // ----- the checks of the source

  function Ids(botIds: seq<BotId>): set<BotId>
  {
    set b | b in botIds
  }

  function LeadIds(lead: Option<BotId>): set<BotId>
  {
    if lead.Some? then {lead.value} else {}
  }

  function Members(g: Group): set<BotId>
  {
    Ids(g.botIds) + LeadIds(g.lead)
  }

  ghost predicate Distinct(s: seq<BotId>)
  {
    forall i, j :: 0 <= i < j < |s| ==> s[i] != s[j]
  }

  ghost predicate MembershipOk(s: State, botIds: seq<BotId>)
  {
    |botIds| >= 2 && Distinct(botIds) && "" !in botIds && forall b :: b in botIds ==> b in s.bots
  }

  predicate LeadOk(lead: Option<BotId>, botIds: seq<BotId>)
  {
    lead.Some? ==> lead.value in botIds
  }

  function PatchedIds(g: Group, p: Patch): seq<BotId>
  {
    if p.botIds.Some? then p.botIds.value else g.botIds
  }

  function PatchedLead(g: Group, p: Patch): Option<BotId>
  {
    match p.lead
    case KeepLead => g.lead
    case ClearLead => None
    case SetLead(lead) => Some(lead)
  }

  function Patched(g: Group, p: Patch): Group
  {
    Group(PatchedIds(g, p), PatchedLead(g, p), g.deleting)
  }

  /** The union the probe computes: old members, previewed members, previewed lead. */
  function ProbeGates(g: Group, p: Patch): set<BotId>
  {
    Ids(g.botIds) + Ids(PatchedIds(g, p)) + LeadIds(PatchedLead(g, p))
  }

  function MustExist(p: Patch): set<BotId>
  {
    (if p.botIds.Some? then Ids(p.botIds.value) else {}) + (if p.lead.SetLead? then {p.lead.lead} else {})
  }

  /** What `runLifecycleAll` really locks: nothing at all when the list names the empty id. */
  function Locked(gates: set<BotId>): set<BotId>
  {
    if "" in gates then {} else gates
  }

  /** `Locked` is the gate set that the lifecycle gate takes for any list of these ids. */
  lemma LockedIsRunAll(botIds: seq<BotId>)
    ensures Locked(Ids(botIds)) == Ids(LifecycleGate.RunAllPlan(botIds))
  {
    LifecycleGate.RunAllHoldsEveryListedGate(botIds);
    assert LifecycleGate.Gates(botIds) == Ids(botIds);
    assert LifecycleGate.Gates(LifecycleGate.RunAllPlan(botIds)) == Ids(LifecycleGate.RunAllPlan(botIds));
  }

  /** The validation under the gates, before the commit. */
  ghost predicate EntryOk(s: State, id: GroupId, live: Group, p: Patch)
  {
    && (p.botIds.Some? ==>
          && MembershipOk(s, p.botIds.value)
          && (forall b :: b in p.botIds.value && b !in live.botIds ==> b !in s.barred)
          && (forall b :: b in live.botIds && b !in p.botIds.value ==> (id, b) !in s.work))
    && LeadOk(PatchedLead(live, p), PatchedIds(live, p))
    && p.titleOk
  }

  /** The validation of `updateGroupInner` under the state mutex. */
  ghost predicate InnerOk(s: State, existing: Group, p: Patch)
  {
    && !existing.deleting
    && (p.botIds.Some? ==> MembershipOk(s, p.botIds.value))
    && LeadOk(PatchedLead(existing, p), PatchedIds(existing, p))
    && p.titleOk && p.textOk
  }

  // ----- steps

  function HeldGates(t: Task): set<BotId>
  {
    match t.phase
    case Checked(gates, _) => Locked(gates)
    case Bare(gates) => Locked(gates)
    case Writing(gates, _, _, _) => Locked(gates)
    case _ => {}
  }

  ghost predicate FreeFor(s: State, t: TaskId, gates: set<BotId>)
  {
    forall u :: 0 <= u < |s.tasks| && u != t ==> HeldGates(s.tasks[u]) !! gates
  }

  ghost predicate GateFree(s: State, b: BotId)
  {
    forall u :: 0 <= u < |s.tasks| ==> b !in HeldGates(s.tasks[u])
  }

  ghost predicate IsMember(s: State, b: BotId)
  {
    exists id :: id in s.groups && b in s.groups[id].botIds
  }

  datatype Action =
    | Call(group: GroupId, patch: Patch)
    | Probe(t: TaskId)
    | CheckExistence(t: TaskId)
    | Enter(t: TaskId)
    | BeginWrite(t: TaskId)
    | EndWrite(t: TaskId)
    | FailWrite(t: TaskId)
    | CreateGroup(id: GroupId, botIds: seq<BotId>, lead: Option<BotId>)
    | DeleteGroup(id: GroupId)
    | MarkDeleting(id: GroupId)
    | CreateBot(bot: BotId)
    | DeleteBot(bot: BotId)
    | BeginRemoval(bot: BotId)
    | DropProfile(bot: BotId)
    | WorkChanges(work: set<(GroupId, BotId)>)

  ghost predicate Enabled(s: State, a: Action)
  {
    match a
    case Call(_, _) => true
    case Probe(t) => t < |s.tasks| && s.tasks[t].phase.Start?
    case CheckExistence(t) => t < |s.tasks| && s.tasks[t].phase.Probed?
    case Enter(t) =>
      t < |s.tasks| && s.tasks[t].phase.Queued? && FreeFor(s, t, Locked(s.tasks[t].phase.gates))
    case BeginWrite(t) =>
      t < |s.tasks| && (s.tasks[t].phase.Checked? || s.tasks[t].phase.Bare?) && s.mutex.None?
    case EndWrite(t) => t < |s.tasks| && s.tasks[t].phase.Writing?
    case FailWrite(t) => t < |s.tasks| && s.tasks[t].phase.Writing?
    case CreateGroup(id, botIds, lead) =>
      s.mutex.None? && id !in s.named && MembershipOk(s, botIds) && LeadOk(lead, botIds)
    case DeleteGroup(id) => s.mutex.None? && id in s.groups
    case MarkDeleting(id) => s.mutex.None? && id in s.groups
    case CreateBot(b) => s.mutex.None? && b != "" && b !in s.bots
    case DeleteBot(b) => s.mutex.None? && GateFree(s, b) && b in s.bots && b !in s.barred && !IsMember(s, b)
    case BeginRemoval(b) => GateFree(s, b) && !IsMember(s, b)
    case DropProfile(b) => s.mutex.None? && b in s.barred
    case WorkChanges(_) => true
  }

  function WithPhase(s: State, t: TaskId, phase: Phase): State
    requires t < |s.tasks|
  {
    s.(tasks := s.tasks[t := s.tasks[t].(phase := phase)])
  }

  ghost function EnterPhase(s: State, id: GroupId, p: Patch, gates: set<BotId>): Phase
  {
    if id !in s.groups then Bare(gates)
    else if !(Members(s.groups[id]) <= gates) then Start
    else if !EntryOk(s, id, s.groups[id], p) then Done(false)
    else Checked(gates, s.groups[id])
  }

  ghost function Apply(s: State, a: Action): State
    requires Enabled(s, a)
  {
    match a
    case Call(id, p) => s.(tasks := s.tasks + [Task(id, p, Start)], named := s.named + {id})
    case Probe(t) =>
      var task := s.tasks[t];
      WithPhase(s, t, if task.group in s.groups then Probed(ProbeGates(s.groups[task.group], task.patch)) else Bare({}))
    case CheckExistence(t) =>
      var task := s.tasks[t];
      WithPhase(s, t, if MustExist(task.patch) <= s.bots then Queued(task.phase.gates) else Done(false))
    case Enter(t) =>
      var task := s.tasks[t];
      WithPhase(s, t, EnterPhase(s, task.group, task.patch, task.phase.gates))
    case BeginWrite(t) =>
      var task := s.tasks[t];
      if task.group !in s.groups || !InnerOk(s, s.groups[task.group], task.patch) then WithPhase(s, t, Done(false))
      else
        var existing := s.groups[task.group];
        var seen := if task.phase.Checked? then Some(task.phase.seen) else None;
        WithPhase(s, t, Writing(task.phase.gates, seen, existing, Patched(existing, task.patch))).(mutex := Some(t))
    case EndWrite(t) =>
      var task := s.tasks[t];
      WithPhase(s, t, Done(true)).(groups := s.groups[task.group := task.phase.next], mutex := None)
    case FailWrite(t) => WithPhase(s, t, Done(false)).(mutex := None)
    case CreateGroup(id, botIds, lead) =>
      s.(groups := s.groups[id := Group(botIds, lead, false)], named := s.named + {id})
    case DeleteGroup(id) => s.(groups := s.groups - {id})
    case MarkDeleting(id) => s.(groups := s.groups[id := s.groups[id].(deleting := true)])
    case CreateBot(b) => s.(bots := s.bots + {b})
    case DeleteBot(b) => s.(bots := s.bots - {b})
    case BeginRemoval(b) => s.(barred := s.barred + {b})
    case DropProfile(b) => s.(bots := s.bots - {b})
    case WorkChanges(work) => s.(work := work)
  }

  const Initial := State(map[], {}, {}, {}, {}, [], None)

  ghost predicate Next(s: State, s': State)
  {
    exists a :: Enabled(s, a) && s' == Apply(s, a)
  }

  ghost predicate IsRun(run: seq<State>)
  {
    && |run| > 0 && run[0] == Initial
    && forall i :: 0 <= i < |run| - 1 ==> Next(run[i], run[i + 1])
  }

  // ----- the invariant

  ghost predicate PastCheck(t: Task)
  {
    t.phase.Checked? || t.phase.Writing?
  }

  predicate SameMembership(a: Group, b: Group)
  {
    a.botIds == b.botIds && a.lead == b.lead
  }

  /** Groups keep at least two non-empty member ids and a lead among them. */
  ghost predicate GroupOk(g: Group)
  {
    |g.botIds| >= 2 && "" !in g.botIds && LeadOk(g.lead, g.botIds)
  }

  ghost predicate PhaseOk(s: State, t: TaskId)
    requires t < |s.tasks|
  {
    var task := s.tasks[t];
    var id := task.group;
    && id in s.named
    && match task.phase
       case Probed(gates) =>
         MustExist(task.patch) <= gates && ("" in gates ==> "" in MustExist(task.patch))
       case Queued(gates) => MustExist(task.patch) <= gates && "" !in gates
       case Bare(gates) => id !in s.groups
       case Checked(gates, seen) =>
         && "" !in gates && GroupOk(seen) && Members(seen) <= gates && Members(Patched(seen, task.patch)) <= gates
         && (id in s.groups ==> SameMembership(s.groups[id], seen))
       case Writing(gates, covered, read, next) =>
         && "" !in gates && s.mutex == Some(t)
         && covered.Some? && SameMembership(covered.value, read)
         && GroupOk(read) && Members(read) <= gates && Members(next) <= gates
         && next == Patched(read, task.patch) && GroupOk(next)
         && id in s.groups && s.groups[id] == read
       case _ => true
  }

  ghost predicate Inv(s: State)
  {
    && "" !in s.bots
    && (forall id :: id in s.groups ==> id in s.named && GroupOk(s.groups[id]))
    && (forall t: TaskId :: t < |s.tasks| ==> PhaseOk(s, t))
    && (forall t: TaskId, u: TaskId :: t < |s.tasks| && u < |s.tasks| && t != u ==>
          HeldGates(s.tasks[t]) !! HeldGates(s.tasks[u]))
    && (forall t: TaskId, u: TaskId ::
          (t < |s.tasks| && u < |s.tasks| && PastCheck(s.tasks[t]) && PastCheck(s.tasks[u]) &&
           s.tasks[t].group == s.tasks[u].group) ==> t == u)
    && (s.mutex.Some? ==> s.mutex.value < |s.tasks| && s.tasks[s.mutex.value].phase.Writing?)
  }

  // ----- preservation

  /** What is left to show when only task `t` changes phase and the Groups stay. */
  lemma MovedTaskKeepsInv(s: State, s': State, t: TaskId)
    requires Inv(s) && t < |s.tasks| == |s'.tasks|
    requires s' == WithPhase(s, t, s'.tasks[t].phase).(mutex := s'.mutex)
    requires PhaseOk(s', t)
    requires forall u: TaskId :: u < |s.tasks| && u != t && s.tasks[u].phase.Writing? ==> s'.mutex == s.mutex
    requires HeldGates(s'.tasks[t]) <= HeldGates(s.tasks[t]) || FreeFor(s, t, HeldGates(s'.tasks[t]))
    requires PastCheck(s'.tasks[t]) && !PastCheck(s.tasks[t]) ==>
      forall u :: 0 <= u < |s.tasks| && u != t && s.tasks[u].group == s.tasks[t].group ==> !PastCheck(s.tasks[u])
    requires s'.mutex.Some? ==> s'.mutex.value < |s'.tasks| && s'.tasks[s'.mutex.value].phase.Writing?
    ensures Inv(s')
  {
    forall u: TaskId | u < |s'.tasks| ensures PhaseOk(s', u) {
      if u != t {
        assert PhaseOk(s, u);
      }
    }
    assert forall u :: 0 <= u < |s.tasks| && u != t ==> s'.tasks[u] == s.tasks[u];
  }

  lemma EnterKeepsInv(s: State, t: TaskId)
    requires Inv(s) && Enabled(s, Enter(t))
    ensures Inv(Apply(s, Enter(t)))
  {
    var s' := Apply(s, Enter(t));
    var task := s.tasks[t];
    assert PhaseOk(s, t);
    if s'.tasks[t].phase.Checked? {
      var live := s.groups[task.group];
      var b := live.botIds[0];
      assert b in Members(live);
      forall u: TaskId | u < |s.tasks| && u != t && s.tasks[u].group == task.group ensures !PastCheck(s.tasks[u]) {
        assert PhaseOk(s, u);
        assert HeldGates(s.tasks[u]) !! task.phase.gates;
        assert b in task.phase.gates;
      }
    }
    MovedTaskKeepsInv(s, s', t);
  }

  lemma BeginWriteKeepsInv(s: State, t: TaskId)
    requires Inv(s) && Enabled(s, BeginWrite(t))
    ensures Inv(Apply(s, BeginWrite(t)))
  {
    var s' := Apply(s, BeginWrite(t));
    assert PhaseOk(s, t);
    forall u: TaskId | u < |s.tasks| ensures !s.tasks[u].phase.Writing? {
      assert PhaseOk(s, u);
    }
    MovedTaskKeepsInv(s, s', t);
  }

  lemma EndWriteKeepsInv(s: State, t: TaskId)
    requires Inv(s) && Enabled(s, EndWrite(t))
    ensures Inv(Apply(s, EndWrite(t)))
  {
    var s' := Apply(s, EndWrite(t));
    assert PhaseOk(s, t);
    forall u: TaskId | u < |s'.tasks| ensures PhaseOk(s', u) {
      assert PhaseOk(s, u);
      assert u != t ==> !s.tasks[u].phase.Writing?;
    }
  }

  lemma TaskStepKeepsInv(s: State, t: TaskId, a: Action)
    requires Inv(s) && Enabled(s, a)
    requires a == Probe(t) || a == CheckExistence(t) || a == FailWrite(t)
    ensures Inv(Apply(s, a))
  {
    assert PhaseOk(s, t);
    forall u: TaskId | u < |s.tasks| && u != t && s.tasks[u].phase.Writing? ensures Apply(s, a).mutex == s.mutex {
      assert PhaseOk(s, u);
    }
    MovedTaskKeepsInv(s, Apply(s, a), t);
  }

  lemma EnvironmentKeepsInv(s: State, a: Action)
    requires Inv(s) && Enabled(s, a)
    requires !a.Probe? && !a.CheckExistence? && !a.FailWrite? && !a.Enter? && !a.BeginWrite? && !a.EndWrite?
    ensures Inv(Apply(s, a))
  {
    var s' := Apply(s, a);
    forall u: TaskId | u < |s'.tasks| ensures PhaseOk(s', u) {
      if u < |s.tasks| {
        assert s'.tasks[u] == s.tasks[u] && PhaseOk(s, u);
      }
    }
  }

  lemma ApplyKeepsInv(s: State, a: Action)
    requires Inv(s) && Enabled(s, a)
    ensures Inv(Apply(s, a))
  {
    match a {
      case Probe(t) => TaskStepKeepsInv(s, t, a);
      case CheckExistence(t) => TaskStepKeepsInv(s, t, a);
      case FailWrite(t) => TaskStepKeepsInv(s, t, a);
      case Enter(t) => EnterKeepsInv(s, t);
      case BeginWrite(t) => BeginWriteKeepsInv(s, t);
      case EndWrite(t) => EndWriteKeepsInv(s, t);
      case _ => EnvironmentKeepsInv(s, a);
    }
  }

  lemma {:induction false} RunInv(run: seq<State>, i: nat)
    requires IsRun(run) && i < |run|
    ensures Inv(run[i])
  {
    if i > 0 {
      RunInv(run, i - 1);
      assert Next(run[i - 1], run[i]);
      var a :| Enabled(run[i - 1], a) && run[i] == Apply(run[i - 1], a);
      ApplyKeepsInv(run[i - 1], a);
    }
  }

  // ----- main results

  /**
   Every write of every run: the caller holds the gate of every Bot in the
   replaced and in the written membership, and what it replaces is the
   membership its cover check saw.
   */
  lemma CommitHoldsEveryGate(run: seq<State>, i: nat, t: TaskId)
    requires IsRun(run) && i < |run| && Enabled(run[i], EndWrite(t))
    ensures var s := run[i];
      var task := s.tasks[t];
      && task.group in s.groups
      && Members(s.groups[task.group]) <= HeldGates(task)
      && Members(Apply(s, EndWrite(t)).groups[task.group]) <= HeldGates(task)
      && Apply(s, EndWrite(t)).groups[task.group] == Patched(s.groups[task.group], task.patch)
      && task.phase.covered.Some? && SameMembership(task.phase.covered.value, s.groups[task.group])
  {
    RunInv(run, i);
    assert PhaseOk(run[i], t);
  }

  /** Two edits of one Group are never both past the cover check. */
  lemma OneEditPastCheck(run: seq<State>, i: nat, t: TaskId, u: TaskId)
    requires IsRun(run) && i < |run| && t < |run[i].tasks| && u < |run[i].tasks| && t != u
    requires PastCheck(run[i].tasks[t]) && PastCheck(run[i].tasks[u])
    ensures run[i].tasks[t].group != run[i].tasks[u].group
    ensures HeldGates(run[i].tasks[t]) !! HeldGates(run[i].tasks[u])
  {
    RunInv(run, i);
  }

  /** An edit that found no Group, before or under its gates, never writes. */
  lemma BareEditFails(run: seq<State>, i: nat, t: TaskId)
    requires IsRun(run) && i < |run| && Enabled(run[i], BeginWrite(t)) && run[i].tasks[t].phase.Bare?
    ensures Apply(run[i], BeginWrite(t)).tasks[t].phase == Done(false)
    ensures Apply(run[i], BeginWrite(t)).groups == run[i].groups
  {
    RunInv(run, i);
    assert PhaseOk(run[i], t);
  }

  // ----- members, removed Bots and deleted Bots

  /** No Group names a Bot under removal, and every member has a profile. */
  ghost predicate MembersLive(s: State)
  {
    && (forall id, b :: id in s.groups && b in s.groups[id].botIds ==> b in s.bots && b !in s.barred)
    && (forall t :: 0 <= t < |s.tasks| && s.tasks[t].phase.Checked? ==>
          Ids(PatchedIds(s.tasks[t].phase.seen, s.tasks[t].patch)) !! s.barred)
    && (forall t :: 0 <= t < |s.tasks| && s.tasks[t].phase.Writing? ==>
          Ids(s.tasks[t].phase.next.botIds) <= s.bots - s.barred)
  }

  /** The one step that ignores removal: creating a Group that names a Bot under removal. */
  ghost predicate NamesBarredBot(s: State, a: Action)
  {
    a.CreateGroup? && exists b :: b in a.botIds && b in s.barred
  }

  lemma EditKeepsMembersLive(s: State, t: TaskId, a: Action)
    requires Inv(s) && MembersLive(s) && Enabled(s, a)
    requires a == Enter(t) || a == BeginWrite(t) || a == EndWrite(t)
    ensures MembersLive(Apply(s, a))
  {
    assert PhaseOk(s, t);
    if a.EndWrite? {
      var next := s.tasks[t].phase.next;
      forall b | b in next.botIds ensures b in s.bots && b !in s.barred {
        assert b in Ids(next.botIds);
      }
    }
  }

  lemma BotStepKeepsMembersLive(s: State, a: Action)
    requires Inv(s) && MembersLive(s) && Enabled(s, a)
    requires a.DeleteBot? || a.BeginRemoval? || a.DropProfile? || a.CreateBot?
    ensures MembersLive(Apply(s, a))
  {
    var s' := Apply(s, a);
    forall t: TaskId | t < |s'.tasks| && s'.tasks[t].phase.Writing?
      ensures Ids(s'.tasks[t].phase.next.botIds) <= s'.bots - s'.barred
    {
      assert PhaseOk(s, t);
      assert Ids(s.tasks[t].phase.next.botIds) <= HeldGates(s.tasks[t]);
    }
    forall t: TaskId | t < |s.tasks| && s.tasks[t].phase.Checked?
      ensures Ids(PatchedIds(s.tasks[t].phase.seen, s.tasks[t].patch)) !! s'.barred
    {
      assert PhaseOk(s, t);
      assert Ids(PatchedIds(s.tasks[t].phase.seen, s.tasks[t].patch)) <= HeldGates(s.tasks[t]);
    }
  }

  /** Members stay live across every step if and only if no Group is created around a Bot under removal. */
  lemma MembersLiveExactly(s: State, a: Action)
    requires Inv(s) && MembersLive(s) && Enabled(s, a)
    ensures MembersLive(Apply(s, a)) <==> !NamesBarredBot(s, a)
  {
    var s' := Apply(s, a);
    match a {
      case Enter(t) => EditKeepsMembersLive(s, t, a);
      case BeginWrite(t) => EditKeepsMembersLive(s, t, a);
      case EndWrite(t) => EditKeepsMembersLive(s, t, a);
      case DeleteBot(_) => BotStepKeepsMembersLive(s, a);
      case BeginRemoval(_) => BotStepKeepsMembersLive(s, a);
      case DropProfile(_) => BotStepKeepsMembersLive(s, a);
      case CreateBot(_) => BotStepKeepsMembersLive(s, a);
      case CreateGroup(id, botIds, lead) =>
        assert id in s'.groups && s'.groups[id].botIds == botIds;
      case _ =>
    }
  }

  /** The step added a Group with a member under removal. */
  ghost predicate AddsBarredMember(s: State, s': State)
  {
    exists id, b :: id in s'.groups && id !in s.groups && b in s'.groups[id].botIds && b in s.barred
  }

  lemma NamingAddsMember(s: State, a: Action)
    requires Inv(s) && Enabled(s, a)
    ensures NamesBarredBot(s, a) ==> AddsBarredMember(s, Apply(s, a))
  {
    if NamesBarredBot(s, a) {
      var b :| b in a.botIds && b in s.barred;
      assert b in Apply(s, a).groups[a.id].botIds;
    }
  }

  lemma StepKeepsMembersLive(s: State, s': State)
    requires Inv(s) && MembersLive(s) && Next(s, s') && !AddsBarredMember(s, s')
    ensures MembersLive(s')
  {
    var a :| Enabled(s, a) && s' == Apply(s, a);
    NamingAddsMember(s, a);
    MembersLiveExactly(s, a);
  }

  /**
   In every run in which no step creates a Group around a Bot under removal,
   every member of every Group has its profile, in every state, and is not under
   removal.
   */
  lemma {:induction false} MembersKeepProfiles(run: seq<State>, i: nat)
    requires IsRun(run) && i < |run|
    requires forall j :: 0 <= j < i ==> !AddsBarredMember(run[j], run[j + 1])
    ensures MembersLive(run[i])
    ensures forall id, b :: id in run[i].groups && b in run[i].groups[id].botIds ==> b in run[i].bots && b !in run[i].barred
  {
    if i > 0 {
      MembersKeepProfiles(run, i - 1);
      RunInv(run, i - 1);
      StepKeepsMembersLive(run[i - 1], run[i]);
    }
  }

  lemma Extend(run: seq<State>, a: Action) returns (longer: seq<State>)
    requires IsRun(run) && Enabled(run[|run| - 1], a)
    ensures IsRun(longer) && longer[|longer| - 1] == Apply(run[|run| - 1], a) && run <= longer
  {
    longer := run + [Apply(run[|run| - 1], a)];
    forall i | 0 <= i < |longer| - 1 ensures Next(longer[i], longer[i + 1]) {
      if i < |run| - 1 {
        assert Next(run[i], run[i + 1]);
      }
    }
  }

  /**
   And one such step is enough: every run that reached a member under removal
   goes on to a state in which that member has no profile.
   */
  lemma BarredMemberLosesProfile(run: seq<State>, id: GroupId, b: BotId) returns (longer: seq<State>)
    requires IsRun(run) && var s := run[|run| - 1]; id in s.groups && b in s.groups[id].botIds && b in s.barred
    ensures IsRun(longer) && run <= longer
    ensures var s := longer[|longer| - 1]; id in s.groups && b in s.groups[id].botIds && b !in s.bots
  {
    longer := run;
    var s := run[|run| - 1];
    RunInv(run, |run| - 1);
    if s.mutex.Some? {
      longer := Extend(run, FailWrite(s.mutex.value));
    }
    longer := Extend(longer, DropProfile(b));
  }

  /** Creating a Group around a Bot under removal ends with a member that has no profile. */
  lemma RemovedBotStaysMember() returns (run: seq<State>)
    ensures IsRun(run)
    ensures var s := run[|run| - 1]; "g" in s.groups && "a" in s.groups["g"].botIds && "a" !in s.bots
  {
    run := Extend([Initial], CreateBot("a"));
    run := Extend(run, CreateBot("b"));
    run := Extend(run, BeginRemoval("a"));
    assert "" !in ["a", "b"] && Distinct(["a", "b"]);
    run := Extend(run, CreateGroup("g", ["a", "b"], None));
    assert ["a", "b"][0] == "a";
    run := Extend(run, DropProfile("a"));
  }
}
