/**
 The runtime of one Group member (bot-runtime-manager.ts): a binding row and a
 logical session that are linked twice, by alias and by logical id.

 Every operation holds the Bot's lifecycle gate and is cut at its awaits. At an
 await everything else in the daemon may run; what that may do to this binding
 is `Rely`. Identifiers derived from a Group, a Topic and a Bot are injective.
 */
module GroupMemberRuntime {
  import opened Common

  datatype BindingId = GroupMemberId(conversationId: string, topicId: string, botId: string) | OtherId(name: string)

  datatype Alias = OwnedAlias(bindingId: BindingId) | NamedAlias(name: string)

  /** Where an operation works: the Group, the Topic and the member. */
  datatype Scope = Scope(conversationId: string, topicId: string, botId: string)
  {
    function Id(): BindingId
    {
      GroupMemberId(conversationId, topicId, botId)
    }
  }

  datatype Owner =
    | MemberOwner(bindingId: BindingId, botId: Option<string>, conversationId: Option<string>, topicId: Option<string>)
    | OtherOwner

  datatype Session = Session(
    alias: Alias, logicalId: nat, owner: Option<Owner>, agent: string, workspace: string,
    model: Option<string>, effort: Option<string>, policy: Option<string>, worktree: Option<string>)

  datatype BindingScope = BotDirect | GroupMember | GroupController

  datatype Binding = Binding(
    id: BindingId, scope: BindingScope, conversationId: string, topicId: string, botId: string,
    logicalId: nat, alias: Alias, createdAt: nat)

  datatype Mode = Shared | PerMember

  datatype Conversation = Conversation(isGroup: bool, botIds: seq<string>, deleting: bool, mode: Mode)

  /** `target` is the workspace the Topic owns in a `shared` Group. */
  datatype Topic = Topic(conversationId: string, active: bool, target: Option<string>)

  datatype Bot = Bot(agent: string, workspace: string, model: Option<string>, effort: Option<string>, enabled: bool)

  datatype Execution = Execution(agent: string, workspace: string, model: Option<string>, effort: Option<string>)

  datatype State = State(
    conversations: map<string, Conversation>, topics: map<string, Topic>, bots: map<string, Bot>,
    bindings: map<BindingId, Binding>, sessions: map<Alias, Session>)

  datatype RuntimeError =
    | OwnershipConflict | RevisionMismatch | SessionMissing | NotGroup | NotMember | ConversationDeleting
    | TopicNotFound | TopicDeleting | BotNotFound | BotDisabled | TargetMissing | NotDispatchable
    | CreateFailed | ReleaseFailed

  // ----- ownership (bot-service.ts)

  datatype Ownership = Owned | Foreign | Conflict

  function Agrees(field: Option<string>, value: string): bool
  {
    field.None? || field.value == value
  }

  predicate OwnedBy(s: Session, id: BindingId)
  {
    s.owner.Some? && s.owner.value.MemberOwner? && s.owner.value.bindingId == id
  }

  function BindingOwnership(b: Binding, at: Scope): Ownership
  {
    if b.scope != GroupMember then Foreign
    else if b.conversationId != at.conversationId || b.topicId != at.topicId then Foreign
    else if b.botId != at.botId then Conflict
    else if b.id == at.Id() then Owned
    else Conflict
  }

  function SessionOwnership(s: Session, id: BindingId, at: Scope): Ownership
  {
    if !OwnedBy(s, id) then Foreign
    else if !Agrees(s.owner.value.botId, at.botId) || !Agrees(s.owner.value.conversationId, at.conversationId)
            || !Agrees(s.owner.value.topicId, at.topicId) then Conflict
    else Owned
  }

  function ScopeOf(b: Binding): Scope
  {
    Scope(b.conversationId, b.topicId, b.botId)
  }

  predicate IdentityOk(b: Binding)
  {
    BindingOwnership(b, ScopeOf(b)) == Owned
  }

  /** The cross-record link: an owned session, under the alias and the logical id of the binding. */
  predicate Linked(b: Binding, s: Session)
  {
    && IdentityOk(b)
    && SessionOwnership(s, b.id, ScopeOf(b)) == Owned
    && s.alias == b.alias && s.logicalId == b.logicalId
  }

  /** All sessions that hold a logical id, never just the first. */
  function Holders(sessions: map<Alias, Session>, logicalId: nat): set<Alias>
  {
    set a | a in sessions && sessions[a].logicalId == logicalId
  }

  /** The two axes agree on exactly one owned session. */
  predicate LiveLink(sessions: map<Alias, Session>, b: Binding)
  {
    b.alias in sessions && Holders(sessions, b.logicalId) == {b.alias} && Linked(b, sessions[b.alias])
  }

  predicate FullyMissing(sessions: map<Alias, Session>, b: Binding)
  {
    b.alias !in sessions && Holders(sessions, b.logicalId) == {}
  }

  /** `groupMemberBindingSessionIsLive`: anything between live and fully missing is a conflict. */
  function IsLive(sessions: map<Alias, Session>, b: Binding, allowFullyMissing: bool): Result<bool, RuntimeError>
  {
    if !IdentityOk(b) then Failure(OwnershipConflict)
    else if FullyMissing(sessions, b) then
      if allowFullyMissing then Success(false) else Failure(OwnershipConflict)
    else if LiveLink(sessions, b) then Success(true)
    else Failure(OwnershipConflict)
  }

  /** Sessions are stored under their own alias. */
  ghost predicate Wf(s: State)
  {
    && (forall a :: a in s.sessions ==> s.sessions[a].alias == a)
    && (forall i :: i in s.bindings ==> s.bindings[i].id == i)
  }

  // ----- the fence

  /** What commit and reuse re-read under the state mutex. */
  function Fence(s: State, at: Scope): Option<RuntimeError>
  {
    if at.conversationId !in s.conversations || !s.conversations[at.conversationId].isGroup then Some(NotGroup)
    else if at.botId !in s.conversations[at.conversationId].botIds then Some(NotMember)
    else if s.conversations[at.conversationId].deleting then Some(ConversationDeleting)
    else if at.topicId !in s.topics || s.topics[at.topicId].conversationId != at.conversationId then Some(TopicNotFound)
    else if !s.topics[at.topicId].active then Some(TopicDeleting)
    else if at.botId !in s.bots then Some(BotNotFound)
    else if !s.bots[at.botId].enabled then Some(BotDisabled)
    else None
  }

  /** The same authorities in the order in which a materialization resolves them. */
  function ScopeError(s: State, at: Scope): Option<RuntimeError>
  {
    if at.botId !in s.bots then Some(BotNotFound)
    else if !s.bots[at.botId].enabled then Some(BotDisabled)
    else if at.conversationId !in s.conversations || !s.conversations[at.conversationId].isGroup then Some(NotGroup)
    else if at.botId !in s.conversations[at.conversationId].botIds then Some(NotMember)
    else if at.topicId !in s.topics || s.topics[at.topicId].conversationId != at.conversationId then Some(TopicNotFound)
    else if s.conversations[at.conversationId].deleting then Some(ConversationDeleting)
    else if !s.topics[at.topicId].active then Some(TopicDeleting)
    else None
  }

  predicate TopicActive(s: State, at: Scope)
  {
    at.topicId in s.topics && s.topics[at.topicId].conversationId == at.conversationId && s.topics[at.topicId].active
  }

  /** The execution the member runs with, and whether an accepted one still fits. */
  function Effective(s: State, at: Scope, execution: Option<Execution>): Result<Execution, RuntimeError>
    requires Fence(s, at) == None
  {
    var bot := s.bots[at.botId];
    var topic := s.topics[at.topicId];
    if s.conversations[at.conversationId].mode == PerMember then
      if execution.Some? && (bot.agent != execution.value.agent || bot.workspace != execution.value.workspace)
      then Failure(RevisionMismatch)
      else Success(if execution.Some? then execution.value else Execution(bot.agent, bot.workspace, bot.model, bot.effort))
    else if topic.target.None? then Failure(TargetMissing)
    else if execution.Some? && (bot.agent != execution.value.agent || topic.target.value != execution.value.workspace)
    then Failure(RevisionMismatch)
    else Success(if execution.Some? then execution.value else Execution(bot.agent, topic.target.value, bot.model, bot.effort))
  }

  /** The execution of a turn, where there is one. */
  function TurnExecution(s: State, at: Scope, execution: Option<Execution>): Option<Execution>
  {
    if Fence(s, at).Some? || Effective(s, at, execution).Failure? then None
    else Some(Effective(s, at, execution).value)
  }

  /** What a turn asks for beside the execution. */
  datatype Request = Request(policy: Option<string>, worktree: Option<string>)

  predicate MatchesTurn(s: Session, e: Execution, r: Request)
  {
    s.model == e.model && s.effort == e.effort && s.policy == r.policy && s.worktree == r.worktree
  }

  /** Policy, worktree or a cleared effort ask for a new session. */
  predicate Outdated(s: Session, e: Execution, r: Request)
  {
    s.policy != r.policy || s.worktree != r.worktree || (s.effort.Some? && e.effort.None?)
  }

  predicate MatchesExecution(s: Session, e: Execution)
  {
    s.agent == e.agent && s.workspace == e.workspace && s.model == e.model && s.effort == e.effort
  }

  /** A binding row that is stored, live, and carries what the turn asked for. */
  ghost predicate Ready(s: State, b: Binding, at: Scope, e: Execution, r: Request)
  {
    && b.id == at.Id() && ScopeOf(b) == at
    && LiveLink(s.sessions, b) && MatchesTurn(s.sessions[b.alias], e, r)
  }

  // ----- interference

  ghost predicate OwnedIn(s: State, a: Alias, id: BindingId)
  {
    a in s.sessions && OwnedBy(s.sessions[a], id)
  }

  /**
   What the rest of the daemon may do while this Bot's gate is held. Nobody else
   writes this binding row or mints or edits a session it owns. Teardown marks
   the Topic as deleting, for good, before it releases a session or deletes the
   row. New logical ids are fresh.
   */
  ghost predicate Rely(a: State, b: State, at: Scope)
  {
    var id := at.Id();
    && Wf(b)
    && (id in b.bindings ==> id in a.bindings && b.bindings[id] == a.bindings[id])
    && (forall x :: OwnedIn(b, x, id) ==> x in a.sessions && b.sessions[x] == a.sessions[x])
    && (TopicActive(b, at) ==>
          && TopicActive(a, at) && (id in a.bindings ==> id in b.bindings)
          && forall x :: OwnedIn(a, x, id) ==> x in b.sessions && b.sessions[x] == a.sessions[x])
    && (forall x, y :: OwnedIn(a, x, id) && y in b.sessions && b.sessions[y].logicalId == a.sessions[x].logicalId ==>
          y in a.sessions && a.sessions[y].logicalId == a.sessions[x].logicalId)
  }

  /** A stored row is still stored. */
  ghost predicate Keeps(a: State, b: State, id: BindingId)
  {
    id in a.bindings ==> id in b.bindings && b.bindings[id] == a.bindings[id]
  }

  /** A live link survives interference for as long as the Topic stays active. */
  lemma LiveLinkSurvives(a: State, b: State, at: Scope, row: Binding)
    requires Wf(a) && Rely(a, b, at) && row.id == at.Id() && LiveLink(a.sessions, row)
    ensures row.alias in b.sessions && OwnedIn(b, row.alias, row.id) ==> LiveLink(b.sessions, row)
    ensures TopicActive(b, at) ==> LiveLink(b.sessions, row) && b.sessions[row.alias] == a.sessions[row.alias]
  {
    assert OwnedIn(a, row.alias, row.id);
    if row.alias in b.sessions && OwnedIn(b, row.alias, row.id) {
      forall y | y in Holders(b.sessions, row.logicalId) ensures y == row.alias {
        assert y in Holders(a.sessions, row.logicalId);
      }
      assert Holders(b.sessions, row.logicalId) == {row.alias};
    }
  }

  /** The session a release may touch: owned by this binding id, and alone under its logical id. */
  ghost predicate SoleOwner(s: State, a: Alias, id: BindingId)
  {
    OwnedIn(s, a, id) && Holders(s.sessions, s.sessions[a].logicalId) == {a}
  }

  /** The one session of a binding: complete ownership and no second owned session. */
  ghost predicate OnlyOwned(s: State, a: Alias, at: Scope)
  {
    && SoleOwner(s, a, at.Id())
    && SessionOwnership(s.sessions[a], at.Id(), at) == Owned
    && forall x :: OwnedIn(s, x, at.Id()) ==> x == a
  }

  datatype Field = ModelIs(model: Option<string>) | EffortIs(effort: Option<string>)

  function With(s: Session, f: Field): Session
  {
    match f
    case ModelIs(m) => s.(model := m)
    case EffortIs(e) => s.(effort := e)
  }

  /** What the operations themselves write. */
  datatype Effect =
    | Released(session: Session)
    | Created(session: Session)
    | Adjusted(alias: Alias, field: Field)
    | Published(row: Binding)
    | Unbound(id: BindingId)

  /** A released session may be gone by the time it is taken out of the table. */
  ghost predicate Does(a: State, e: Effect, b: State, at: Scope)
  {
    match e
    case Released(s) =>
      OwnedBy(s, at.Id()) &&
      b == if s.alias in a.sessions && a.sessions[s.alias] == s then a.(sessions := a.sessions - {s.alias}) else a
    case Created(s) =>
      && s.alias == OwnedAlias(at.Id()) && s.alias !in a.sessions && OwnedBy(s, at.Id())
      && Holders(a.sessions, s.logicalId) == {} && b == a.(sessions := a.sessions[s.alias := s])
    case Adjusted(alias, field) =>
      && alias in a.sessions && (TopicActive(a, at) ==> OwnedIn(a, alias, at.Id()))
      && b == a.(sessions := a.sessions[alias := With(a.sessions[alias], field)])
    case Published(row) => row.id == at.Id() && b == a.(bindings := a.bindings[row.id := row])
    case Unbound(id) => id == at.Id() && b == a.(bindings := a.bindings - {id})
  }

  /**
   One effect at a scope is interference that any other scope can rely on, unless
   it edits a session of that other scope: which it does not while its own Topic
   is active.
   */
  lemma EffectsKeepRely(a: State, e: Effect, b: State, doer: Scope, at: Scope)
    requires Wf(a) && Does(a, e, b, doer) && at.Id() != doer.Id()
    ensures Rely(a, b, at) <==>
      !(e.Adjusted? && OwnedIn(a, e.alias, at.Id()) && With(a.sessions[e.alias], e.field) != a.sessions[e.alias])
    ensures TopicActive(a, doer) ==> Rely(a, b, at)
  {
    match e
    case Released(s) => ReleaseKeepsRely(a, s, b, doer, at);
    case Created(s) => CreationKeepsRely(a, s, b, doer, at);
    case Adjusted(alias, field) => AdjustmentKeepsRely(a, alias, field, b, doer, at);
    case Published(_) => RowWriteKeepsRely(a, e, b, doer, at);
    case Unbound(_) => RowWriteKeepsRely(a, e, b, doer, at);
  }

  lemma ReleaseKeepsRely(a: State, s: Session, b: State, doer: Scope, at: Scope)
    requires Wf(a) && Does(a, Released(s), b, doer) && at.Id() != doer.Id()
    ensures Rely(a, b, at)
  {}

  lemma RowWriteKeepsRely(a: State, e: Effect, b: State, doer: Scope, at: Scope)
    requires Wf(a) && Does(a, e, b, doer) && at.Id() != doer.Id() && (e.Published? || e.Unbound?)
    ensures Rely(a, b, at)
  {}

  lemma CreationKeepsRely(a: State, s: Session, b: State, doer: Scope, at: Scope)
    requires Wf(a) && Does(a, Created(s), b, doer) && at.Id() != doer.Id()
    ensures Rely(a, b, at)
  {
    forall x, y |
      OwnedIn(a, x, at.Id()) && y in b.sessions && b.sessions[y].logicalId == a.sessions[x].logicalId
      ensures y in a.sessions && a.sessions[y].logicalId == a.sessions[x].logicalId
    {
      assert a.sessions[x].logicalId != s.logicalId by {
        assert x !in Holders(a.sessions, s.logicalId);
      }
    }
  }

  lemma AdjustmentKeepsRely(a: State, alias: Alias, field: Field, b: State, doer: Scope, at: Scope)
    requires Wf(a) && Does(a, Adjusted(alias, field), b, doer) && at.Id() != doer.Id()
    ensures Rely(a, b, at) <==> !(OwnedIn(a, alias, at.Id()) && With(a.sessions[alias], field) != a.sessions[alias])
  {
    if OwnedIn(a, alias, at.Id()) {
      assert OwnedIn(b, alias, at.Id());
    }
  }

  // ----- the steps of an operation

  /** A step is an await, where others run, or an effect of the operation. */
  datatype Step = Step(effect: Option<Effect>, after: State)

  function Before(start: State, steps: seq<Step>, k: nat): State
    requires k <= |steps|
  {
    if k == 0 then start else steps[k - 1].after
  }

  ghost predicate ReleasedFrom(s: State, session: Session, id: BindingId)
  {
    SoleOwner(s, session.alias, id) && s.sessions[session.alias] == session
  }

  /** A session is released one await after its sole ownership was established. */
  ghost predicate StepOk(start: State, steps: seq<Step>, k: nat, at: Scope)
    requires k < |steps|
  {
    var a, s := Before(start, steps, k), steps[k];
    match s.effect
    case None => Rely(a, s.after, at)
    case Some(e) =>
      && Does(a, e, s.after, at)
      && (e.Released? ==> k > 0 && ReleasedFrom(Before(start, steps, k - 1), e.session, at.Id()))
  }

  /** The operation takes `start` to `end` by these steps. */
  ghost predicate Ran(start: State, steps: seq<Step>, end: State, at: Scope)
  {
    end == Before(start, steps, |steps|) && forall k :: 0 <= k < |steps| ==> StepOk(start, steps, k, at)
  }

  /** Every effect among the steps is of this kind. */
  ghost predicate Only(steps: seq<Step>, kind: Effect -> bool)
  {
    forall k :: 0 <= k < |steps| && steps[k].effect.Some? ==> kind(steps[k].effect.value)
  }

  /** The operation wrote nothing. */
  ghost predicate Idle(steps: seq<Step>)
  {
    forall k :: 0 <= k < |steps| ==> steps[k].effect == None
  }

  /**
   After the first `fence` steps, which ended with an await, membership, an
   active Topic and an enabled Bot held; only the publication or an alignment of
   the session came later.
   */
  ghost predicate FencedBy(steps: seq<Step>, fence: nat, at: Scope)
  {
    && 0 < fence <= |steps| && steps[fence - 1].effect == None && Fence(steps[fence - 1].after, at) == None
    && forall k :: fence <= k < |steps| && steps[k].effect.Some? ==>
         steps[k].effect.value.Published? || steps[k].effect.value.Adjusted?
  }

  lemma FencedLater(first: seq<Step>, steps: seq<Step>, fence: nat, at: Scope)
    ensures FencedBy(steps, fence, at) ==> FencedBy(first + steps, |first| + fence, at)
  {}

  lemma RanJoins(a: State, first: seq<Step>, b: State, second: seq<Step>, c: State, at: Scope)
    requires Ran(a, first, b, at) && Ran(b, second, c, at)
    ensures Ran(a, first + second, c, at)
  {
    var steps := first + second;
    forall k | 0 <= k < |steps| ensures StepOk(a, steps, k, at) {
      if k < |first| {
        assert StepOk(a, first, k, at);
        assert Before(a, steps, k) == Before(a, first, k);
      } else {
        assert StepOk(b, second, k - |first|, at);
        assert Before(a, steps, k) == Before(b, second, k - |first|);
        assert k > |first| ==> Before(a, steps, k - 1) == Before(b, second, k - |first| - 1);
      }
    }
  }

  lemma RanPrefix(start: State, steps: seq<Step>, end: State, at: Scope, k: nat)
    requires Ran(start, steps, end, at) && k <= |steps|
    ensures Ran(start, steps[..k], Before(start, steps, k), at)
  {
    forall j | 0 <= j < k ensures StepOk(start, steps[..k], j, at) {
      assert StepOk(start, steps, j, at);
    }
  }

  /** What no step takes away, and what only an effect on the row could. */
  lemma {:induction false} RanKeeps(start: State, steps: seq<Step>, end: State, at: Scope)
    requires Wf(start) && Ran(start, steps, end, at)
    ensures Wf(end) && (TopicActive(end, at) ==> TopicActive(start, at))
    ensures Only(steps, (e: Effect) => !e.Published?) ==>
      (at.Id() in end.bindings ==> at.Id() in start.bindings && end.bindings[at.Id()] == start.bindings[at.Id()])
    ensures Only(steps, (e: Effect) => !e.Unbound?) && TopicActive(end, at) ==>
      (at.Id() in start.bindings ==> at.Id() in end.bindings)
    decreases |steps|
  {
    if steps != [] {
      var n := |steps| - 1;
      RanPrefix(start, steps, end, at, n);
      RanKeeps(start, steps[..n], Before(start, steps, n), at);
      assert StepOk(start, steps, n, at);
    }
  }

  /** What other services answer: whether the two fallible session calls go through. */
  datatype Answers = Answers(releaseOk: bool, createOk: bool, freshId: nat)

  /**
   So an operation at one scope is fair to every other: each of its own steps is
   interference that the other scope can rely on, except an edit of a session
   after its own Topic stopped being active.
   */
  lemma OperationsKeepRely(start: State, steps: seq<Step>, end: State, doer: Scope, at: Scope, k: nat)
    requires Wf(start) && Ran(start, steps, end, doer) && at.Id() != doer.Id()
    requires k < |steps| && steps[k].effect.Some?
    requires steps[k].effect.value.Adjusted? ==> TopicActive(Before(start, steps, k), doer)
    ensures Rely(Before(start, steps, k), steps[k].after, at)
  {
    RanPrefix(start, steps, end, doer, k);
    RanKeeps(start, steps[..k], Before(start, steps, k), doer);
    assert StepOk(start, steps, k, doer);
    EffectsKeepRely(Before(start, steps, k), steps[k].effect.value, steps[k].after, doer, at);
  }

  /** Nothing is created or published, and only outdated sessions are released. */
  ghost predicate Clears(steps: seq<Step>, e: Execution, req: Request)
  {
    Only(steps, (x: Effect) => !x.Created? && !x.Published? && (x.Released? ==> Outdated(x.session, e, req)))
  }

  /** Nothing is edited, and only outdated sessions are released. */
  ghost predicate Binds(steps: seq<Step>, e: Execution, req: Request)
  {
    Only(steps, (x: Effect) => !x.Adjusted? && (x.Released? ==> Outdated(x.session, e, req)))
  }

  lemma ClearsThenBinds(first: seq<Step>, second: seq<Step>, e: Execution, req: Request)
    requires Clears(first, e, req) && Only(first, (x: Effect) => !x.Adjusted?) && Binds(second, e, req)
    ensures Binds(first + second, e, req)
    ensures Only(second, (x: Effect) => !x.Published?) ==> Only(first + second, (x: Effect) => !x.Published?)
  {}

  class BotRuntimeManager {
    var state: State

    constructor (state: State)
      ensures this.state == state
    {
      this.state := state;
    }

    /** One await under the gate: the rest of the daemon runs. */
    method Await(at: Scope) returns (ghost steps: seq<Step>)
      requires Wf(state)
      modifies this
      ensures Rely(old(state), state, at)
      ensures steps == [Step(None, state)] && Ran(old(state), steps, state, at)
    {
      steps := [Step(None, state)];
    }

    /** The verified physical and logical release. Its caller must have established sole ownership. */
    method ReleaseOwnedSession(a: Alias, at: Scope, ok: bool) returns (released: bool, ghost steps: seq<Step>)
      requires Wf(state) && SoleOwner(state, a, at.Id())
      modifies this
      ensures Ran(old(state), steps, state, at)
      ensures if released then |steps| == 3 && steps[0].effect == steps[2].effect == None
                            && steps[1].effect == Some(Released(old(state).sessions[a]))
              else Idle(steps)
      ensures forall x :: OwnedIn(state, x, at.Id()) ==>
        x in old(state).sessions && state.sessions[x] == old(state).sessions[x] && (released ==> x != a)
    {
      ghost var before := state;
      var session := state.sessions[a];
      steps := Await(at);
      if !ok { return false, steps; }
      if a in state.sessions && state.sessions[a] == session {
        state := state.(sessions := state.sessions - {a});
      }
      steps := steps + [Step(Some(Released(session)), state)];
      ghost var taken := state;
      ghost var more := Await(at);
      released := true;
      RanJoins(before, steps, taken, more, state, at);
      steps := steps + more;
      assert forall x :: OwnedIn(state, x, at.Id()) ==> OwnedIn(taken, x, at.Id());
    }

    /** `findScopedGroupMemberBinding`. */
    function FindBinding(at: Scope): Result<Option<Binding>, RuntimeError>
      reads this
    {
      if at.Id() !in state.bindings then Success(None)
      else if state.bindings[at.Id()].scope != GroupMember || BindingOwnership(state.bindings[at.Id()], at) != Owned
      then Failure(OwnershipConflict)
      else Success(Some(state.bindings[at.Id()]))
    }

    /** `findOwnedGroupMemberSession`: one pass over every session, then the logical-id axis. */
    method FindOwned(at: Scope) returns (r: Result<Option<Session>, RuntimeError>)
      requires Wf(state)
      ensures r == Success(None) ==> forall x :: !OwnedIn(state, x, at.Id())
      ensures r.Success? && r.value.Some? ==>
        OnlyOwned(state, r.value.value.alias, at) && state.sessions[r.value.value.alias] == r.value.value
      ensures r.Failure? ==> r.error == OwnershipConflict && forall a :: !OnlyOwned(state, a, at)
    {
      var id := at.Id();
      var left := state.sessions.Keys;
      var owned: Option<Alias> := None;
      while left != {}
        invariant left <= state.sessions.Keys
        invariant owned.Some? ==> owned.value in state.sessions && owned.value !in left
        invariant forall x :: OwnedIn(state, x, id) && x !in left ==> owned == Some(x)
        invariant owned.Some? ==> SessionOwnership(state.sessions[owned.value], id, at) == Owned
        decreases left
      {
        var a :| a in left;
        left := left - {a};
        var ownership := SessionOwnership(state.sessions[a], id, at);
        if ownership == Conflict || (ownership == Owned && owned.Some?) {
          assert OwnedIn(state, a, id);
          assert owned.Some? ==> OwnedIn(state, owned.value, id);
          return Failure(OwnershipConflict);
        }
        if ownership == Owned {
          owned := Some(a);
        }
      }
      if owned.None? { return Success(None); }
      var session := state.sessions[owned.value];
      assert OwnedIn(state, owned.value, id);
      if Holders(state.sessions, session.logicalId) != {owned.value} { return Failure(OwnershipConflict); }
      r := Success(Some(session));
    }

    /** The row is deleted if it is still this one, before and under the state mutex. */
    method DeleteRow(live: Binding) returns (ghost steps: seq<Step>)
      requires Wf(state) && IdentityOk(live)
      requires live.id in state.bindings ==> state.bindings[live.id] == live
      modifies this
      ensures Wf(state) && Ran(old(state), steps, state, ScopeOf(live))
      ensures live.id !in state.bindings && Only(steps, (e: Effect) => e.Unbound?)
      ensures forall x :: OwnedIn(state, x, live.id) ==>
        OwnedIn(old(state), x, live.id) && state.sessions[x] == old(state).sessions[x]
    {
      var id := live.id;
      steps := [];
      if id !in state.bindings || state.bindings[id].alias != live.alias || state.bindings[id].logicalId != live.logicalId {
        return;
      }
      ghost var start := state;
      steps := Await(ScopeOf(live));
      if id !in state.bindings || state.bindings[id].alias != live.alias || state.bindings[id].logicalId != live.logicalId {
        return;
      }
      ghost var last := state;
      state := state.(bindings := state.bindings - {id});
      ghost var more := [Step(Some(Unbound(id)), state)];
      RanJoins(start, steps, last, more, state, ScopeOf(live));
      steps := steps + more;
    }

    /**
     `releaseGroupMemberBindingInternal`. A conflict changes nothing at all, and
     only the session of the row is ever released.
     */
    method ReleaseBinding(snapshot: Binding, ok: bool) returns (e: Option<RuntimeError>, ghost steps: seq<Step>)
      requires Wf(state)
      modifies this
      ensures Ran(old(state), steps, state, ScopeOf(snapshot))
      ensures e.Some? ==> e.value in {OwnershipConflict, ReleaseFailed} && Idle(steps)
      ensures e == Some(OwnershipConflict) ==> state == old(state)
      ensures e.None? && snapshot.id in old(state).bindings && old(state).bindings[snapshot.id].scope == GroupMember ==>
        && snapshot.id !in state.bindings
        && !OwnedIn(state, old(state).bindings[snapshot.id].alias, snapshot.id)
      ensures Only(steps, (e: Effect) => e.Unbound? || (e.Released? && e.session.alias == snapshot.alias
                                && snapshot.alias in old(state).sessions && e.session == old(state).sessions[snapshot.alias]))
      ensures forall x :: OwnedIn(state, x, snapshot.id) ==>
        x in old(state).sessions && state.sessions[x] == old(state).sessions[x]
    {
      var id := snapshot.id;
      steps := [];
      if id !in state.bindings || state.bindings[id].scope != GroupMember { return None, steps; }
      var live := state.bindings[id];
      if !IdentityOk(live) { return Some(OwnershipConflict), steps; }
      if ScopeOf(live) != ScopeOf(snapshot) || live.alias != snapshot.alias || live.logicalId != snapshot.logicalId {
        return Some(OwnershipConflict), steps;
      }
      var at := ScopeOf(live);
      ghost var start := state;
      if !FullyMissing(state.sessions, live) {
        if !LiveLink(state.sessions, live) { return Some(OwnershipConflict), steps; }
        var released;
        released, steps := ReleaseOwnedSession(live.alias, at, ok);
        if !released { return Some(ReleaseFailed), steps; }
        RanKeeps(start, steps, state, at);
      }
      e := None;
      ghost var mid := state;
      ghost var more := DeleteRow(live);
      RanJoins(start, steps, mid, more, state, at);
      steps := steps + more;
    }

    /** How many sessions a binding owns: what a release brings down. */
    ghost function OwnedAliases(id: BindingId): set<Alias>
      reads this
    {
      set a | a in state.sessions && OwnedBy(state.sessions[a], id)
    }

    /** `sessions.createSession` for this binding, with a fresh logical id. */
    method CreateSession(at: Scope, e: Execution, req: Request, answers: Answers)
      returns (ok: bool, ghost steps: seq<Step>)
      requires Wf(state)
      modifies this
      ensures Ran(old(state), steps, state, at)
      ensures if ok then Only(steps, (e: Effect) => e.Created?) else Idle(steps)
    {
      ghost var before := state;
      steps := Await(at);
      var a := OwnedAlias(at.Id());
      if !answers.createOk || a in state.sessions || Holders(state.sessions, answers.freshId) != {} {
        return false, steps;
      }
      var owner := MemberOwner(at.Id(), Some(at.botId), Some(at.conversationId), Some(at.topicId));
      var session :=
        Session(a, answers.freshId, Some(owner), e.agent, e.workspace, e.model, e.effort, req.policy, req.worktree);
      state := state.(sessions := state.sessions[a := session]);
      steps := steps + [Step(Some(Created(session)), state)];
      ghost var created := state;
      ghost var more := Await(at);
      RanJoins(before, steps, created, more, state, at);
      steps := steps + more;
      ok := true;
    }

    /**
     `ensureGroupMemberOwnedSession`: adopt the one owned session if it carries
     what the turn asks for, replace one with another worktree, or create one.
     These two are all it ever writes, on a conflict as well.
     */
    method EnsureOwned(at: Scope, e: Execution, req: Request, answers: Answers)
      returns (r: Result<Session, RuntimeError>, ghost steps: seq<Step>)
      requires Wf(state)
      modifies this
      ensures Wf(state) && Ran(old(state), steps, state, at)
      ensures Only(steps, (e: Effect) => e.Created? || (e.Released? && e.session.worktree != req.worktree))
      ensures r.Success? ==>
        && OnlyOwned(state, r.value.alias, at) && state.sessions[r.value.alias] == r.value
        && MatchesExecution(r.value, e) && MatchesTurn(r.value, e, req)
      decreases |OwnedAliases(at.Id())|
    {
      ghost var start := state;
      steps := [];
      var current := FindOwned(at);
      if current.Failure? { return Failure(OwnershipConflict), steps; }
      if current.value.Some? {
        var session := current.value.value;
        if session.worktree != req.worktree {
          ghost var before := OwnedAliases(at.Id());
          var released;
          released, steps := ReleaseOwnedSession(session.alias, at, answers.releaseOk);
          RanKeeps(start, steps, state, at);
          if !released { return Failure(ReleaseFailed), steps; }
          assert OwnedAliases(at.Id()) <= before - {session.alias};
          SubsetSize(OwnedAliases(at.Id()), before - {session.alias});
          ghost var mid := state;
          ghost var more;
          r, more := EnsureOwned(at, e, req, answers);
          RanJoins(start, steps, mid, more, state, at);
          steps := steps + more;
          return;
        }
        if !MatchesExecution(session, e) || session.policy != req.policy { return Failure(RevisionMismatch), steps; }
        return Success(session), steps;
      }
      if OwnedAlias(at.Id()) in state.sessions { return Failure(OwnershipConflict), steps; }
      var created;
      created, steps := CreateSession(at, e, req, answers);
      RanKeeps(start, steps, state, at);
      if !created { return Failure(CreateFailed), steps; }
      var record := FindOwned(at);
      if record.Failure? { return Failure(OwnershipConflict), steps; }
      if record.value.None? { return Failure(SessionMissing), steps; }
      if !MatchesExecution(record.value.value, e) || record.value.value.policy != req.policy
         || record.value.value.worktree != req.worktree { return Failure(RevisionMismatch), steps; }
      r := Success(record.value.value);
    }

    /**
     `publishGroupMemberRuntime`: everything is read again under the state mutex,
     then the row is written, as the last step. On success the fence holds and
     the row is stored and live; on a failure nothing was written.
     */
    method Publish(session: Session, at: Scope, now: nat)
      returns (r: Result<Binding, RuntimeError>, ghost steps: seq<Step>)
      requires Wf(state) && OnlyOwned(state, session.alias, at) && state.sessions[session.alias] == session
      modifies this
      ensures Ran(old(state), steps, state, at)
      ensures |steps| > 0 && steps[0].effect == None && (r.Failure? ==> Idle(steps))
      ensures r.Success? ==> Fence(steps[0].after, at) == None && (steps[1..] == [] || steps[1..] == [Step(Some(Published(r.value)), state)])
      ensures r.Success? ==>
        && Fence(state, at) == None
        && at.Id() in state.bindings && state.bindings[at.Id()] == r.value
        && r.value.id == at.Id() && ScopeOf(r.value) == at
        && LiveLink(state.sessions, r.value) && state.sessions[r.value.alias] == session
    {
      ghost var before := state;
      steps := Await(at);
      var fence := Fence(state, at);
      if fence.Some? { return Failure(fence.value), steps; }
      if session.alias !in state.sessions && Holders(state.sessions, session.logicalId) == {} {
        return Failure(SessionMissing), steps;
      }
      if session.alias !in state.sessions || state.sessions[session.alias].logicalId != session.logicalId {
        return Failure(OwnershipConflict), steps;
      }
      var current := state.sessions[session.alias];
      var candidate :=
        Binding(at.Id(), GroupMember, at.conversationId, at.topicId, at.botId, current.logicalId, current.alias, now);
      if !Linked(candidate, current) { return Failure(OwnershipConflict), steps; }
      assert OwnedIn(before, session.alias, at.Id()) && current == session;
      LiveLinkSurvives(before, state, at, candidate);
      var found := FindBinding(at);
      if found.Failure? { return Failure(OwnershipConflict), steps; }
      if found.value.Some? {
        var live := found.value.value;
        var holders := Holders(state.sessions, live.logicalId);
        if (live.alias !in state.sessions || live.alias == current.alias) && (holders == {} || holders == {current.alias}) {
          if current.owner != Some(MemberOwner(at.Id(), Some(at.botId), Some(at.conversationId), Some(at.topicId))) {
            return Failure(OwnershipConflict), steps;
          }
        } else {
          var alive := IsLive(state.sessions, live, true);
          r := if alive == Success(true) then Success(live) else Failure(OwnershipConflict);
          return;
        }
      }
      var row := candidate.(createdAt := if found.value.Some? then found.value.value.createdAt else now);
      ghost var fenced := state;
      state := state.(bindings := state.bindings[at.Id() := row]);
      ghost var more := [Step(Some(Published(row)), state)];
      RanJoins(before, steps, fenced, more, state, at);
      steps := steps + more;
      r := Success(row);
    }

    /** `setSessionModel` or `setSessionEffort`: it throws when the alias is gone. */
    method Adjust(row: Binding, at: Scope, f: Field) returns (ok: bool, ghost steps: seq<Step>)
      requires Wf(state) && row.id == at.Id()
      requires TopicActive(state, at) ==> OwnedIn(state, row.alias, at.Id())
      modifies this
      ensures Wf(state) && Ran(old(state), steps, state, at)
      ensures Only(steps, (e: Effect) => e == Adjusted(row.alias, f))
      ensures TopicActive(state, at) ==> TopicActive(old(state), at) && OwnedIn(state, row.alias, at.Id())
      ensures ok && TopicActive(state, at) && LiveLink(old(state).sessions, row) ==>
        && LiveLink(state.sessions, row)
        && state.sessions[row.alias] == With(old(state).sessions[row.alias], f)
    {
      ghost var before := state;
      steps := Await(at);
      if row.alias !in state.sessions { return false, steps; }
      ghost var mid := state;
      state := state.(sessions := state.sessions[row.alias := With(state.sessions[row.alias], f)]);
      steps := steps + [Step(Some(Adjusted(row.alias, f)), state)];
      ghost var edited := state;
      ghost var more := Await(at);
      RanJoins(before, steps, edited, more, state, at);
      steps := steps + more;
      ok := true;
      if LiveLink(before.sessions, row) {
        LiveLinkSurvives(before, mid, at, row);
        if LiveLink(mid.sessions, row) {
          assert Holders(edited.sessions, row.logicalId) == Holders(mid.sessions, row.logicalId);
          LiveLinkSurvives(edited, state, at, row);
        }
      }
    }

    /** `alignGroupMemberSessionRuntime`. A conflict changes nothing. */
    method Align(row: Binding, at: Scope, e: Execution) returns (error: Option<RuntimeError>, ghost steps: seq<Step>)
      requires Wf(state) && row.id == at.Id()
      modifies this
      ensures Wf(state) && Ran(old(state), steps, state, at)
      ensures Only(steps, (x: Effect) => x in {Adjusted(row.alias, ModelIs(e.model)), Adjusted(row.alias, EffortIs(e.effort))})
      ensures error.Some? ==> error.value in {OwnershipConflict, SessionMissing}
      ensures error == Some(OwnershipConflict) ==> state == old(state) && steps == []
      ensures TopicActive(state, at) ==> TopicActive(old(state), at) && Keeps(old(state), state, row.id)
      ensures error.None? && TopicActive(state, at) && LiveLink(old(state).sessions, row) ==>
        && LiveLink(state.sessions, row)
        && state.sessions[row.alias] == old(state).sessions[row.alias].(model := e.model, effort := e.effort)
    {
      ghost var start := state;
      steps := [];
      if row.alias !in state.sessions { return None, steps; }
      var session := state.sessions[row.alias];
      if !Linked(row, session) { return Some(OwnershipConflict), steps; }
      if session.model != e.model {
        var ok;
        ok, steps := Adjust(row, at, ModelIs(e.model));
        RanKeeps(start, steps, state, at);
        if !ok { return Some(SessionMissing), steps; }
      }
      if session.effort != e.effort {
        ghost var mid := state;
        var ok;
        ghost var more;
        ok, more := Adjust(row, at, EffortIs(e.effort));
        RanJoins(start, steps, mid, more, state, at);
        steps := steps + more;
        RanKeeps(start, steps, state, at);
        if !ok { return Some(SessionMissing), steps; }
      }
      error := None;
    }

    /**
     `assertGroupMemberReuseDispatchable`: the authorities are read behind the
     first await, under the state mutex, and the call goes on behind the second.
     */
    method PassFence(row: Binding, at: Scope) returns (refused: Option<RuntimeError>, ghost steps: seq<Step>)
      requires Wf(state) && row.id == at.Id() && LiveLink(state.sessions, row)
      modifies this
      ensures Wf(state) && Ran(old(state), steps, state, at) && |steps| > 0 && Idle(steps)
      ensures refused == Fence(steps[0].after, at)
      ensures TopicActive(state, at) ==> Keeps(old(state), state, row.id) && LiveLink(state.sessions, row)
    {
      ghost var start := state;
      steps := Await(at);
      ghost var fence := state;
      refused := Fence(state, at);
      LiveLinkSurvives(start, fence, at, row);
      if refused.None? {
        ghost var more := Await(at);
        RanJoins(start, steps, fence, more, state, at);
        steps := steps + more;
        LiveLinkSurvives(fence, state, at, row);
      }
    }

    /**
     The reuse path. Its first step is the await of the commit fence.
     `Success(None)` means that the live row was released because policy,
     worktree or a cleared effort ask for a new session.
     */
    method Reuse(row: Binding, at: Scope, e: Execution, req: Request, answers: Answers)
      returns (r: Result<Option<Binding>, RuntimeError>, ghost steps: seq<Step>)
      requires Wf(state) && row.id == at.Id() && ScopeOf(row) == at && row.scope == GroupMember
      requires row.id in state.bindings && state.bindings[row.id] == row
      requires LiveLink(state.sessions, row)
      modifies this
      ensures Wf(state) && Ran(old(state), steps, state, at)
      ensures |steps| > 0 && steps[0].effect == None && (r.Success? ==> Fence(steps[0].after, at) == None)
      ensures r == Failure(OwnershipConflict) ==> Idle(steps)
      ensures Only(steps, (x: Effect) => x.Adjusted? || x.Unbound? || (x.Released? && Outdated(x.session, e, req)))
      ensures r.Success? && r.value.Some? ==> Only(steps, (x: Effect) => x.Adjusted?)
      ensures r.Success? && r.value.None? ==> Only(steps, (x: Effect) => x.Unbound? || x.Released?)
      ensures r.Success? && r.value.Some? ==> r.value.value == row
      ensures r.Success? && r.value.Some? && TopicActive(state, at) ==> Serves(row, at, e, req)
    {
      ghost var start := state;
      var refused;
      refused, steps := PassFence(row, at);
      if refused.Some? { return Failure(refused.value), steps; }
      ghost var mid := state;
      var session: Option<Session> := None;
      if row.alias in state.sessions {
        session := Some(state.sessions[row.alias]);
      } else if Holders(state.sessions, row.logicalId) != {} {
        var holder :| holder in Holders(state.sessions, row.logicalId);
        session := Some(state.sessions[holder]);
      }
      var error;
      ghost var more;
      if session.Some? && Outdated(session.value, e, req) {
        error, more := ReleaseBinding(row, answers.releaseOk);
        r := if error.Some? then Failure(error.value) else Success(None);
      } else {
        error, more := Align(row, at, e);
        r := if error.Some? then Failure(error.value) else Success(Some(row));
      }
      RanKeeps(mid, more, state, at);
      RanJoins(start, steps, mid, more, state, at);
      steps := steps + more;
    }

    /** The row is stored, live, and carries what the turn asked for. */
    ghost predicate Serves(row: Binding, at: Scope, e: Execution, req: Request)
      reads this
    {
      at.Id() in state.bindings && state.bindings[at.Id()] == row && Ready(state, row, at, e, req)
    }

    /** The path without a reusable row: an owned session, then its publication. */
    method Bind(at: Scope, e: Execution, req: Request, answers: Answers, now: nat)
      returns (r: Result<Binding, RuntimeError>, ghost steps: seq<Step>, ghost fence: nat)
      requires Wf(state)
      modifies this
      ensures Wf(state) && Ran(old(state), steps, state, at)
      ensures r.Success? ==> FencedBy(steps, fence, at)
      ensures r.Success? ==> Fence(state, at) == None && Serves(r.value, at, e, req)
      ensures Binds(steps, e, req)
      ensures r.Failure? ==> Only(steps, (x: Effect) => !x.Published?)
    {
      ghost var start := state;
      fence := 0;
      var session;
      session, steps := EnsureOwned(at, e, req, answers);
      if session.Failure? { return Failure(session.error), steps, fence; }
      ghost var mid := state;
      ghost var more;
      r, more := Publish(session.value, at, now);
      fence := |steps| + 1;
      RanJoins(start, steps, mid, more, state, at);
      if r.Success? {
        assert (steps + more)[fence - 1] == more[0] && (steps + more)[fence..] == more[1..];
      }
      steps := steps + more;
      RanKeeps(start, steps, state, at);
    }

    /** The stored row with its live session; a row with no session on either axis is passed over. */
    function FindReusable(at: Scope): (r: Result<Option<Binding>, RuntimeError>)
      reads this
      ensures r.Failure? ==> r.error == OwnershipConflict
      ensures r.Success? && r.value.Some? ==>
        var row := r.value.value;
        && at.Id() in state.bindings && state.bindings[at.Id()] == row && row.scope == GroupMember
        && row.id == at.Id() && ScopeOf(row) == at && LiveLink(state.sessions, row)
    {
      var found := FindBinding(at);
      if found.Failure? || found.value.None? then found
      else if FullyMissing(state.sessions, found.value.value) then Success(None)
      else
        var live := IsLive(state.sessions, found.value.value, false);
        if live.Failure? then Failure(live.error) else found
    }

    /** The first half of a materialization: the live row, if there is one and it need not go. */
    method TryReuse(at: Scope, e: Execution, req: Request, answers: Answers)
      returns (r: Result<Option<Binding>, RuntimeError>, ghost steps: seq<Step>)
      requires Wf(state)
      modifies this
      ensures Wf(state) && Ran(old(state), steps, state, at)
      ensures r == Failure(OwnershipConflict) ==> Idle(steps)
      ensures Clears(steps, e, req)
      ensures r.Success? && r.value.Some? ==> FencedBy(steps, 1, at) && Only(steps, (x: Effect) => x.Adjusted?)
      ensures r.Success? && r.value.Some? && TopicActive(state, at) ==> Serves(r.value.value, at, e, req)
      ensures r.Success? && r.value.None? ==> Only(steps, (x: Effect) => !x.Adjusted?)
    {
      steps := [];
      var found := FindReusable(at);
      if found.Failure? { return Failure(found.error), steps; }
      if found.value.None? { return Success(None), steps; }
      r, steps := Reuse(found.value.value, at, e, req, answers);
    }

    /** The materialization with its execution resolved: reuse the live row, or bind a session. */
    method ReuseOrBind(at: Scope, e: Execution, req: Request, answers: Answers, now: nat)
      returns (r: Result<Binding, RuntimeError>, ghost steps: seq<Step>, ghost fence: nat)
      requires Wf(state)
      modifies this
      ensures Wf(state) && Ran(old(state), steps, state, at)
      ensures r.Success? ==> FencedBy(steps, fence, at)
      ensures r.Success? && TopicActive(state, at) ==> Serves(r.value, at, e, req)
      ensures r.Success? ==>
        Only(steps, (x: Effect) => x.Adjusted?) || (Fence(state, at) == None && Serves(r.value, at, e, req))
      ensures r.Failure? ==> Only(steps, (x: Effect) => !x.Published?)
      ensures Only(steps, (x: Effect) => x.Released? ==> Outdated(x.session, e, req))
      ensures r == Failure(OwnershipConflict) ==> Only(steps, (x: Effect) => x.Released? || x.Unbound? || x.Created?)
    {
      steps, fence := [], 0;
      ghost var start := state;
      var reused;
      reused, steps := TryReuse(at, e, req, answers);
      fence := 1;
      if reused.Failure? { return Failure(reused.error), steps, fence; }
      if reused.value.Some? { return Success(reused.value.value), steps, fence; }
      ghost var mid := state;
      ghost var more;
      ghost var later;
      r, more, later := Bind(at, e, req, answers, now);
      RanJoins(start, steps, mid, more, state, at);
      FencedLater(steps, more, later, at);
      ClearsThenBinds(steps, more, e, req);
      fence := |steps| + later;
      steps := steps + more;
    }

    /**
     `materializeGroupMemberSession`. As long as its Topic is still active, a
     returned row is stored and linked on both axes to one owned session that
     carries the model, effort, policy and worktree of the turn.

     `fence` counts the steps up to the commit fence: membership, an active Topic
     and an enabled Bot held there, right after an await, and only the
     publication or an alignment of the session came after it. Unless it reused a
     row, and wrote nothing but an alignment, the fence still holds at the return
     and the row is stored whatever the Topic.

     Every session it released was one of its own, alone under its logical id,
     and outdated for the turn. On a conflict it wrote nothing but such a
     release, with the row of the session, and a new session.
     */
    method Materialize(at: Scope, execution: Option<Execution>, req: Request, answers: Answers, now: nat)
      returns (r: Result<Binding, RuntimeError>, ghost steps: seq<Step>, ghost fence: nat)
      requires Wf(state)
      modifies this
      ensures Wf(state) && Ran(old(state), steps, state, at)
      ensures r.Success? ==> TurnExecution(old(state), at, execution).Some? && FencedBy(steps, fence, at)
      ensures r.Success? && TopicActive(state, at) ==>
        Serves(r.value, at, TurnExecution(old(state), at, execution).value, req)
      ensures r.Success? ==>
        || Only(steps, (x: Effect) => x.Adjusted?)
        || (Fence(state, at) == None && Serves(r.value, at, TurnExecution(old(state), at, execution).value, req))
      ensures r.Failure? ==> Only(steps, (x: Effect) => !x.Published?)
      ensures
        var e := TurnExecution(old(state), at, execution);
        if e.None? then r.Failure? && steps == []
        else Only(steps, (x: Effect) => x.Released? ==> Outdated(x.session, e.value, req))
      ensures r == Failure(OwnershipConflict) ==> Only(steps, (x: Effect) => x.Released? || x.Unbound? || x.Created?)
    {
      steps, fence := [], 0;
      var refused := ScopeError(state, at);
      if refused.Some? { return Failure(refused.value), steps, fence; }
      var effective := Effective(state, at, execution);
      if effective.Failure? { return Failure(effective.error), steps, fence; }
      r, steps, fence := ReuseOrBind(at, effective.value, req, answers, now);
    }
  }

  lemma SubsetSize<T>(a: set<T>, b: set<T>)
    requires a <= b
    ensures |a| <= |b|
  {
    assert b == a + (b - a);
  }
}