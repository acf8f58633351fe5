/**
 Controlled removal of one Bot (bot-removal-service.ts) write by write over two
 stores: the SQLite barrier, operation and dispatch rows, and the AppState
 removal record with the Bot's profile.

 Any number of `preview` and `remove` calls run beside each other. A call is cut
 at every store write, so a crash can fall between any two of them; a restart
 forgets the calls and runs the purge of the service constructor. Locals that
 the source captures before an await are carried in the program counter.

 Between two awaits a call runs alone: nobody but a crash interrupts it. An
 AppState write waits for the state mutex, which is taken in the order in which
 the writes were asked for.
 */
module RemovalProtocol {
  import opened Common
  import opened BotRemoval

  type Rec = Record<()>
  type DispatchId = nat
  type CallId = nat

  datatype OpPhase = OpRunning | OpFailed | OpIndeterminate | OpCompleted

  datatype Options = Options(clear: bool, release: bool)

  datatype OpRow = OpRow(phase: OpPhase, params: Option<Options>)

  /** What `assertRemovable` looks at, apart from the release option. */
  datatype Obstacles = Obstacles(inGroup: bool, residue: bool, worktree: bool, unsettledMember: bool, bindings: bool)

  datatype PreviewPc = PreviewStart | PreviewWrite(next: Rec) | PreviewDone

  datatype RemovePc =
    | Asked
    | WantsGate(o: Options, existing: Option<OpRow>)
    | Barred(o: Options, row: Option<OpRow>)
    | BeginWrite(o: Options, row: Option<OpRow>, next: Rec)
    | Begun(o: Options, row: Option<OpRow>)
    | Cleaning(o: Options)
    | Cancelled(o: Options)
    | Settled(o: Options)
    | WantsRetire
    | Retiring
    | RetireWrite(next: Rec)
    | RetireWritten
    | Failing(unknown: bool)
    | FailBarred(unknown: bool)
    | FailWrite(unknown: bool, next: Rec)
    | FailWritten(unknown: bool)
    | Finishing
    | FinishBarred
    | FinishWrite(next: Rec)
    | FinishWritten
    | Ended(ok: bool)

  datatype Call =
    | PreviewCall(at: PreviewPc)
    | RemoveCall(requestId: string, revision: string, options: Options, pc: RemovePc)

  /**
   `open` are the Bot's open dispatches, `revision` and `obstacles` the current
   facts; `writes` lists the calls whose AppState write waits for the state
   mutex. `drained` records that some cleanup found no open dispatch; no code
   reads it.
   */
  datatype State = State(
    barrier: Option<Phase>,
    record: Option<Rec>,
    profile: bool,
    ops: map<string, OpRow>,
    open: set<DispatchId>,
    revision: string,
    obstacles: Obstacles,
    gate: Option<CallId>,
    writes: seq<CallId>,
    calls: seq<Call>,
    drained: bool)

  const BOT := "bot"
  const NOW := "now"
  const INTERNAL := ErrorBody("internal", "")

  function OpOf(s: State, requestId: string): Option<OpRow>
  {
    if requestId in s.ops then Some(s.ops[requestId]) else None
  }

  function OperationId(requestId: string): string
  {
    "bot-remove:" + requestId
  }

  // ----- the operation row (lifecycle-operation.ts)

  function StartOp(row: Option<OpRow>, params: Option<Options>): OpRow
  {
    if row.Some? && (row.value.phase.OpCompleted? || row.value.phase.OpRunning?) then row.value
    else OpRow(OpRunning, if row.Some? && row.value.params.Some? then row.value.params else params)
  }

  function FailOp(row: OpRow, unknown: bool): OpRow
  {
    if row.phase.OpCompleted? || (!unknown && row.phase.OpIndeterminate?) then row
    else row.(phase := if unknown then OpIndeterminate else OpFailed)
  }

  /** Completing is refused without a row and for an indeterminate one. */
  function CompleteOp(row: Option<OpRow>): Option<OpRow>
  {
    if row.None? || row.value.phase.OpIndeterminate? then None else Some(row.value.(phase := OpCompleted))
  }

  // ----- the guards

  /** `assertAcceptsWork` throws: a barrier row exists, or the record is ahead of it. */
  predicate RefusesWork(s: State)
  {
    s.barrier.Some? || (s.record.Some? && Blocks(s.record.value.phase))
  }

  predicate IsRetired(s: State)
  {
    (s.record.Some? && s.record.value.phase == Retired) || s.barrier == Some(Retired)
  }

  predicate Removable(o: Obstacles, release: bool)
  {
    !o.inGroup && !o.residue && !o.worktree && !o.unsettledMember && (o.bindings ==> release)
  }

  function Tomb(): Tombstone<()>
  {
    Tombstone(BOT, "name", None, None, "agent", "workspace", NOW, None)
  }

  predicate Known(s: State)
  {
    s.profile || (s.record.Some? && s.record.value.tombstone.Some?)
  }

  // ----- one step of a call

  function SetCall(s: State, c: CallId, call: Call): State
    requires c < |s.calls|
  {
    s.(calls := s.calls[c := call])
  }

  function GoTo(s: State, c: CallId, pc: RemovePc): State
    requires c < |s.calls| && s.calls[c].RemoveCall?
  {
    SetCall(s, c, s.calls[c].(pc := pc))
  }

  /** The call asks for the state mutex. */
  function Join(s: State, c: CallId): State
  {
    s.(writes := s.writes + [c])
  }

  /** The write at the head of the queue is done. */
  function Done(s: State): State
  {
    s.(writes := if s.writes == [] then [] else s.writes[1..])
  }

  /** A step of one call leaves the others where they are. */
  predicate OnlyMoves(s: State, s': State, c: CallId)
  {
    |s'.calls| == |s.calls| && forall d :: 0 <= d < |s.calls| && d != c ==> s'.calls[d] == s.calls[d]
  }

  function PreviewStep(s: State, c: CallId): (s': State)
    requires c < |s.calls| && s.calls[c].PreviewCall?
    ensures OnlyMoves(s, s', c)
  {
    match s.calls[c].at
    case PreviewStart =>
      if !Known(s) || (s.record.Some? && s.record.value.phase != Previewed) then SetCall(s, c, PreviewCall(PreviewDone))
      else
        var next := Transition(s.record, BOT, Preview(s.revision, NOW));
        if next.Failure? then SetCall(s, c, PreviewCall(PreviewDone))
        else Join(SetCall(s, c, PreviewCall(PreviewWrite(next.value))), c)
    case PreviewWrite(next) => Done(SetCall(s, c, PreviewCall(PreviewDone))).(record := Some(next))
    case PreviewDone => s
  }

  /** `remove` up to its first await. */
  function AskStep(s: State, c: CallId): (s': State)
    requires c < |s.calls| && s.calls[c].RemoveCall?
    ensures OnlyMoves(s, s', c)
  {
    var call := s.calls[c];
    var existing := OpOf(s, call.requestId);
    if !Known(s) then GoTo(s, c, Ended(false))
    else if existing.Some? && existing.value.phase.OpCompleted? then GoTo(s, c, Ended(true))
    else if IsRetired(s) then
      if s.record.Some? && Truthy(s.record.value.requestId) && s.record.value.requestId != Some(call.requestId)
      then GoTo(s, c, Ended(false))
      else GoTo(s, c, Finishing)
    else
      var o := if existing.Some? && existing.value.params.Some? then existing.value.params.value else call.options;
      GoTo(s, c, WantsGate(o, existing))
  }

  /** The begin section: barrier, record, operation row, in this order, under the Bot's gate. */
  function BeginStep(s: State, c: CallId): (s': State)
    requires c < |s.calls| && s.calls[c].RemoveCall?
    requires var pc := s.calls[c].pc; pc.WantsGate? || pc.Barred? || pc.BeginWrite? || pc.Begun?
    ensures OnlyMoves(s, s', c)
  {
    var call := s.calls[c];
    match call.pc
    case WantsGate(o, existing) =>
      var row := OpOf(s, call.requestId);
      if (row.None? && s.revision != call.revision) || !Removable(s.obstacles, o.release) then GoTo(s, c, Ended(false))
      else
        GoTo(s, c, Barred(o, if row.Some? then row else existing))
        .(barrier := Some(Deleting), gate := Some(c))
    case Barred(o, row) =>
      var next := Transition(s.record, BOT,
        Begin(OperationId(call.requestId), call.requestId, call.revision, o.clear, o.release, NOW));
      if next.Failure? then GoTo(s, c, Ended(false)).(gate := None)
      else Join(GoTo(s, c, BeginWrite(o, row, next.value)), c)
    case BeginWrite(o, row, next) => Done(GoTo(s, c, Begun(o, row))).(record := Some(next))
    case Begun(o, row) =>
      GoTo(s, c, Cleaning(o)).(ops := s.ops[call.requestId := StartOp(row, Some(o))], gate := None)
  }

  datatype Outcome = Fine | UnknownWork | Broken

  /** The cleanup. Cancelling leaves some of the open dispatches and may fail either way. */
  function CleanStep(s: State, c: CallId, outcome: Outcome, left: set<DispatchId>): (s': State)
    requires c < |s.calls| && s.calls[c].RemoveCall?
    requires var pc := s.calls[c].pc; pc.Cleaning? || pc.Cancelled? || pc.Settled?
    requires left <= s.open
    ensures OnlyMoves(s, s', c)
  {
    match s.calls[c].pc
    case Cleaning(o) =>
      var s' := s.(open := left);
      if outcome == UnknownWork then GoTo(s', c, Failing(true))
      else if outcome == Broken then GoTo(s', c, Failing(false))
      else GoTo(s', c, Cancelled(o))
    case Cancelled(o) =>
      if s.open != {} then GoTo(s, c, Failing(false)) else GoTo(s, c, Settled(o)).(drained := true)
    case Settled(_) => GoTo(s, c, if outcome == Fine then WantsRetire else Failing(false))
  }

  /** The retire section, again under the gate. */
  function RetireStep(s: State, c: CallId): (s': State)
    requires c < |s.calls| && s.calls[c].RemoveCall?
    requires var pc := s.calls[c].pc; pc.WantsRetire? || pc.Retiring? || pc.RetireWrite? || pc.RetireWritten?
    ensures OnlyMoves(s, s', c)
  {
    var call := s.calls[c];
    match call.pc
    case WantsRetire =>
      if !s.profile then GoTo(s, c, Failing(false))
      else GoTo(s, c, Retiring).(barrier := Some(Retired), gate := Some(c))
    case Retiring =>
      var next := Transition(s.record, BOT, Retire(Tomb(), NOW));
      if next.Failure? then GoTo(s, c, Failing(false)).(gate := None)
      else Join(GoTo(s, c, RetireWrite(next.value)), c)
    case RetireWrite(next) => Done(GoTo(s, c, RetireWritten)).(record := Some(next), profile := false)
    case RetireWritten =>
      var row := CompleteOp(OpOf(s, call.requestId));
      if row.None? then GoTo(s, c, Failing(false)).(gate := None)
      else GoTo(s, c, Ended(true)).(ops := s.ops[call.requestId := row.value], gate := None)
  }

  /** `noteFailure`: it rewrites the barrier phase whatever it was. */
  function FailStep(s: State, c: CallId): (s': State)
    requires c < |s.calls| && s.calls[c].RemoveCall?
    requires var pc := s.calls[c].pc; pc.Failing? || pc.FailBarred? || pc.FailWrite? || pc.FailWritten?
    ensures OnlyMoves(s, s', c)
  {
    var call := s.calls[c];
    match call.pc
    case Failing(unknown) =>
      GoTo(s, c, FailBarred(unknown)).(barrier := Some(if unknown then Indeterminate else Deleting))
    case FailBarred(unknown) =>
      if s.record.None? || !Blocks(s.record.value.phase) then GoTo(s, c, FailWritten(unknown))
      else
        var next := Transition(s.record, BOT, if unknown then MarkIndeterminate(INTERNAL, NOW) else Fail(INTERNAL, NOW));
        if next.Failure? then GoTo(s, c, Ended(false)) else Join(GoTo(s, c, FailWrite(unknown, next.value)), c)
    case FailWrite(unknown, next) => Done(GoTo(s, c, FailWritten(unknown))).(record := Some(next))
    case FailWritten(unknown) =>
      var s' := if call.requestId in s.ops
                then s.(ops := s.ops[call.requestId := FailOp(s.ops[call.requestId], unknown)]) else s;
      GoTo(s', c, Ended(false))
  }

  /** `finishRetired`, which runs outside the gate. */
  function FinishStep(s: State, c: CallId): (s': State)
    requires c < |s.calls| && s.calls[c].RemoveCall?
    requires var pc := s.calls[c].pc; pc.Finishing? || pc.FinishBarred? || pc.FinishWrite? || pc.FinishWritten?
    ensures OnlyMoves(s, s', c)
  {
    var call := s.calls[c];
    match call.pc
    case Finishing => GoTo(s, c, FinishBarred).(barrier := Some(Retired))
    case FinishBarred =>
      if !s.profile then GoTo(s, c, FinishWritten)
      else
        var next := Transition(s.record, BOT, Retire(Tomb(), NOW));
        if next.Failure? then GoTo(s, c, Ended(false)) else Join(GoTo(s, c, FinishWrite(next.value)), c)
    case FinishWrite(next) => Done(GoTo(s, c, FinishWritten)).(record := Some(next), profile := false)
    case FinishWritten =>
      var row := CompleteOp(Some(StartOp(OpOf(s, call.requestId), None)));
      if row.None? then GoTo(s, c, Ended(false))
      else GoTo(s, c, Ended(true)).(ops := s.ops[call.requestId := row.value])
  }

  datatype Action =
    | NewPreview
    | NewRemove(requestId: string, revision: string, options: Options)
    | Advance(c: CallId, outcome: Outcome, left: set<DispatchId>)
    | Accept(d: DispatchId)
    | Settle(d: DispatchId)
    | FactsChange(revision: string, obstacles: Obstacles)
    | Crash

  predicate WaitsForGate(pc: RemovePc)
  {
    pc.WantsGate? || pc.WantsRetire?
  }

  predicate WaitsForMutex(call: Call)
  {
    match call
    case PreviewCall(at) => at.PreviewWrite?
    case RemoveCall(_, _, _, pc) => pc.BeginWrite? || pc.RetireWrite? || pc.FailWrite? || pc.FinishWrite?
  }

  /** Between a barrier write and the next await of its call, or on the way there. */
  predicate MidTurn(call: Call)
  {
    call.RemoveCall? && var pc := call.pc;
    pc.Barred? || pc.Retiring? || pc.FailBarred? || pc.Finishing? || pc.FinishBarred?
  }

  /** Nobody but `c`, if anybody, is in the middle of its turn. */
  predicate TurnFree(s: State, c: CallId)
  {
    forall d :: 0 <= d < |s.calls| && d != c ==> !MidTurn(s.calls[d])
  }

  predicate Enabled(s: State, a: Action)
  {
    match a
    case Advance(c, _, left) =>
      && c < |s.calls| && left <= s.open && TurnFree(s, c)
      && (s.calls[c].RemoveCall? && WaitsForGate(s.calls[c].pc) ==> s.gate.None?)
      && (WaitsForMutex(s.calls[c]) ==> [c] <= s.writes)
    case Accept(_) => s.profile && !RefusesWork(s) && TurnFree(s, |s.calls|)
    case Crash => true
    case _ => TurnFree(s, |s.calls|)
  }

  function AdvanceStep(s: State, c: CallId, outcome: Outcome, left: set<DispatchId>): (s': State)
    requires c < |s.calls| && left <= s.open
    ensures OnlyMoves(s, s', c)
  {
    match s.calls[c]
    case PreviewCall(_) => PreviewStep(s, c)
    case RemoveCall(_, _, _, pc) =>
      if pc.Asked? then AskStep(s, c)
      else if pc.WantsGate? || pc.Barred? || pc.BeginWrite? || pc.Begun? then BeginStep(s, c)
      else if pc.Cleaning? || pc.Cancelled? || pc.Settled? then CleanStep(s, c, outcome, left)
      else if pc.WantsRetire? || pc.Retiring? || pc.RetireWrite? || pc.RetireWritten? then RetireStep(s, c)
      else if pc.Failing? || pc.FailBarred? || pc.FailWrite? || pc.FailWritten? then FailStep(s, c)
      else if pc.Ended? then s
      else FinishStep(s, c)
  }

  /** The service constructor drops retired records. */
  function Purged(record: Option<Rec>): Option<Rec>
  {
    if record.Some? && record.value.phase == Retired then None else record
  }

  function Apply(s: State, a: Action): State
    requires Enabled(s, a)
  {
    match a
    case NewPreview => s.(calls := s.calls + [PreviewCall(PreviewStart)])
    case NewRemove(requestId, revision, options) =>
      s.(calls := s.calls + [RemoveCall(requestId, revision, options, Asked)])
    case Advance(c, outcome, left) => AdvanceStep(s, c, outcome, left)
    case Accept(d) => s.(open := s.open + {d})
    case Settle(d) => s.(open := s.open - {d})
    case FactsChange(revision, obstacles) => s.(revision := revision, obstacles := obstacles)
    case Crash => s.(calls := [], gate := None, writes := [], record := Purged(s.record))
  }

  const NoObstacles := Obstacles(false, false, false, false, false)
  const Initial := State(None, None, true, map[], {}, "r", NoObstacles, None, [], [], false)

  ghost predicate Next(s: State, s': State)
  {
    exists a :: Enabled(s, a) && s' == Apply(s, a)
  }

  /** Consecutive states of some run. */
  ghost predicate Path(run: seq<State>)
  {
    |run| > 0 && forall i :: 0 <= i < |run| - 1 ==> Next(run[i], run[i + 1])
  }

  ghost predicate IsRun(run: seq<State>)
  {
    Path(run) && run[0] == Initial
  }

  // ----- the invariant

  ghost predicate PendingOk(s: State, next: Rec)
  {
    && (Blocks(next.phase) ==> s.barrier.Some?)
    && (next.phase == Retired ==> s.drained && !s.profile)
    && (next.tombstone.Some? ==> next.phase == Retired)
  }

  /** No operation is completed before the profile is gone. */
  ghost predicate RowOk(s: State, row: Option<OpRow>)
  {
    row.Some? && row.value.phase.OpCompleted? ==> !s.profile
  }

  ghost predicate CallOk(s: State, call: Call)
  {
    match call
    case PreviewCall(PreviewWrite(next)) => next.phase == Previewed && PendingOk(s, next)
    case PreviewCall(_) => true
    case RemoveCall(_, _, _, pc) =>
      match pc
      case Asked => true
      case WantsGate(_, row) => RowOk(s, row)
      case Barred(_, row) => s.barrier.Some? && RowOk(s, row)
      case BeginWrite(_, row, next) => s.barrier.Some? && RowOk(s, row) && PendingOk(s, next)
      case Begun(_, row) => s.barrier.Some? && RowOk(s, row)
      case Settled(_) => s.drained
      case WantsRetire => s.drained
      case Retiring => s.drained
      case RetireWrite(next) => s.drained && next.phase == Retired
      case RetireWritten => s.drained && !s.profile
      case FailWrite(_, next) => s.barrier.Some? && PendingOk(s, next)
      case Finishing => s.drained
      case FinishBarred => s.drained
      case FinishWrite(next) => s.drained && next.phase == Retired
      case FinishWritten => s.drained && !s.profile
      case Ended(_) => true
      case _ => s.barrier.Some?
  }

  /** The invariant without the calls. */
  ghost predicate StoresOk(s: State)
  {
    && (s.record.Some? ==> PendingOk(s, s.record.value))
    && (!s.profile ==> s.drained)
    && (s.drained ==> s.barrier.Some? && s.open == {})
    && (s.barrier == Some(Retired) ==> s.drained)
    && (forall r :: r in s.ops ==> RowOk(s, Some(s.ops[r])))
  }

  /** The gate and the mutex belong to calls that are still there. */
  ghost predicate QueuesOk(s: State)
  {
    && (s.gate.Some? ==> s.gate.value < |s.calls|)
    && (forall c :: c in s.writes ==> c < |s.calls|)
  }

  ghost predicate Inv(s: State)
  {
    StoresOk(s) && QueuesOk(s) && forall c :: 0 <= c < |s.calls| ==> CallOk(s, s.calls[c])
  }

  /** What one step may do to the facts the other calls rely on. */
  ghost predicate Grows(s: State, s': State)
  {
    && (s.barrier.Some? ==> s'.barrier.Some? && s'.open <= s.open)
    && (s.drained ==> s'.drained)
    && (!s.profile ==> !s'.profile)
    && (s.profile && !s'.profile ==> s.drained && s'.record.Some? && s'.record.value.phase == Retired)
  }

  /** What one step may do to the queue of the mutex. */
  predicate QueueMoves(s: State, s': State, c: CallId)
  {
    s'.writes == s.writes || s'.writes == s.writes + [c] || s'.writes == Done(s).writes
  }

  lemma QueueMovesOk(s: State, s': State, c: CallId)
    requires QueuesOk(s) && QueueMoves(s, s', c) && c < |s.calls|
    ensures forall d :: d in s'.writes ==> d < |s.calls|
  {
    forall d | d in s'.writes ensures d < |s.calls| {
      var i :| 0 <= i < |s'.writes| && s'.writes[i] == d;
      if s'.writes == s.writes + [c] {
        assert d == c || d in s.writes;
      } else if s'.writes != s.writes {
        assert s.writes[i + 1] in s.writes;
      }
    }
  }

  lemma CallMoves(s: State, s': State, c: CallId)
    requires Inv(s) && Grows(s, s') && StoresOk(s') && c < |s.calls|
    requires QueueMoves(s, s', c) && (s'.gate.Some? ==> s'.gate.value < |s.calls|)
    requires OnlyMoves(s, s', c) && CallOk(s', s'.calls[c])
    ensures Inv(s')
  {
    QueueMovesOk(s, s', c);
    forall d | 0 <= d < |s'.calls| ensures CallOk(s', s'.calls[d]) {
      if d != c {
        assert CallOk(s, s.calls[d]);
      }
    }
  }

  lemma PreviewKeepsInv(s: State, c: CallId)
    requires Inv(s) && c < |s.calls| && s.calls[c].PreviewCall?
    ensures Inv(PreviewStep(s, c)) && Grows(s, PreviewStep(s, c))
  {
    assert CallOk(s, s.calls[c]);
    CallMoves(s, PreviewStep(s, c), c);
  }

  lemma AskKeepsInv(s: State, c: CallId)
    requires Inv(s) && c < |s.calls| && s.calls[c].RemoveCall? && s.calls[c].pc.Asked?
    ensures Inv(AskStep(s, c)) && Grows(s, AskStep(s, c))
  {
    CallMoves(s, AskStep(s, c), c);
  }

  lemma BeginKeepsInv(s: State, c: CallId)
    requires Inv(s) && c < |s.calls| && s.calls[c].RemoveCall?
    requires var pc := s.calls[c].pc; pc.WantsGate? || pc.Barred? || pc.BeginWrite? || pc.Begun?
    ensures Inv(BeginStep(s, c)) && Grows(s, BeginStep(s, c))
  {
    var pc := s.calls[c].pc;
    if pc.WantsGate? {
      EnterKeepsInv(s, c);
    } else if pc.Barred? {
      BarredKeepsInv(s, c);
    } else {
      BegunKeepsInv(s, c);
    }
  }

  lemma EnterKeepsInv(s: State, c: CallId)
    requires Inv(s) && c < |s.calls| && s.calls[c].RemoveCall? && s.calls[c].pc.WantsGate?
    ensures Inv(BeginStep(s, c)) && Grows(s, BeginStep(s, c))
  {
    assert CallOk(s, s.calls[c]);
    CallMoves(s, BeginStep(s, c), c);
  }

  lemma BarredKeepsInv(s: State, c: CallId)
    requires Inv(s) && c < |s.calls| && s.calls[c].RemoveCall? && s.calls[c].pc.Barred?
    ensures Inv(BeginStep(s, c)) && Grows(s, BeginStep(s, c))
  {
    assert CallOk(s, s.calls[c]);
    CallMoves(s, BeginStep(s, c), c);
  }

  lemma BegunKeepsInv(s: State, c: CallId)
    requires Inv(s) && c < |s.calls| && s.calls[c].RemoveCall? && (s.calls[c].pc.BeginWrite? || s.calls[c].pc.Begun?)
    ensures Inv(BeginStep(s, c)) && Grows(s, BeginStep(s, c))
  {
    assert CallOk(s, s.calls[c]);
    CallMoves(s, BeginStep(s, c), c);
  }

  lemma CleanKeepsInv(s: State, c: CallId, outcome: Outcome, left: set<DispatchId>)
    requires Inv(s) && c < |s.calls| && s.calls[c].RemoveCall? && left <= s.open
    requires var pc := s.calls[c].pc; pc.Cleaning? || pc.Cancelled? || pc.Settled?
    ensures Inv(CleanStep(s, c, outcome, left)) && Grows(s, CleanStep(s, c, outcome, left))
  {
    assert CallOk(s, s.calls[c]);
    CallMoves(s, CleanStep(s, c, outcome, left), c);
  }

  lemma RetireKeepsInv(s: State, c: CallId)
    requires Inv(s) && c < |s.calls| && s.calls[c].RemoveCall?
    requires var pc := s.calls[c].pc; pc.WantsRetire? || pc.Retiring? || pc.RetireWrite? || pc.RetireWritten?
    ensures Inv(RetireStep(s, c)) && Grows(s, RetireStep(s, c))
  {
    var pc := s.calls[c].pc;
    if pc.WantsRetire? || pc.Retiring? {
      RetiringKeepsInv(s, c);
    } else {
      RetiredKeepsInv(s, c);
    }
  }

  lemma RetiringKeepsInv(s: State, c: CallId)
    requires Inv(s) && c < |s.calls| && s.calls[c].RemoveCall? && (s.calls[c].pc.WantsRetire? || s.calls[c].pc.Retiring?)
    ensures Inv(RetireStep(s, c)) && Grows(s, RetireStep(s, c))
  {
    assert CallOk(s, s.calls[c]);
    CallMoves(s, RetireStep(s, c), c);
  }

  lemma RetiredKeepsInv(s: State, c: CallId)
    requires Inv(s) && c < |s.calls| && s.calls[c].RemoveCall?
    requires s.calls[c].pc.RetireWrite? || s.calls[c].pc.RetireWritten?
    ensures Inv(RetireStep(s, c)) && Grows(s, RetireStep(s, c))
  {
    assert CallOk(s, s.calls[c]);
    CallMoves(s, RetireStep(s, c), c);
  }

  lemma FailKeepsInv(s: State, c: CallId)
    requires Inv(s) && c < |s.calls| && s.calls[c].RemoveCall?
    requires var pc := s.calls[c].pc; pc.Failing? || pc.FailBarred? || pc.FailWrite? || pc.FailWritten?
    ensures Inv(FailStep(s, c)) && Grows(s, FailStep(s, c))
  {
    var pc := s.calls[c].pc;
    if pc.Failing? || pc.FailBarred? {
      FailingKeepsInv(s, c);
    } else {
      FailedKeepsInv(s, c);
    }
  }

  lemma FailingKeepsInv(s: State, c: CallId)
    requires Inv(s) && c < |s.calls| && s.calls[c].RemoveCall? && (s.calls[c].pc.Failing? || s.calls[c].pc.FailBarred?)
    ensures Inv(FailStep(s, c)) && Grows(s, FailStep(s, c))
  {
    assert CallOk(s, s.calls[c]);
    CallMoves(s, FailStep(s, c), c);
  }

  lemma FailedKeepsInv(s: State, c: CallId)
    requires Inv(s) && c < |s.calls| && s.calls[c].RemoveCall? && (s.calls[c].pc.FailWrite? || s.calls[c].pc.FailWritten?)
    ensures Inv(FailStep(s, c)) && Grows(s, FailStep(s, c))
  {
    assert CallOk(s, s.calls[c]);
    CallMoves(s, FailStep(s, c), c);
  }

  lemma FinishKeepsInv(s: State, c: CallId)
    requires Inv(s) && c < |s.calls| && s.calls[c].RemoveCall?
    requires var pc := s.calls[c].pc; pc.Finishing? || pc.FinishBarred? || pc.FinishWrite? || pc.FinishWritten?
    ensures Inv(FinishStep(s, c)) && Grows(s, FinishStep(s, c))
  {
    var pc := s.calls[c].pc;
    if pc.Finishing? || pc.FinishBarred? {
      FinishingKeepsInv(s, c);
    } else {
      FinishedKeepsInv(s, c);
    }
  }

  lemma FinishingKeepsInv(s: State, c: CallId)
    requires Inv(s) && c < |s.calls| && s.calls[c].RemoveCall?
    requires s.calls[c].pc.Finishing? || s.calls[c].pc.FinishBarred?
    ensures Inv(FinishStep(s, c)) && Grows(s, FinishStep(s, c))
  {
    assert CallOk(s, s.calls[c]);
    CallMoves(s, FinishStep(s, c), c);
  }

  lemma FinishedKeepsInv(s: State, c: CallId)
    requires Inv(s) && c < |s.calls| && s.calls[c].RemoveCall?
    requires s.calls[c].pc.FinishWrite? || s.calls[c].pc.FinishWritten?
    ensures Inv(FinishStep(s, c)) && Grows(s, FinishStep(s, c))
  {
    assert CallOk(s, s.calls[c]);
    CallMoves(s, FinishStep(s, c), c);
  }

  lemma AdvanceKeepsInv(s: State, c: CallId, outcome: Outcome, left: set<DispatchId>)
    requires Inv(s) && Enabled(s, Advance(c, outcome, left))
    ensures Inv(AdvanceStep(s, c, outcome, left)) && Grows(s, AdvanceStep(s, c, outcome, left))
  {
    if s.calls[c].PreviewCall? {
      PreviewKeepsInv(s, c);
    } else {
      var pc := s.calls[c].pc;
      if pc.Asked? {
        AskKeepsInv(s, c);
      } else if pc.WantsGate? || pc.Barred? || pc.BeginWrite? || pc.Begun? {
        BeginKeepsInv(s, c);
      } else if pc.Cleaning? || pc.Cancelled? || pc.Settled? {
        CleanKeepsInv(s, c, outcome, left);
      } else if pc.WantsRetire? || pc.Retiring? || pc.RetireWrite? || pc.RetireWritten? {
        RetireKeepsInv(s, c);
      } else if pc.Failing? || pc.FailBarred? || pc.FailWrite? || pc.FailWritten? {
        FailKeepsInv(s, c);
      } else if !pc.Ended? {
        FinishKeepsInv(s, c);
      }
    }
  }

  lemma OtherActionsKeepInv(s: State, a: Action)
    requires Inv(s) && Enabled(s, a) && !a.Advance?
    ensures Inv(Apply(s, a)) && Grows(s, Apply(s, a))
  {
    var s' := Apply(s, a);
    if !a.Crash? {
      forall d | 0 <= d < |s'.calls| ensures CallOk(s', s'.calls[d]) {
        if d < |s.calls| {
          assert CallOk(s, s.calls[d]);
        }
      }
    }
  }

  lemma NextKeepsInv(s: State, s': State)
    requires Inv(s) && Next(s, s')
    ensures Inv(s') && Grows(s, s')
  {
    var a :| Enabled(s, a) && s' == Apply(s, a);
    if a.Advance? {
      AdvanceKeepsInv(s, a.c, a.outcome, a.left);
    } else {
      OtherActionsKeepInv(s, a);
    }
  }

  lemma {:induction false} RunInv(run: seq<State>, i: nat)
    requires IsRun(run) && i < |run|
    ensures Inv(run[i])
  {
    if i > 0 {
      RunInv(run, i - 1);
      assert Next(run[i - 1], run[i]);
      NextKeepsInv(run[i - 1], run[i]);
    }
  }

  // ----- main results

  /** Where AppState blocks work, SQLite already does: the repair of `blockingRemovalPhase` has nothing to repair. */
  lemma AppStateNeverAhead(run: seq<State>, i: nat)
    requires IsRun(run) && i < |run|
    ensures run[i].record.Some? && Blocks(run[i].record.value.phase) ==> run[i].barrier.Some?
    ensures RefusesWork(run[i]) <==> run[i].barrier.Some?
  {
    RunInv(run, i);
  }

  /** Once a barrier is down in `s`, `t` refuses work, opens nothing new, and stays drained if `s` was. */
  ghost predicate HeldSince(s: State, t: State)
  {
    && RefusesWork(t) && t.barrier.Some?
    && t.open <= s.open
    && (s.drained ==> t.drained && t.open == {})
  }

  /** Every step of the run is one the other calls can rely on. */
  ghost predicate GrowsAlong(run: seq<State>)
  {
    && (forall i :: 0 <= i < |run| ==> StoresOk(run[i]))
    && (forall i :: 0 <= i < |run| - 1 ==> Grows(run[i], run[i + 1]))
  }

  lemma RunGrows(run: seq<State>)
    requires IsRun(run)
    ensures GrowsAlong(run)
  {
    forall i | 0 <= i < |run| ensures StoresOk(run[i]) {
      RunInv(run, i);
    }
    forall i | 0 <= i < |run| - 1 ensures Grows(run[i], run[i + 1]) {
      RunInv(run, i);
      NextKeepsInv(run[i], run[i + 1]);
    }
  }

  lemma {:induction false} HeldAlong(run: seq<State>, i: nat, j: nat)
    requires GrowsAlong(run) && i <= j < |run| && run[i].barrier.Some?
    ensures HeldSince(run[i], run[j])
  {
    if i < j {
      HeldAlong(run, i, j - 1);
      assert Grows(run[j - 1], run[j]);
    }
  }

  /**
   From the first barrier write on, in every later state of every run, work is
   refused; so the open dispatches only shrink, and once a cleanup found none
   there is none again.
   */
  lemma BarrierHolds(run: seq<State>, i: nat, j: nat)
    requires IsRun(run) && i <= j < |run| && run[i].barrier.Some?
    ensures HeldSince(run[i], run[j])
  {
    RunGrows(run);
    HeldAlong(run, i, j);
  }

  /** The profile is gone only behind a barrier and after a cleanup that found no open dispatch. */
  lemma ProfileDropsAfterCleanup(run: seq<State>, i: nat)
    requires IsRun(run) && i < |run| && !run[i].profile
    ensures run[i].drained && run[i].open == {} && run[i].barrier.Some? && RefusesWork(run[i])
    ensures !Enabled(run[i], Accept(0))
  {
    RunInv(run, i);
  }

  /** Only two writes drop it, and both run behind the barrier with nothing open. */
  lemma DropStepIsGuarded(run: seq<State>, i: nat)
    requires IsRun(run) && i + 1 < |run| && run[i].profile && !run[i + 1].profile
    ensures run[i].barrier.Some? && run[i].open == {} && run[i].drained
    ensures run[i + 1].record.Some? && run[i + 1].record.value.phase == Retired
  {
    RunInv(run, i);
    assert Next(run[i], run[i + 1]);
    NextKeepsInv(run[i], run[i + 1]);
  }

  // ----- when a removal can still end

  /** The guard of the retire transition: it accepts a `deleting` record, and a retired one as it is. */
  predicate RefusesRetire(record: Option<Rec>)
  {
    record.None? || record.value.phase == Previewed || record.value.phase == Indeterminate
  }

  /** The retire barrier is down, the profile is still there, and the record cannot be retired. */
  predicate Stuck(s: State)
  {
    s.barrier == Some(Retired) && s.profile && RefusesRetire(s.record)
  }

  /** Stuck, and no call is left that could still change that. */
  ghost predicate Stranded(s: State)
  {
    Stuck(s) && forall c :: 0 <= c < |s.calls| ==> StrandedCall(s.calls[c])
  }

  ghost predicate StrandedCall(call: Call)
  {
    match call
    case PreviewCall(PreviewWrite(next)) => next.phase == Previewed
    case PreviewCall(_) => true
    case RemoveCall(_, _, _, pc) => pc.Asked? || pc.Finishing? || pc.FinishBarred? || pc.Ended?
  }

  /** What one step of a stranded state may do. */
  ghost predicate StaysStranded(s: State, s': State, c: CallId)
    requires c < |s'.calls|
  {
    Stuck(s') && StrandedCall(s'.calls[c]) && s'.ops == s.ops
  }

  lemma PreviewStranded(s: State, c: CallId)
    requires Stuck(s) && c < |s.calls| && s.calls[c].PreviewCall? && StrandedCall(s.calls[c])
    ensures StaysStranded(s, PreviewStep(s, c), c)
  {}

  lemma AskStranded(s: State, c: CallId)
    requires Stuck(s) && c < |s.calls| && s.calls[c].RemoveCall? && s.calls[c].pc.Asked?
    ensures StaysStranded(s, AskStep(s, c), c)
  {}

  lemma FinishStranded(s: State, c: CallId)
    requires Stuck(s) && c < |s.calls| && s.calls[c].RemoveCall? && (s.calls[c].pc.Finishing? || s.calls[c].pc.FinishBarred?)
    ensures StaysStranded(s, FinishStep(s, c), c)
  {}

  lemma StrandedAdvance(s: State, c: CallId, outcome: Outcome, left: set<DispatchId>)
    requires Stuck(s) && c < |s.calls| && left <= s.open && StrandedCall(s.calls[c])
    ensures StaysStranded(s, AdvanceStep(s, c, outcome, left), c)
  {
    match s.calls[c]
    case PreviewCall(_) => PreviewStranded(s, c);
    case RemoveCall(_, _, _, pc) =>
      if pc.Asked? {
        AskStranded(s, c);
      } else if !pc.Ended? {
        FinishStranded(s, c);
      }
  }

  lemma StrandedStep(s: State, s': State)
    requires Stranded(s) && Next(s, s')
    ensures Stranded(s') && s'.ops == s.ops
  {
    var a :| Enabled(s, a) && s' == Apply(s, a);
    if a.Advance? {
      StrandedAdvance(s, a.c, a.outcome, a.left);
    } else if !a.Crash? {
      assert forall d :: 0 <= d < |s.calls| ==> s'.calls[d] == s.calls[d];
    }
  }

  /** A stranded Bot stays so whatever happens: it is blocked for work and keeps its profile. */
  lemma {:induction false} StrandedForever(path: seq<State>, i: nat)
    requires Path(path) && Stranded(path[0]) && i < |path|
    ensures Stranded(path[i]) && RefusesWork(path[i]) && path[i].profile
  {
    if i > 0 {
      StrandedForever(path, i - 1);
      assert Next(path[i - 1], path[i]);
      StrandedStep(path[i - 1], path[i]);
    }
  }

  /** One more step, to a state that is spelled out. */
  lemma Extend(path: seq<State>, a: Action, next: State) returns (longer: seq<State>)
    requires Path(path) && Enabled(path[|path| - 1], a) && Apply(path[|path| - 1], a) == next
    ensures Path(longer) && path <= longer && longer[0] == path[0] && longer[|longer| - 1] == next
  {
    longer := path + [next];
    forall i | 0 <= i < |longer| - 1 ensures Next(longer[i], longer[i + 1]) {
      if i < |path| - 1 {
        assert Next(path[i], path[i + 1]);
      }
    }
  }

  const PLAIN := Options(false, false)
  const ALONE := Advance(0, Fine, {})

  /** `s` with one remove call and nothing else going on. */
  function Solo(s: State, requestId: string, pc: RemovePc): State
  {
    s.(calls := [RemoveCall(requestId, s.revision, PLAIN, pc)])
  }

  /** Some continuation drops the profile. */
  ghost predicate CanEnd(s: State)
  {
    exists path: seq<State> :: Path(path) && path[0] == s && !path[|path| - 1].profile
  }

  predicate Completed(s: State, q: string)
  {
    q in s.ops && s.ops[q].phase.OpCompleted?
  }

  /** Some continuation completes the operation of request `q`. */
  ghost predicate CanComplete(s: State, q: string)
  {
    exists path: seq<State> :: Path(path) && path[0] == s && Completed(path[|path| - 1], q)
  }

  /** The record blocks work in the name of another request. */
  predicate Taken(record: Option<Rec>, q: string)
  {
    record.Some? && Blocks(record.value.phase) && Truthy(record.value.requestId) && record.value.requestId != Some(q)
  }

  /** A request that the record has room for: the recorded one, if it names one. */
  function RequestToRepeat(s: State): (q: string)
    ensures !Taken(s.record, q)
  {
    if s.record.Some? && s.record.value.requestId.Some? then s.record.value.requestId.value else ""
  }

  /** At rest: no call, no gate taken, no write waiting; and what the invariant says of such a state. */
  ghost predicate AtRest(s: State)
  {
    && s.calls == [] && s.gate == None && s.writes == [] && s.profile
    && (s.record.Some? ==> s.record.value.phase != Retired)
    && forall r :: !Completed(s, r)
  }

  lemma RestOfInv(s: State)
    requires Inv(s) && s.calls == [] && s.profile
    ensures AtRest(s)
  {
    if s.writes != [] {
      HasElement(s.writes);
    }
    assert forall r :: r in s.ops ==> RowOk(s, Some(s.ops[r]));
  }

  lemma HasElement(q: seq<CallId>)
    requires q != []
    ensures exists c :: c in q
  {
    assert q[0] in q;
  }

  /** A path of the state from here to an ended removal with its operation completed. */
  ghost predicate Ends(path: seq<State>, s: State, q: string)
  {
    Path(path) && path[0] == s && !path[|path| - 1].profile && Completed(path[|path| - 1], q)
  }

  /** Behind the retire barrier, a repeated request finishes a `deleting` record. */
  lemma FinishEnds(s: State, q: string) returns (path: seq<State>)
    requires AtRest(s) && s.barrier == Some(Retired) && s.record.Some? && s.record.value.phase == Deleting
    requires !Taken(s.record, q)
    ensures Ends(path, s, q)
  {
    var next := Transition(s.record, BOT, Retire(Tomb(), NOW)).value;
    path := Extend([s], NewRemove(q, s.revision, PLAIN), Solo(s, q, Asked));
    AskFinishes(s, q);
    path := Extend(path, ALONE, Solo(s, q, Finishing));
    path := Extend(path, ALONE, Solo(s, q, FinishBarred));
    path := FinishWrites(s, q, next, path);
    path := FinishCompletes(s.(record := Some(next), profile := false), q, path);
  }

  lemma AskFinishes(s: State, q: string)
    requires AtRest(s) && s.barrier == Some(Retired) && s.record.Some? && s.record.value.phase == Deleting
    requires !Taken(s.record, q)
    ensures Enabled(Solo(s, q, Asked), ALONE) && Apply(Solo(s, q, Asked), ALONE) == Solo(s, q, Finishing)
  {
    assert !Completed(s, q);
  }

  lemma FinishWrites(s: State, q: string, next: Rec, path: seq<State>) returns (longer: seq<State>)
    requires Path(path) && path[|path| - 1] == Solo(s, q, FinishBarred) && s.profile && s.writes == []
    requires Transition(s.record, BOT, Retire(Tomb(), NOW)) == Success(next)
    ensures Path(longer) && longer[0] == path[0]
    ensures longer[|longer| - 1] == Solo(s.(record := Some(next), profile := false), q, FinishWritten)
  {
    longer := Extend(path, ALONE, Solo(s, q, FinishWrite(next)).(writes := [0]));
    longer := Extend(longer, ALONE, Solo(s, q, FinishWritten).(record := Some(next), profile := false));
  }

  lemma FinishCompletes(s: State, q: string, path: seq<State>) returns (longer: seq<State>)
    requires Path(path) && path[|path| - 1] == Solo(s, q, FinishWritten) && !s.profile
    ensures Ends(longer, path[0], q)
  {
    var row := CompleteOp(Some(StartOp(OpOf(s, q), None))).value;
    longer := Extend(path, ALONE, Solo(s, q, Ended(true)).(ops := s.ops[q := row]));
  }

  /** The options that a repeated request works with. */
  function OptionsOf(row: Option<OpRow>): Options
  {
    if row.Some? && row.value.params.Some? then row.value.params.value else PLAIN
  }

  /** In front of the retire barrier, a repeated request with nothing in its way is let in. */
  lemma RemoveAsks(s: State, q: string) returns (path: seq<State>)
    requires AtRest(s) && s.barrier != Some(Retired)
    ensures Path(path) && path[0] == s
    ensures var row := OpOf(s, q);
      path[|path| - 1] == Solo(s.(obstacles := NoObstacles), q, WantsGate(OptionsOf(row), row))
  {
    var row := OpOf(s, q);
    var s1 := s.(obstacles := NoObstacles);
    path := Extend([s], FactsChange(s.revision, NoObstacles), s1);
    path := Extend(path, NewRemove(q, s.revision, PLAIN), Solo(s1, q, Asked));
    assert forall r :: Completed(s1, r) == Completed(s, r);
    AskEnters(s1, q);
    path := Extend(path, ALONE, Solo(s1, q, WantsGate(OptionsOf(row), row)));
  }

  lemma AskEnters(s: State, q: string)
    requires AtRest(s) && s.barrier != Some(Retired)
    ensures var row := OpOf(s, q);
      && Enabled(Solo(s, q, Asked), ALONE)
      && Apply(Solo(s, q, Asked), ALONE) == Solo(s, q, WantsGate(OptionsOf(row), row))
  {
    assert !Completed(s, q);
  }

  /** It puts down the barrier. */
  lemma RemoveEnters(s: State, q: string, path: seq<State>) returns (longer: seq<State>)
    requires s.obstacles == NoObstacles && s.gate == None && Path(path)
    requires path[|path| - 1] == Solo(s, q, WantsGate(OptionsOf(OpOf(s, q)), OpOf(s, q)))
    ensures Path(longer) && longer[0] == path[0]
    ensures var row := OpOf(s, q);
      longer[|longer| - 1] == Solo(s.(barrier := Some(Deleting), gate := Some(0)), q, Barred(OptionsOf(row), row))
  {
    var row := OpOf(s, q);
    longer := Extend(path, ALONE, Solo(s.(barrier := Some(Deleting), gate := Some(0)), q, Barred(OptionsOf(row), row)));
  }

  /** It writes the record. */
  lemma RemoveBegins(s: State, q: string, o: Options, row: Option<OpRow>, path: seq<State>)
    returns (longer: seq<State>, next: Rec)
    requires Path(path) && path[|path| - 1] == Solo(s, q, Barred(o, row))
    requires s.writes == [] && (s.record.Some? ==> s.record.value.phase != Retired) && !Taken(s.record, q)
    ensures Path(longer) && longer[0] == path[0] && next.phase == Deleting
    ensures longer[|longer| - 1] == Solo(s.(record := Some(next)), q, Begun(o, row))
  {
    next := BeginSucceeds(s, q, o, row);
    longer := Extend(path, ALONE, Solo(s, q, BeginWrite(o, row, next)).(writes := [0]));
    longer := Extend(longer, ALONE, Solo(s, q, Begun(o, row)).(record := Some(next)));
  }

  lemma BeginSucceeds(s: State, q: string, o: Options, row: Option<OpRow>) returns (next: Rec)
    requires s.writes == [] && (s.record.Some? ==> s.record.value.phase != Retired) && !Taken(s.record, q)
    ensures next.phase == Deleting
    ensures var at := Solo(s, q, Barred(o, row));
      Enabled(at, ALONE) && Apply(at, ALONE) == Solo(s, q, BeginWrite(o, row, next)).(writes := [0])
  {
    next := Transition(s.record, BOT, Begin(OperationId(q), q, s.revision, o.clear, o.release, NOW)).value;
  }

  /** In front of the retire barrier, a repeated request gets as far as the write that drops the profile. */
  lemma RemoveRetires(s: State, q: string) returns (path: seq<State>, end: State)
    requires AtRest(s) && s.barrier != Some(Retired) && !Taken(s.record, q)
    ensures Path(path) && path[0] == s && path[|path| - 1] == Solo(end, q, RetireWritten)
    ensures !end.profile && q in end.ops && end.ops[q].phase.OpRunning?
    ensures end.record.Some? && end.record.value.phase == Retired
  {
    var row := OpOf(s, q);
    var o := OptionsOf(row);
    path := RemoveAsks(s, q);
    path := RemoveEnters(s.(obstacles := NoObstacles), q, path);
    var s2 := s.(obstacles := NoObstacles, barrier := Some(Deleting), gate := Some(0));
    var next;
    path, next := RemoveBegins(s2, q, o, row, path);
    var s3 := s2.(gate := None, record := Some(next), ops := s.ops[q := StartOp(row, Some(o))]);
    path := RemoveStarts(s2.(record := Some(next)), q, o, row, path);
    path := RemoveCleans(s3, q, o, path);
    assert !Completed(s, q);
    path, end := CleanedRetires(s3.(open := {}, drained := true), q, path);
  }

  lemma RemoveEnds(s: State, q: string) returns (path: seq<State>)
    requires AtRest(s) && s.barrier != Some(Retired) && !Taken(s.record, q)
    ensures Ends(path, s, q)
  {
    var end;
    path, end := RemoveRetires(s, q);
    path := RetireCompletes(end, q, path);
  }

  lemma RemoveStarts(s: State, q: string, o: Options, row: Option<OpRow>, path: seq<State>) returns (longer: seq<State>)
    requires Path(path) && path[|path| - 1] == Solo(s, q, Begun(o, row))
    ensures Path(longer) && longer[0] == path[0]
    ensures longer[|longer| - 1] == Solo(s.(gate := None, ops := s.ops[q := StartOp(row, Some(o))]), q, Cleaning(o))
  {
    longer := Extend(path, ALONE, Solo(s.(gate := None, ops := s.ops[q := StartOp(row, Some(o))]), q, Cleaning(o)));
  }

  lemma RemoveCleans(s: State, q: string, o: Options, path: seq<State>) returns (longer: seq<State>)
    requires Path(path) && path[|path| - 1] == Solo(s, q, Cleaning(o))
    ensures Path(longer) && longer[0] == path[0]
    ensures longer[|longer| - 1] == Solo(s.(open := {}, drained := true), q, WantsRetire)
  {
    var s4 := s.(open := {});
    longer := Extend(path, ALONE, Solo(s4, q, Cancelled(o)));
    longer := Extend(longer, ALONE, Solo(s4.(drained := true), q, Settled(o)));
    longer := Extend(longer, ALONE, Solo(s4.(drained := true), q, WantsRetire));
  }

  /** A cleaned-up removal retires. */
  lemma CleanedRetires(s: State, q: string, path: seq<State>) returns (longer: seq<State>, end: State)
    requires Path(path) && path[|path| - 1] == Solo(s, q, WantsRetire)
    requires s.gate == None && s.writes == [] && s.profile && s.record.Some? && s.record.value.phase == Deleting
    ensures Path(longer) && longer[0] == path[0] && longer[|longer| - 1] == Solo(end, q, RetireWritten)
    ensures !end.profile && end.ops == s.ops && end.record.Some? && end.record.value.phase == Retired
  {
    var retired := Transition(s.record, BOT, Retire(Tomb(), NOW)).value;
    var s1 := s.(barrier := Some(Retired), gate := Some(0));
    end := s1.(record := Some(retired), profile := false);
    longer := Extend(path, ALONE, Solo(s1, q, Retiring));
    longer := Extend(longer, ALONE, Solo(s1, q, RetireWrite(retired)).(writes := [0]));
    longer := Extend(longer, ALONE, Solo(end, q, RetireWritten));
  }

  lemma RetireCompletes(s: State, q: string, path: seq<State>) returns (longer: seq<State>)
    requires Path(path) && path[|path| - 1] == Solo(s, q, RetireWritten) && !s.profile
    requires q in s.ops && !s.ops[q].phase.OpIndeterminate?
    ensures Ends(longer, path[0], q)
  {
    var row := CompleteOp(OpOf(s, q)).value;
    longer := Extend(path, ALONE, Solo(s, q, Ended(true)).(ops := s.ops[q := row], gate := None));
  }

  /** A request that the record has room for brings every state at rest to its end, unless it is stuck. */
  lemma RestEnds(s: State, q: string) returns (path: seq<State>)
    requires AtRest(s) && !Stuck(s) && !Taken(s.record, q)
    ensures Ends(path, s, q)
  {
    if s.barrier == Some(Retired) {
      path := FinishEnds(s, q);
    } else {
      path := RemoveEnds(s, q);
    }
  }

  /**
   In every reachable state between calls, as after a restart, a removal can
   still be brought to its end if and only if the state is not stuck: unless the
   retire barrier is down over a record that is not `deleting`.
   */
  lemma RemovalEndsExactly(run: seq<State>, i: nat)
    requires IsRun(run) && i < |run| && run[i].calls == [] && run[i].profile
    ensures CanEnd(run[i]) <==> !Stuck(run[i])
    ensures Stuck(run[i]) <==>
      run[i].barrier == Some(Retired) && !(run[i].record.Some? && run[i].record.value.phase == Deleting)
  {
    var s := run[i];
    RunInv(run, i);
    RestOfInv(s);
    if Stuck(s) {
      forall path: seq<State> | Path(path) && path[0] == s ensures path[|path| - 1].profile {
        StrandedForever(path, |path| - 1);
      }
    } else {
      var path := RestEnds(s, RequestToRepeat(s));
    }
  }

  // ----- when an open operation can still be completed

  /** The Bot is unknown: no profile and no tombstone; and no call is left that knew it. */
  ghost predicate Gone(s: State)
  {
    !Known(s) && forall c :: 0 <= c < |s.calls| ==> GoneCall(s.calls[c])
  }

  predicate GoneCall(call: Call)
  {
    match call
    case PreviewCall(at) => at.PreviewStart? || at.PreviewDone?
    case RemoveCall(_, _, _, pc) => pc.Asked? || pc.Ended?
  }

  lemma AdvanceGone(s: State, c: CallId, outcome: Outcome, left: set<DispatchId>)
    requires !Known(s) && c < |s.calls| && left <= s.open && GoneCall(s.calls[c])
    ensures var s' := AdvanceStep(s, c, outcome, left);
      GoneCall(s'.calls[c]) && s' == s.(calls := s'.calls)
  {
    match s.calls[c]
    case PreviewCall(_) => PreviewGone(s, c);
    case RemoveCall(_, _, _, pc) =>
      if pc.Asked? {
        AskGone(s, c);
      }
  }

  lemma PreviewGone(s: State, c: CallId)
    requires !Known(s) && c < |s.calls| && s.calls[c].PreviewCall? && GoneCall(s.calls[c])
    ensures PreviewStep(s, c) == SetCall(s, c, PreviewCall(PreviewDone))
  {}

  lemma AskGone(s: State, c: CallId)
    requires !Known(s) && c < |s.calls| && s.calls[c].RemoveCall? && s.calls[c].pc.Asked?
    ensures AskStep(s, c) == GoTo(s, c, Ended(false))
  {}

  lemma GoneStep(s: State, s': State)
    requires Gone(s) && Next(s, s')
    ensures Gone(s') && s'.ops == s.ops
  {
    var a :| Enabled(s, a) && s' == Apply(s, a);
    if a.Advance? {
      AdvanceGone(s, a.c, a.outcome, a.left);
    } else if !a.Crash? {
      assert forall d :: 0 <= d < |s.calls| ==> s'.calls[d] == s.calls[d];
    }
  }

  /** Another request holds the record, and no call of `q` is past its begin. */
  ghost predicate Denied(s: State, q: string)
  {
    Taken(s.record, q) && forall c :: 0 <= c < |s.calls| ==> DeniedCall(s.calls[c], q)
  }

  predicate DeniedCall(call: Call, q: string)
  {
    match call
    case PreviewCall(at) => at.PreviewStart? || at.PreviewDone?
    case RemoveCall(requestId, _, _, pc) =>
      && (requestId == q ==> pc.Asked? || pc.WantsGate? || pc.Barred? || pc.Ended?)
      && match pc
         case BeginWrite(_, _, next) => Taken(Some(next), q)
         case RetireWrite(next) => Taken(Some(next), q)
         case FailWrite(_, next) => Taken(Some(next), q)
         case FinishWrite(next) => Taken(Some(next), q)
         case _ => true
  }

  /** What one step of a call may do while `q` is denied. */
  predicate StaysDenied(s: State, s': State, c: CallId, q: string)
    requires c < |s'.calls|
  {
    Taken(s'.record, q) && DeniedCall(s'.calls[c], q) && OpOf(s', q) == OpOf(s, q)
  }

  lemma PreviewDenied(s: State, c: CallId, q: string)
    requires Denied(s, q) && c < |s.calls| && s.calls[c].PreviewCall?
    ensures StaysDenied(s, PreviewStep(s, c), c, q)
  {
    assert DeniedCall(s.calls[c], q);
  }

  lemma AskDenied(s: State, c: CallId, q: string)
    requires Denied(s, q) && !Completed(s, q) && c < |s.calls| && s.calls[c].RemoveCall? && s.calls[c].pc.Asked?
    ensures StaysDenied(s, AskStep(s, c), c, q)
  {}

  lemma CleanDenied(s: State, c: CallId, outcome: Outcome, left: set<DispatchId>, q: string)
    requires Denied(s, q) && c < |s.calls| && s.calls[c].RemoveCall? && left <= s.open
    requires var pc := s.calls[c].pc; pc.Cleaning? || pc.Cancelled? || pc.Settled?
    ensures StaysDenied(s, CleanStep(s, c, outcome, left), c, q)
  {
    assert DeniedCall(s.calls[c], q);
  }

  lemma BeginDenied(s: State, c: CallId, q: string)
    requires Denied(s, q) && c < |s.calls| && s.calls[c].RemoveCall?
    requires var pc := s.calls[c].pc; pc.WantsGate? || pc.Barred? || pc.BeginWrite? || pc.Begun?
    ensures StaysDenied(s, BeginStep(s, c), c, q)
  {
    assert DeniedCall(s.calls[c], q);
  }

  lemma RetireDenied(s: State, c: CallId, q: string)
    requires Denied(s, q) && c < |s.calls| && s.calls[c].RemoveCall?
    requires var pc := s.calls[c].pc; pc.WantsRetire? || pc.Retiring? || pc.RetireWrite? || pc.RetireWritten?
    ensures StaysDenied(s, RetireStep(s, c), c, q)
  {
    assert DeniedCall(s.calls[c], q);
  }

  lemma FailDenied(s: State, c: CallId, q: string)
    requires Denied(s, q) && c < |s.calls| && s.calls[c].RemoveCall?
    requires var pc := s.calls[c].pc; pc.Failing? || pc.FailBarred? || pc.FailWrite? || pc.FailWritten?
    ensures StaysDenied(s, FailStep(s, c), c, q)
  {
    assert DeniedCall(s.calls[c], q);
  }

  lemma FinishDenied(s: State, c: CallId, q: string)
    requires Denied(s, q) && c < |s.calls| && s.calls[c].RemoveCall?
    requires var pc := s.calls[c].pc; pc.Finishing? || pc.FinishBarred? || pc.FinishWrite? || pc.FinishWritten?
    ensures StaysDenied(s, FinishStep(s, c), c, q)
  {
    assert DeniedCall(s.calls[c], q);
  }

  lemma AdvanceDenied(s: State, c: CallId, outcome: Outcome, left: set<DispatchId>, q: string)
    requires Denied(s, q) && !Completed(s, q) && c < |s.calls| && left <= s.open
    ensures StaysDenied(s, AdvanceStep(s, c, outcome, left), c, q)
  {
    assert DeniedCall(s.calls[c], q);
    if s.calls[c].PreviewCall? {
      PreviewDenied(s, c, q);
    } else {
      var pc := s.calls[c].pc;
      if pc.Asked? {
        AskDenied(s, c, q);
      } else if pc.WantsGate? || pc.Barred? || pc.BeginWrite? || pc.Begun? {
        BeginDenied(s, c, q);
      } else if pc.Cleaning? || pc.Cancelled? || pc.Settled? {
        CleanDenied(s, c, outcome, left, q);
      } else if pc.WantsRetire? || pc.Retiring? || pc.RetireWrite? || pc.RetireWritten? {
        RetireDenied(s, c, q);
      } else if pc.Failing? || pc.FailBarred? || pc.FailWrite? || pc.FailWritten? {
        FailDenied(s, c, q);
      } else if !pc.Ended? {
        FinishDenied(s, c, q);
      }
    }
  }

  /** A denied request stays denied, until a restart purges the retired record and the Bot is gone. */
  lemma DeniedStep(s: State, s': State, q: string)
    requires Inv(s) && Denied(s, q) && !Completed(s, q) && Next(s, s')
    ensures (Denied(s', q) || Gone(s')) && OpOf(s', q) == OpOf(s, q)
  {
    var a :| Enabled(s, a) && s' == Apply(s, a);
    if a.Advance? {
      AdvanceDenied(s, a.c, a.outcome, a.left, q);
      forall d | 0 <= d < |s'.calls| ensures DeniedCall(s'.calls[d], q) {
        if d != a.c {
          assert DeniedCall(s.calls[d], q);
        }
      }
    } else if !a.Crash? {
      assert forall d :: 0 <= d < |s.calls| ==> s'.calls[d] == s.calls[d];
    }
  }

  /** No continuation changes the operation of `q`: the Bot is gone, or stranded, or held by another request. */
  ghost predicate Frozen(s: State, q: string)
  {
    Inv(s) && !Completed(s, q) && (Gone(s) || Stranded(s) || Denied(s, q))
  }

  lemma FrozenStep(s: State, s': State, q: string)
    requires Frozen(s, q) && Next(s, s')
    ensures Frozen(s', q) && OpOf(s', q) == OpOf(s, q)
  {
    NextKeepsInv(s, s');
    if Gone(s) {
      GoneStep(s, s');
    } else if Stranded(s) {
      StrandedStep(s, s');
    } else {
      DeniedStep(s, s', q);
    }
  }

  lemma {:induction false} FrozenForever(path: seq<State>, i: nat, q: string)
    requires Path(path) && Frozen(path[0], q) && i < |path|
    ensures Frozen(path[i], q) && OpOf(path[i], q) == OpOf(path[0], q)
  {
    if i > 0 {
      FrozenForever(path, i - 1, q);
      assert Next(path[i - 1], path[i]);
      FrozenStep(path[i - 1], path[i], q);
    }
  }

  lemma RestFreezes(s: State, q: string)
    requires Inv(s) && s.calls == [] && !Completed(s, q)
    requires s.record.Some? ==> s.record.value.phase != Retired
    requires !s.profile || Stuck(s) || Taken(s.record, q)
    ensures Frozen(s, q)
  {}

  /** A retired record is gone once there is no call: the calls were forgotten in the restart that purged it. */
  lemma {:induction false} RestIsPurged(run: seq<State>, i: nat)
    requires IsRun(run) && i < |run| && run[i].calls == []
    ensures run[i].record.Some? ==> run[i].record.value.phase != Retired
  {
    if i > 0 {
      assert Next(run[i - 1], run[i]);
      var a :| Enabled(run[i - 1], a) && run[i] == Apply(run[i - 1], a);
      if !a.Crash? {
        assert !a.Advance? && run[i - 1].calls == [];
        RestIsPurged(run, i - 1);
      }
    }
  }

  /**
   In every reachable state between calls, as after a restart, the operation of a
   request that is not completed can still be completed if and only if the
   profile is still there, the state is not stuck, and the record is not held by
   another request. Otherwise no continuation changes its row at all.
   */
  lemma OperationCompletesExactly(run: seq<State>, i: nat, q: string)
    requires IsRun(run) && i < |run| && run[i].calls == [] && !Completed(run[i], q)
    ensures CanComplete(run[i], q) <==> run[i].profile && !Stuck(run[i]) && !Taken(run[i].record, q)
    ensures !CanComplete(run[i], q) ==> Frozen(run[i], q)
  {
    var s := run[i];
    RunInv(run, i);
    if s.profile && !Stuck(s) && !Taken(s.record, q) {
      RestOfInv(s);
      var path := RestEnds(s, q);
    } else {
      RestIsPurged(run, i);
      RestFreezes(s, q);
      forall path: seq<State> | Path(path) && path[0] == s ensures !Completed(path[|path| - 1], q) {
        FrozenForever(path, |path| - 1, q);
      }
    }
  }

  /**
   A restart purges the retired record: once the profile is gone, it leaves every
   operation that is still open as it is, for good.
   */
  lemma RestartFreezes(run: seq<State>, q: string) returns (longer: seq<State>)
    requires IsRun(run) && !run[|run| - 1].profile && !Completed(run[|run| - 1], q)
    ensures IsRun(longer) && run <= longer
    ensures var s := longer[|longer| - 1];
      s == Apply(run[|run| - 1], Crash) && OpOf(s, q) == OpOf(run[|run| - 1], q) && Frozen(s, q) && !CanComplete(s, q)
  {
    longer := Extend(run, Crash, Apply(run[|run| - 1], Crash));
    OperationCompletesExactly(longer, |longer| - 1, q);
  }

  /** It happens: a crash between the write that drops the profile and the last write of the operation row. */
  lemma PurgeLosesOperation() returns (run: seq<State>)
    ensures IsRun(run)
    ensures var s := run[|run| - 1];
      !s.profile && "q" in s.ops && s.ops["q"].phase.OpRunning? && !CanComplete(s, "q")
  {
    var end;
    run, end := RemoveRetires(Initial, "q");
    run := RestartFreezes(run, "q");
  }

  /** `s` with one more remove call. */
  function Joined(s: State, q: string, pc: RemovePc): State
  {
    s.(calls := s.calls + [RemoveCall(q, s.revision, PLAIN, pc)])
  }

  /**
   Before the restart, with the profile gone and the tombstone still there, a
   repeated request completes its operation, whatever calls are under way.
   */
  lemma TombstoneCompletes(run: seq<State>, i: nat, q: string)
    requires IsRun(run) && i < |run| && !run[i].profile && Known(run[i]) && TurnFree(run[i], |run[i].calls|)
    requires !Taken(run[i].record, q)
    ensures CanComplete(run[i], q)
  {
    var s := run[i];
    RunInv(run, i);
    if Completed(s, q) {
      assert Path([s]);
    } else {
      var path := Extend([s], NewRemove(q, s.revision, PLAIN), Joined(s, q, Asked));
      path := TombstoneAsks(s, q, path);
      path := TombstoneFinishes(s.(barrier := Some(Retired)), q, path);
    }
  }

  lemma TombstoneAsks(s: State, q: string, path: seq<State>) returns (longer: seq<State>)
    requires Inv(s) && !s.profile && Known(s) && TurnFree(s, |s.calls|) && !Taken(s.record, q) && !Completed(s, q)
    requires Path(path) && path[|path| - 1] == Joined(s, q, Asked)
    ensures Path(longer) && longer[0] == path[0]
    ensures longer[|longer| - 1] == Joined(s.(barrier := Some(Retired)), q, FinishBarred)
  {
    var step := Advance(|s.calls|, Fine, {});
    longer := Extend(path, step, Joined(s, q, Finishing));
    longer := Extend(longer, step, Joined(s.(barrier := Some(Retired)), q, FinishBarred));
  }

  lemma TombstoneFinishes(s: State, q: string, path: seq<State>) returns (longer: seq<State>)
    requires !s.profile && TurnFree(s, |s.calls|)
    requires Path(path) && path[|path| - 1] == Joined(s, q, FinishBarred)
    ensures Path(longer) && longer[0] == path[0] && Completed(longer[|longer| - 1], q)
  {
    var step := Advance(|s.calls|, Fine, {});
    var row := CompleteOp(Some(StartOp(OpOf(s, q), None))).value;
    longer := Extend(path, step, Joined(s, q, FinishWritten));
    longer := Extend(longer, step, Joined(s, q, Ended(true)).(ops := s.ops[q := row]));
  }

  // ----- a preview beside a begin

  const PREVIEWED: Rec := Record(BOT, Previewed, None, None, Some("r"), None, None, None, None, NOW)
  const BEGUN: Rec :=
    Record(BOT, Deleting, Some(OperationId("q")), Some("q"), Some("r"), Some(false), Some(false), None, None, NOW)
  const PREVIEW := ALONE
  const REMOVE := Advance(1, Fine, {})

  /** The state of the race: one preview call and one remove call. */
  function Race(at: PreviewPc, pc: RemovePc, barrier: Option<Phase>, record: Option<Rec>, ops: map<string, OpRow>,
                gate: Option<CallId>, writes: seq<CallId>, drained: bool): State
  {
    State(barrier, record, true, ops, {}, "r", NoObstacles, gate, writes,
          [PreviewCall(at), RemoveCall("q", "r", PLAIN, pc)], drained)
  }

  lemma RaceStarts() returns (run: seq<State>)
    ensures IsRun(run)
    ensures run[|run| - 1] == Race(PreviewStart, WantsGate(PLAIN, None), None, None, map[], None, [], false)
  {
    run := Extend([Initial], NewPreview, Initial.(calls := [PreviewCall(PreviewStart)]));
    run := Extend(run, NewRemove("q", "r", PLAIN), Race(PreviewStart, Asked, None, None, map[], None, [], false));
    run := Extend(run, REMOVE, Race(PreviewStart, WantsGate(PLAIN, None), None, None, map[], None, [], false));
  }

  /** The begin has asked for its write; the preview now reads the old record and asks for its own. */
  lemma PreviewReadsBehindBegin() returns (run: seq<State>)
    ensures IsRun(run)
    ensures run[|run| - 1] == Race(
      PreviewWrite(PREVIEWED), BeginWrite(PLAIN, None, BEGUN), Some(Deleting), None, map[], Some(1), [1, 0], false)
  {
    run := RaceStarts();
    run := Extend(run, REMOVE,
      Race(PreviewStart, Barred(PLAIN, None), Some(Deleting), None, map[], Some(1), [], false));
    run := Extend(run, REMOVE,
      Race(PreviewStart, BeginWrite(PLAIN, None, BEGUN), Some(Deleting), None, map[], Some(1), [1], false));
    run := Extend(run, PREVIEW,
      Race(PreviewWrite(PREVIEWED), BeginWrite(PLAIN, None, BEGUN), Some(Deleting), None, map[], Some(1), [1, 0], false));
  }

  function RacedOps(): map<string, OpRow>
  {
    map["q" := OpRow(OpRunning, Some(PLAIN))]
  }

  /** A preview that reads the record while the begin's write is under way, and writes after it. */
  lemma PreviewOverwritesBegin() returns (run: seq<State>)
    ensures IsRun(run)
    ensures run[|run| - 1] ==
      Race(PreviewDone, Cleaning(PLAIN), Some(Deleting), Some(PREVIEWED), RacedOps(), None, [], false)
  {
    run := PreviewReadsBehindBegin();
    run := Extend(run, REMOVE,
      Race(PreviewWrite(PREVIEWED), Begun(PLAIN, None), Some(Deleting), Some(BEGUN), map[], Some(1), [0], false));
    run := Extend(run, REMOVE,
      Race(PreviewWrite(PREVIEWED), Cleaning(PLAIN), Some(Deleting), Some(BEGUN), RacedOps(), None, [0], false));
    run := Extend(run, PREVIEW,
      Race(PreviewDone, Cleaning(PLAIN), Some(Deleting), Some(PREVIEWED), RacedOps(), None, [], false));
  }

  lemma RacedRemovalSettles() returns (run: seq<State>)
    ensures IsRun(run)
    ensures run[|run| - 1] ==
      Race(PreviewDone, Settled(PLAIN), Some(Deleting), Some(PREVIEWED), RacedOps(), None, [], true)
  {
    var ops := RacedOps();
    run := PreviewOverwritesBegin();
    run := Extend(run, REMOVE,
      Race(PreviewDone, Cancelled(PLAIN), Some(Deleting), Some(PREVIEWED), ops, None, [], false));
    run := Extend(run, REMOVE,
      Race(PreviewDone, Settled(PLAIN), Some(Deleting), Some(PREVIEWED), ops, None, [], true));
  }

  /** After that race, a crash behind the retire barrier leaves the Bot stuck, with no call left. */
  lemma PreviewRaceStrands() returns (run: seq<State>)
    ensures IsRun(run) && run[|run| - 1].calls == [] && Stuck(run[|run| - 1]) && !CanEnd(run[|run| - 1])
  {
    var ops := RacedOps();
    run := RacedRemovalSettles();
    run := Extend(run, REMOVE,
      Race(PreviewDone, WantsRetire, Some(Deleting), Some(PREVIEWED), ops, None, [], true));
    run := Extend(run, REMOVE,
      Race(PreviewDone, Retiring, Some(Retired), Some(PREVIEWED), ops, Some(1), [], true));
    var end := run[|run| - 1];
    run := Extend(run, Crash, end.(calls := [], gate := None));
    RemovalEndsExactly(run, |run| - 1);
  }

  // ----- one remove alone

  /** The state with one remove call and no operation row yet. */
  function Alone(asked: Options, pc: RemovePc, barrier: Option<Phase>, record: Option<Rec>, gate: Option<CallId>,
                 writes: seq<CallId>): State
  {
    State(barrier, record, true, map[], {}, "r", NoObstacles, gate, writes, [RemoveCall("q", "r", asked, pc)], false)
  }

  /** From a state without calls, a remove call gets as far as its barrier write. */
  lemma AloneEnters(run: seq<State>, asked: Options, barrier: Option<Phase>, record: Option<Rec>)
    returns (longer: seq<State>)
    requires IsRun(run) && run[|run| - 1] == Initial.(barrier := barrier, record := record)
    requires barrier in {None, Some(Deleting)} && record in {None, Some(BEGUN)}
    ensures IsRun(longer)
    ensures longer[|longer| - 1] == Alone(asked, Barred(asked, None), Some(Deleting), record, Some(0), [])
  {
    longer := Extend(run, NewRemove("q", "r", asked), Alone(asked, Asked, barrier, record, None, []));
    longer := Extend(longer, ALONE, Alone(asked, WantsGate(asked, None), barrier, record, None, []));
    longer := Extend(longer, ALONE, Alone(asked, Barred(asked, None), Some(Deleting), record, Some(0), []));
  }

  /** And from there, with the record written as `BEGUN`, to the write of the operation row. */
  lemma AloneBegins(run: seq<State>, asked: Options, record: Option<Rec>) returns (longer: seq<State>)
    requires IsRun(run) && run[|run| - 1] == Alone(asked, Barred(asked, None), Some(Deleting), record, Some(0), [])
    requires (record.None? && asked == PLAIN) || record == Some(BEGUN)
    ensures IsRun(longer)
    ensures longer[|longer| - 1] == Alone(asked, Begun(asked, None), Some(Deleting), Some(BEGUN), Some(0), [])
  {
    longer := Extend(run, ALONE, Alone(asked, BeginWrite(asked, None, BEGUN), Some(Deleting), record, Some(0), [0]));
    longer := Extend(longer, ALONE, Alone(asked, Begun(asked, None), Some(Deleting), Some(BEGUN), Some(0), []));
  }

  // ----- two removes of one request

  const FIRST := ALONE
  const SECOND := REMOVE
  const ROW := OpRow(OpRunning, Some(PLAIN))

  /** The state of two remove calls with one request id; the first one has begun. */
  function Pair(first: RemovePc, second: RemovePc, barrier: Phase, record: Rec, row: OpRow, gate: Option<CallId>,
                writes: seq<CallId>): State
  {
    State(Some(barrier), Some(record), true, map["q" := row], {}, "r", NoObstacles, gate, writes,
          [RemoveCall("q", "r", PLAIN, first), RemoveCall("q", "r", PLAIN, second)], false)
  }

  lemma FirstBegins() returns (run: seq<State>)
    ensures IsRun(run) && run[|run| - 1] == Pair(Cleaning(PLAIN), Asked, Deleting, BEGUN, ROW, None, [])
  {
    run := AloneEnters([Initial], PLAIN, None, None);
    run := AloneBegins(run, PLAIN, None);
    run := Extend(run, ALONE,
      Alone(PLAIN, Cleaning(PLAIN), Some(Deleting), Some(BEGUN), None, []).(ops := map["q" := ROW]));
    run := Extend(run, NewRemove("q", "r", PLAIN), Pair(Cleaning(PLAIN), Asked, Deleting, BEGUN, ROW, None, []));
  }

  lemma SecondEnters() returns (run: seq<State>)
    ensures IsRun(run)
    ensures run[|run| - 1] == Pair(Cleaning(PLAIN), Barred(PLAIN, Some(ROW)), Deleting, BEGUN, ROW, Some(1), [])
  {
    var at, row := Cleaning(PLAIN), Some(ROW);
    run := FirstBegins();
    run := Extend(run, SECOND, Pair(at, WantsGate(PLAIN, row), Deleting, BEGUN, ROW, None, []));
    run := Extend(run, SECOND, Pair(at, Barred(PLAIN, row), Deleting, BEGUN, ROW, Some(1), []));
  }

  lemma SecondBegins() returns (run: seq<State>)
    ensures IsRun(run) && run[|run| - 1] == Pair(Cleaning(PLAIN), Cleaning(PLAIN), Deleting, BEGUN, ROW, None, [])
  {
    var at, row := Cleaning(PLAIN), Some(ROW);
    run := SecondEnters();
    run := Extend(run, SECOND, Pair(at, BeginWrite(PLAIN, row, BEGUN), Deleting, BEGUN, ROW, Some(1), [1]));
    run := Extend(run, SECOND, Pair(at, Begun(PLAIN, row), Deleting, BEGUN, ROW, Some(1), []));
    run := Extend(run, SECOND, Pair(at, at, Deleting, BEGUN, ROW, None, []));
  }

  const UNKNOWN: Rec := BEGUN.(phase := Indeterminate, error := Some(INTERNAL))

  lemma SecondFails() returns (run: seq<State>)
    ensures IsRun(run)
    ensures run[|run| - 1] == Pair(Cleaning(PLAIN), FailBarred(true), Indeterminate, BEGUN, ROW, None, [])
  {
    var at := Cleaning(PLAIN);
    run := SecondBegins();
    run := Extend(run, Advance(1, UnknownWork, {}), Pair(at, Failing(true), Deleting, BEGUN, ROW, None, []));
    run := Extend(run, SECOND, Pair(at, FailBarred(true), Indeterminate, BEGUN, ROW, None, []));
  }

  /** The second call meets unknown work and notes it. */
  lemma SecondNotesFailure() returns (run: seq<State>)
    ensures IsRun(run)
    ensures run[|run| - 1] == Pair(Cleaning(PLAIN), FailWritten(true), Indeterminate, UNKNOWN, ROW, None, [])
  {
    var at := Cleaning(PLAIN);
    run := SecondFails();
    run := Extend(run, SECOND, Pair(at, FailWrite(true, UNKNOWN), Indeterminate, BEGUN, ROW, None, [1]));
    run := Extend(run, SECOND, Pair(at, FailWritten(true), Indeterminate, UNKNOWN, ROW, None, []));
  }

  lemma FirstCleans() returns (run: seq<State>)
    ensures IsRun(run)
    ensures run[|run| - 1] ==
      Pair(WantsRetire, FailWritten(true), Indeterminate, UNKNOWN, ROW, None, []).(drained := true)
  {
    var noted := FailWritten(true);
    run := SecondNotesFailure();
    run := Extend(run, FIRST, Pair(Cancelled(PLAIN), noted, Indeterminate, UNKNOWN, ROW, None, []));
    run := Extend(run, FIRST, Pair(Settled(PLAIN), noted, Indeterminate, UNKNOWN, ROW, None, []).(drained := true));
    run := Extend(run, FIRST, Pair(WantsRetire, noted, Indeterminate, UNKNOWN, ROW, None, []).(drained := true));
  }

  /** The first one goes on to its retire barrier, and the daemon dies: a second way to get stuck, without a preview. */
  lemma SecondRemoveStrands() returns (run: seq<State>)
    ensures IsRun(run) && run[|run| - 1].calls == [] && Stuck(run[|run| - 1]) && !CanEnd(run[|run| - 1])
  {
    run := FirstCleans();
    run := Extend(run, FIRST,
      Pair(Retiring, FailWritten(true), Retired, UNKNOWN, ROW, Some(0), []).(drained := true));
    var end := run[|run| - 1];
    run := Extend(run, Crash, end.(calls := [], gate := None));
    RemovalEndsExactly(run, |run| - 1);
  }

  // ----- options that drift apart

  /** The record carries the options. */
  predicate Carries(record: Rec, o: Options)
  {
    record.clearDirectHistory == Some(o.clear) && record.releaseDirectBindings == Some(o.release)
  }

  predicate FlagFits(record: Rec, stored: Option<bool>, flag: bool)
  {
    if stored.Some? then stored.value == flag else record.phase != Retired
  }

  /**
   What a caller can see before the begin: the record does not block yet, or
   each of its flags is the one asked for, or absent and still to be filled in.
   */
  predicate LeavesRoom(record: Option<Rec>, o: Options)
  {
    record.Some? && Blocks(record.value.phase) ==>
      && FlagFits(record.value, record.value.clearDirectHistory, o.clear)
      && FlagFits(record.value, record.value.releaseDirectBindings, o.release)
  }

  /** The options that a call holds from its barrier write to the end of its cleanup. */
  function OptionsAt(call: Call): Option<Options>
  {
    match call
    case PreviewCall(_) => None
    case RemoveCall(_, _, _, pc) =>
      match pc
      case Barred(o, _) => Some(o)
      case BeginWrite(o, _, _) => Some(o)
      case Begun(o, _) => Some(o)
      case Cleaning(o) => Some(o)
      case Cancelled(o) => Some(o)
      case Settled(o) => Some(o)
      case _ => None
  }

  predicate Holds(s: State, c: CallId, o: Options)
  {
    c < |s.calls| && OptionsAt(s.calls[c]) == Some(o)
  }

  predicate IsBarred(s: State, c: CallId)
  {
    c < |s.calls| && s.calls[c].RemoveCall? && s.calls[c].pc.Barred?
  }

  predicate IsWriting(s: State, c: CallId)
  {
    c < |s.calls| && s.calls[c].RemoveCall? && s.calls[c].pc.BeginWrite?
  }

  predicate IsWritingRecord(s: State, c: CallId, next: Rec)
  {
    IsWriting(s, c) && s.calls[c].pc.next == next
  }

  /** Before it writes, or is at its cleanup, a call held the same options already; and what its own step did. */
  predicate ComesFrom(s: State, s': State, c: CallId, o: Options)
    requires Holds(s', c, o)
  {
    && Holds(s, c, o)
    && (if s.calls[c] == s'.calls[c] then true
        else if IsWriting(s', c) then
          IsBarred(s, c) && (Carries(s'.calls[c].pc.next, o) <==> LeavesRoom(s.record, o))
        else !IsBarred(s, c) && (IsWriting(s, c) ==> s'.record == Some(s.calls[c].pc.next)))
  }

  lemma BeginComesFrom(s: State, c: CallId, o: Options)
    requires c < |s.calls| && s.calls[c].RemoveCall?
    requires var pc := s.calls[c].pc; pc.WantsGate? || pc.Barred? || pc.BeginWrite? || pc.Begun?
    requires Holds(BeginStep(s, c), c, o) && !IsBarred(BeginStep(s, c), c)
    ensures ComesFrom(s, BeginStep(s, c), c, o)
  {}

  lemma CleanComesFrom(s: State, c: CallId, outcome: Outcome, left: set<DispatchId>, o: Options)
    requires c < |s.calls| && s.calls[c].RemoveCall? && left <= s.open
    requires var pc := s.calls[c].pc; pc.Cleaning? || pc.Cancelled? || pc.Settled?
    requires Holds(CleanStep(s, c, outcome, left), c, o)
    ensures ComesFrom(s, CleanStep(s, c, outcome, left), c, o)
  {}

  /** Every other step leads to a call without options. */
  lemma OthersHoldNothing(s: State, c: CallId, outcome: Outcome, left: set<DispatchId>)
    requires c < |s.calls| && left <= s.open && OptionsAt(s.calls[c]) == None
    requires s.calls[c].RemoveCall? ==> !s.calls[c].pc.WantsGate?
    ensures var s' := AdvanceStep(s, c, outcome, left); c < |s'.calls| && OptionsAt(s'.calls[c]) == None
  {
    match s.calls[c]
    case PreviewCall(_) =>
    case RemoveCall(_, _, _, pc) =>
      if pc.WantsRetire? || pc.Retiring? || pc.RetireWrite? || pc.RetireWritten? {
        RetireHoldsNothing(s, c);
      } else if pc.Failing? || pc.FailBarred? || pc.FailWrite? || pc.FailWritten? {
        FailHoldsNothing(s, c);
      } else if pc.Finishing? || pc.FinishBarred? || pc.FinishWrite? || pc.FinishWritten? {
        FinishHoldsNothing(s, c);
      }
  }

  lemma RetireHoldsNothing(s: State, c: CallId)
    requires c < |s.calls| && s.calls[c].RemoveCall?
    requires var pc := s.calls[c].pc; pc.WantsRetire? || pc.Retiring? || pc.RetireWrite? || pc.RetireWritten?
    ensures var s' := RetireStep(s, c); c < |s'.calls| && OptionsAt(s'.calls[c]) == None
  {}

  lemma FailHoldsNothing(s: State, c: CallId)
    requires c < |s.calls| && s.calls[c].RemoveCall?
    requires var pc := s.calls[c].pc; pc.Failing? || pc.FailBarred? || pc.FailWrite? || pc.FailWritten?
    ensures var s' := FailStep(s, c); c < |s'.calls| && OptionsAt(s'.calls[c]) == None
  {}

  lemma FinishHoldsNothing(s: State, c: CallId)
    requires c < |s.calls| && s.calls[c].RemoveCall?
    requires var pc := s.calls[c].pc; pc.Finishing? || pc.FinishBarred? || pc.FinishWrite? || pc.FinishWritten?
    ensures var s' := FinishStep(s, c); c < |s'.calls| && OptionsAt(s'.calls[c]) == None
  {}

  lemma AdvanceComesFrom(s: State, c: CallId, outcome: Outcome, left: set<DispatchId>, o: Options)
    requires c < |s.calls| && left <= s.open
    requires Holds(AdvanceStep(s, c, outcome, left), c, o) && !IsBarred(AdvanceStep(s, c, outcome, left), c)
    ensures ComesFrom(s, AdvanceStep(s, c, outcome, left), c, o)
  {
    if OptionsAt(s.calls[c]).None? && !(s.calls[c].RemoveCall? && s.calls[c].pc.WantsGate?) {
      OthersHoldNothing(s, c, outcome, left);
    } else if s.calls[c].pc.WantsGate? || s.calls[c].pc.Barred? || s.calls[c].pc.BeginWrite? || s.calls[c].pc.Begun? {
      BeginComesFrom(s, c, o);
    } else {
      CleanComesFrom(s, c, outcome, left, o);
    }
  }

  lemma NextComesFrom(s: State, s': State, c: CallId, o: Options)
    requires Next(s, s') && Holds(s', c, o) && !IsBarred(s', c)
    ensures ComesFrom(s, s', c, o)
  {
    var a :| Enabled(s, a) && s' == Apply(s, a);
    if a.Advance? && a.c == c {
      AdvanceComesFrom(s, c, a.outcome, a.left, o);
    }
  }

  /** From state `i` to state `j`, call `c` stays between its barrier write and the end of its cleanup. */
  ghost predicate HoldsAlong(run: seq<State>, i: nat, j: nat, c: CallId, o: Options)
  {
    j < |run| && forall m :: i <= m <= j ==> Holds(run[m], c, o)
  }

  /** Call `c` in a whole run: it starts without options and takes each step as above. */
  ghost predicate ComesAlong(run: seq<State>, c: CallId, o: Options)
  {
    && |run| > 0 && !Holds(run[0], c, o)
    && forall i :: 0 <= i < |run| - 1 && Holds(run[i + 1], c, o) && !IsBarred(run[i + 1], c) ==>
         ComesFrom(run[i], run[i + 1], c, o)
  }

  lemma RunComesAlong(run: seq<State>, c: CallId, o: Options)
    requires IsRun(run)
    ensures ComesAlong(run, c, o)
  {
    forall i | 0 <= i < |run| - 1 && Holds(run[i + 1], c, o) && !IsBarred(run[i + 1], c)
      ensures ComesFrom(run[i], run[i + 1], c, o)
    {
      NextComesFrom(run[i], run[i + 1], c, o);
    }
  }

  lemma {:induction false} WriteComesFrom(run: seq<State>, j: nat, c: CallId, o: Options) returns (i: nat)
    requires ComesAlong(run, c, o) && j < |run| && Holds(run[j], c, o) && IsWriting(run[j], c)
    ensures i < j && HoldsAlong(run, i, j, c, o) && IsBarred(run[i], c)
    ensures Carries(run[j].calls[c].pc.next, o) <==> LeavesRoom(run[i].record, o)
  {
    assert ComesFrom(run[j - 1], run[j], c, o);
    if run[j - 1].calls[c] == run[j].calls[c] {
      i := WriteComesFrom(run, j - 1, c, o);
    } else {
      i := j - 1;
    }
  }

  /**
   Call `c`, which cleans up with `o` in state `j`, put down the barrier before
   state `i` and wrote the record `next` from state `k` to state `k + 1`.
   */
  ghost predicate BeganAs(run: seq<State>, i: nat, k: nat, j: nat, c: CallId, o: Options, next: Rec)
  {
    && i < k < j && HoldsAlong(run, i, j, c, o)
    && IsBarred(run[i], c) && IsWritingRecord(run[k], c, next) && run[k + 1].record == Some(next)
  }

  lemma {:induction false} CleanupComesFrom(run: seq<State>, j: nat, c: CallId, o: Options)
    returns (i: nat, k: nat, next: Rec)
    requires ComesAlong(run, c, o) && j < |run| && Holds(run[j], c, o) && !IsBarred(run[j], c) && !IsWriting(run[j], c)
    ensures BeganAs(run, i, k, j, c, o, next) && (Carries(next, o) <==> LeavesRoom(run[i].record, o))
  {
    assert ComesFrom(run[j - 1], run[j], c, o);
    if IsWriting(run[j - 1], c) {
      k, next := j - 1, run[j - 1].calls[c].pc.next;
      i := WriteComesFrom(run, k, c, o);
    } else {
      i, k, next := CleanupComesFrom(run, j - 1, c, o);
    }
  }

  /**
   In every run, a call that cleans up with `o` began in that run, and the record
   it wrote carries `o` if and only if the record it found left room for `o`.
   */
  lemma CleanupCarriesExactly(run: seq<State>, j: nat, c: CallId, o: Options)
    requires IsRun(run) && j < |run| && Holds(run[j], c, o) && !IsBarred(run[j], c) && !IsWriting(run[j], c)
    ensures exists i: nat, k: nat, next ::
      BeganAs(run, i, k, j, c, o, next) && (Carries(next, o) <==> LeavesRoom(run[i].record, o))
  {
    RunComesAlong(run, c, o);
    var i, k, next := CleanupComesFrom(run, j, c, o);
  }

  /** A crash between the record write and the operation row. */
  lemma CrashBeforeOperationRow() returns (run: seq<State>)
    ensures IsRun(run) && run[|run| - 1] == Initial.(barrier := Some(Deleting), record := Some(BEGUN))
  {
    run := AloneEnters([Initial], PLAIN, None, None);
    run := AloneBegins(run, PLAIN, None);
    run := Extend(run, Crash, Initial.(barrier := Some(Deleting), record := Some(BEGUN)));
  }

  /**
   The failing side does occur. The record fixes the options at its first begin,
   the operation row at its own first write. A crash between the two lets a retry
   with other flags clean up with flags that the record denies.
   */
  lemma RetryCanDriftFromRecord() returns (run: seq<State>)
    ensures IsRun(run)
    ensures var s, o := run[|run| - 1], Options(true, false);
      Holds(s, 0, o) && !IsBarred(s, 0) && !IsWriting(s, 0) && s.record.Some? && !Carries(s.record.value, o)
  {
    var other := Options(true, false);
    run := CrashBeforeOperationRow();
    run := AloneEnters(run, other, Some(Deleting), Some(BEGUN));
    run := AloneBegins(run, other, Some(BEGUN));
    run := Extend(run, ALONE,
      Alone(other, Cleaning(other), Some(Deleting), Some(BEGUN), None, []).(ops := map["q" := OpRow(OpRunning, Some(other))]));
  }
}
