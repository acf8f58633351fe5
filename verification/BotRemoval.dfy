/**
 The removal record of one Bot (bot-removal.ts): its legal transitions and the
 boundary parse that reads it back from AppState.
 */
module BotRemoval {
  import opened Common
  import opened Whitespace

  datatype Phase = Previewed | Deleting | Indeterminate | Retired

  datatype ErrorBody = ErrorBody(code: string, message: string)

  datatype Marker = Marker(name: string, cwd: string, createdAt: string)

  /** `Avatar` is whatever the avatar reader of the relay protocol package returns. */
  datatype Tombstone<Avatar> = Tombstone(
    id: string, name: string, avatar: Option<Avatar>, role: Option<string>,
    agent: string, workspace: string, retiredAt: string, marker: Option<Marker>)

  datatype Record<Avatar> = Record(
    botId: string,
    phase: Phase,
    operationId: Option<string>,
    requestId: Option<string>,
    previewRevision: Option<string>,
    clearDirectHistory: Option<bool>,
    releaseDirectBindings: Option<bool>,
    tombstone: Option<Tombstone<Avatar>>,
    error: Option<ErrorBody>,
    updatedAt: string)

  datatype Command<Avatar> =
    | Preview(revision: string, at: string)
    | Begin(operationId: string, requestId: string, revision: string,
            clearDirectHistory: bool, releaseDirectBindings: bool, at: string)
    | Fail(error: ErrorBody, at: string)
    | MarkIndeterminate(error: ErrorBody, at: string)
    | Retire(tombstone: Tombstone<Avatar>, at: string)

  datatype RemovalError = BotRetired | RemovalInProgress | BotNotRemoving | BotNotFound

  predicate Blocks(p: Phase)
  {
    p != Previewed
  }

  /** A JavaScript string is falsy when it is absent or empty. */
  predicate Truthy(s: Option<string>)
  {
    s.Some? && s.value != ""
  }

  function OrElse<T>(a: Option<T>, b: T): Option<T>
  {
    if a.Some? then a else Some(b)
  }

  function KeepTruthy(s: Option<string>): Option<string>
  {
    if Truthy(s) then s else None
  }

  function Transition<Avatar>(state: Option<Record<Avatar>>, botId: string, c: Command<Avatar>)
    : (r: Result<Record<Avatar>, RemovalError>)
  {
    match c
    case Preview(revision, at) =>
      if state.Some? && Blocks(state.value.phase) then Success(state.value)
      else
        Success(Record(
          botId, Previewed,
          if state.Some? then KeepTruthy(state.value.operationId) else None,
          if state.Some? then KeepTruthy(state.value.requestId) else None,
          Some(revision), None, None, None, None, at))
    case Begin(operationId, requestId, revision, clear, release, at) =>
      if state.Some? && state.value.phase == Retired then
        if state.value.requestId == Some(requestId) then Success(state.value) else Failure(BotRetired)
      else if state.Some? && Blocks(state.value.phase) then
        if Truthy(state.value.requestId) && state.value.requestId != Some(requestId) then Failure(RemovalInProgress)
        else
          Success(state.value.(
            phase := Deleting,
            operationId := Some(operationId),
            requestId := Some(requestId),
            previewRevision := OrElse(state.value.previewRevision, revision),
            clearDirectHistory := OrElse(state.value.clearDirectHistory, clear),
            releaseDirectBindings := OrElse(state.value.releaseDirectBindings, release),
            error := None,
            updatedAt := at))
      else
        Success(Record(
          botId, Deleting, Some(operationId), Some(requestId), Some(revision),
          Some(clear), Some(release), None, None, at))
    case Fail(error, at) =>
      if state.None? || state.value.phase == Previewed then Failure(BotNotRemoving)
      else if state.value.phase != Deleting then Success(state.value)
      else Success(state.value.(error := Some(error), updatedAt := at))
    case MarkIndeterminate(error, at) =>
      if state.None? || state.value.phase == Previewed then Failure(BotNotRemoving)
      else if state.value.phase == Retired then Success(state.value)
      else Success(state.value.(phase := Indeterminate, error := Some(error), updatedAt := at))
    case Retire(tombstone, at) =>
      if state.Some? && state.value.phase == Retired then
        if state.value.tombstone.Some? then Success(state.value)
        else Success(state.value.(tombstone := Some(tombstone), updatedAt := at))
      else if state.None? || state.value.phase != Deleting then Failure(BotNotRemoving)
      else if tombstone.id != botId then Failure(BotNotFound)
      else
        Success(state.value.(phase := Retired, tombstone := Some(tombstone), error := None, updatedAt := at))
  }

  /** The record after a list of commands; a refused command leaves it as it was. */
  function After<Avatar>(state: Option<Record<Avatar>>, botId: string, cs: seq<Command<Avatar>>)
    : Option<Record<Avatar>>
    decreases |cs|
  {
    if cs == [] then state
    else
      var before := After(state, botId, cs[..|cs| - 1]);
      var r := Transition(before, botId, cs[|cs| - 1]);
      if r.Success? then Some(r.value) else before
  }

  // ----- what every reachable record satisfies

  ghost predicate RecordOk<Avatar>(botId: string, r: Record<Avatar>)
  {
    && r.botId == botId
    && (r.tombstone.Some? <==> r.phase == Retired)
    && (r.tombstone.Some? ==> r.tombstone.value.id == botId)
    && (Blocks(r.phase) ==> r.operationId.Some? && r.requestId.Some? && r.previewRevision.Some?
                            && r.clearDirectHistory.Some? && r.releaseDirectBindings.Some?)
    && r.previewRevision.Some?
    && (r.phase == Previewed ==> r.clearDirectHistory.None? && r.releaseDirectBindings.None? && r.error.None?)
  }

  lemma {:induction false} ReachableRecordOk<Avatar>(botId: string, cs: seq<Command<Avatar>>)
    ensures After(None, botId, cs).Some? ==> RecordOk(botId, After(None, botId, cs).value)
    decreases |cs|
  {
    if cs != [] {
      ReachableRecordOk(botId, cs[..|cs| - 1]);
    }
  }

  /** Whatever the commands: a barrier phase never goes back to `previewed`, and a retired record stays. */
  lemma {:induction false} BarrierIsForever<Avatar>(state: Record<Avatar>, botId: string, cs: seq<Command<Avatar>>)
    requires Blocks(state.phase)
    ensures After(Some(state), botId, cs).Some?
    ensures Blocks(After(Some(state), botId, cs).value.phase)
    ensures state.phase == Retired && state.tombstone.Some? ==> After(Some(state), botId, cs) == Some(state)
    decreases |cs|
  {
    if cs != [] {
      BarrierIsForever(state, botId, cs[..|cs| - 1]);
    }
  }

  /** The only way into `retired` is a matching retire of a `deleting` record. */
  lemma RetireOnlyFromDeleting<Avatar>(state: Option<Record<Avatar>>, botId: string, c: Command<Avatar>)
    ensures var r := Transition(state, botId, c);
      (r.Success? && r.value.phase == Retired && !(state.Some? && state.value.phase == Retired)) <==>
      (c.Retire? && state.Some? && state.value.phase == Deleting && c.tombstone.id == botId)
  {
  }

  /** The fields one removal fixes for good. */
  predicate SameRemoval<Avatar>(a: Record<Avatar>, b: Record<Avatar>)
  {
    && a.requestId == b.requestId && a.previewRevision == b.previewRevision
    && a.clearDirectHistory == b.clearDirectHistory && a.releaseDirectBindings == b.releaseDirectBindings
  }

  /**
   Once removal began, no list of commands changes its request, revision or
   options, as long as its request id is not the empty string.
   */
  lemma {:induction false} RemovalIsFixed<Avatar>(state: Record<Avatar>, botId: string, cs: seq<Command<Avatar>>)
    requires RecordOk(botId, state) && Blocks(state.phase) && state.requestId != Some("")
    ensures After(Some(state), botId, cs).Some?
    ensures RecordOk(botId, After(Some(state), botId, cs).value) && Blocks(After(Some(state), botId, cs).value.phase)
    ensures SameRemoval(state, After(Some(state), botId, cs).value)
    decreases |cs|
  {
    if cs != [] {
      RemovalIsFixed(state, botId, cs[..|cs| - 1]);
    }
  }

  /** One command leaves the four fields fixed exactly unless a `begin` takes over an empty request id. */
  lemma RemovalIsFixedExactly<Avatar>(state: Record<Avatar>, botId: string, c: Command<Avatar>)
    requires RecordOk(botId, state) && Blocks(state.phase)
    ensures var r := Transition(Some(state), botId, c);
      (r.Success? ==> SameRemoval(state, r.value)) <==>
      !(c.Begin? && state.phase != Retired && state.requestId == Some("") && c.requestId != "")
  {
  }

  // ----- the boundary parse

  /** A property of a stored object, as `typeof` sees it. `Object` carries the named properties the code reads. */
  datatype Value<T> = Missing | Text(s: string) | Flag(b: bool) | Object(o: T) | Other

  datatype RawMarker = RawMarker(name: Value<()>, cwd: Value<()>, createdAt: Value<()>)

  datatype RawError = RawError(code: Value<()>, message: Value<()>)

  datatype RawTombstone<Stored> = RawTombstone(
    id: Value<()>, name: Value<()>, avatar: Stored, role: Value<()>, agent: Value<()>, workspace: Value<()>,
    retiredAt: Value<()>, marker: Value<RawMarker>)

  datatype RawRecord<Stored> = RawRecord(
    botId: Value<()>, phase: Value<()>, operationId: Value<()>, requestId: Value<()>, previewRevision: Value<()>,
    clearDirectHistory: Value<()>, releaseDirectBindings: Value<()>, tombstone: Value<RawTombstone<Stored>>,
    error: Value<RawError>, updatedAt: Value<()>)

  /** How an avatar is stored and read: absent, malformed, or a value. */
  datatype AvatarRead<Avatar> = Absent | Malformed | Avatar(value: Avatar)

  function PhaseName(p: Phase): string
  {
    match p
    case Previewed => "previewed"
    case Deleting => "deleting"
    case Indeterminate => "indeterminate"
    case Retired => "retired"
  }

  function ReadPhase(s: string): Option<Phase>
  {
    if s == "previewed" then Some(Previewed)
    else if s == "deleting" then Some(Deleting)
    else if s == "indeterminate" then Some(Indeterminate)
    else if s == "retired" then Some(Retired)
    else None
  }

  function ReadMarker(v: Value<RawMarker>): Option<Marker>
  {
    if v.Object? && v.o.name.Text? && v.o.cwd.Text? && v.o.createdAt.Text?
       && NonBlank(v.o.name.s) && NonBlank(v.o.cwd.s) && NonBlank(v.o.createdAt.s)
    then Some(Marker(v.o.name.s, v.o.cwd.s, v.o.createdAt.s))
    else None
  }

  function ParseTombstone<Stored, Avatar>(v: RawTombstone<Stored>, botId: string, read: Stored -> AvatarRead<Avatar>)
    : Option<Tombstone<Avatar>>
  {
    if v.id != Text(botId) || !v.name.Text? || v.name.s == "" then None
    else if !v.agent.Text? || !v.workspace.Text? || !v.retiredAt.Text? then None
    else
      var avatar := read(v.avatar);
      if avatar.Malformed? || !(v.role.Missing? || (v.role.Text? && v.role.s != "")) then None
      else
        Some(Tombstone(
          botId, v.name.s,
          if avatar.Avatar? then Some(avatar.value) else None,
          if v.role.Text? then Some(v.role.s) else None,
          v.agent.s, v.workspace.s, v.retiredAt.s, ReadMarker(v.marker)))
  }

  predicate TextOrMissing(v: Value<()>)
  {
    v.Missing? || v.Text?
  }

  predicate FlagOrMissing(v: Value<()>)
  {
    v.Missing? || v.Flag?
  }

  function ReadText(v: Value<()>): Option<string>
  {
    if v.Text? then KeepTruthy(Some(v.s)) else None
  }

  function ReadFlag(v: Value<()>): Option<bool>
  {
    if v.Flag? then Some(v.b) else None
  }

  function Parse<Stored, Avatar>(v: Value<RawRecord<Stored>>, botId: string, read: Stored -> AvatarRead<Avatar>)
    : Option<Record<Avatar>>
  {
    if !v.Object? then None
    else
      var o := v.o;
      if o.botId != Text(botId) || !o.updatedAt.Text? || !o.phase.Text? || ReadPhase(o.phase.s).None? then None
      else
        var phase := ReadPhase(o.phase.s).value;
        var tombstone := if o.tombstone.Object? then ParseTombstone(o.tombstone.o, botId, read) else None;
        if (!o.tombstone.Missing? && tombstone.None?) || (phase == Retired && tombstone.None?) then None
        else if !TextOrMissing(o.operationId) || !TextOrMissing(o.requestId) || !TextOrMissing(o.previewRevision) then None
        else if !FlagOrMissing(o.clearDirectHistory) || !FlagOrMissing(o.releaseDirectBindings) then None
        else if !o.error.Missing? && !(o.error.Object? && o.error.o.code.Text? && o.error.o.message.Text?) then None
        else
          Some(Record(
            botId, phase, ReadText(o.operationId), ReadText(o.requestId), ReadText(o.previewRevision),
            ReadFlag(o.clearDirectHistory), ReadFlag(o.releaseDirectBindings), tombstone,
            if o.error.Object? then Some(ErrorBody(o.error.o.code.s, o.error.o.message.s)) else None,
            o.updatedAt.s))
  }

  function StoreText(s: Option<string>): Value<()>
  {
    if s.Some? then Text(s.value) else Missing
  }

  function StoreFlag(b: Option<bool>): Value<()>
  {
    if b.Some? then Flag(b.value) else Missing
  }

  function StoreTombstone<Stored, Avatar>(t: Tombstone<Avatar>, store: Option<Avatar> -> Stored): RawTombstone<Stored>
  {
    RawTombstone(
      Text(t.id), Text(t.name), store(t.avatar), StoreText(t.role), Text(t.agent), Text(t.workspace), Text(t.retiredAt),
      if t.marker.Some?
      then Object(RawMarker(Text(t.marker.value.name), Text(t.marker.value.cwd), Text(t.marker.value.createdAt)))
      else Missing)
  }

  /** What JSON storage keeps of a record: absent properties are left out. */
  function Store<Stored, Avatar>(r: Record<Avatar>, store: Option<Avatar> -> Stored): Value<RawRecord<Stored>>
  {
    Object(RawRecord(
      Text(r.botId), Text(PhaseName(r.phase)), StoreText(r.operationId), StoreText(r.requestId),
      StoreText(r.previewRevision), StoreFlag(r.clearDirectHistory), StoreFlag(r.releaseDirectBindings),
      if r.tombstone.Some? then Object(StoreTombstone(r.tombstone.value, store)) else Missing,
      if r.error.Some? then Object(RawError(Text(r.error.value.code), Text(r.error.value.message))) else Missing,
      Text(r.updatedAt)))
  }

  ghost predicate AvatarsRoundTrip<Stored, Avatar(!new)>(store: Option<Avatar> -> Stored, read: Stored -> AvatarRead<Avatar>)
  {
    && read(store(None)) == Absent
    && forall a :: read(store(Some(a))) == AvatarRead.Avatar(a)
  }

  ghost predicate MarkerStorable(m: Marker)
  {
    NonBlank(m.name) && NonBlank(m.cwd) && NonBlank(m.createdAt)
  }

  ghost predicate TombstoneStorable<Avatar>(botId: string, t: Tombstone<Avatar>)
  {
    t.id == botId && t.name != "" && t.role != Some("") && (t.marker.Some? ==> MarkerStorable(t.marker.value))
  }

  ghost predicate Storable<Avatar>(r: Record<Avatar>)
  {
    && r.operationId != Some("") && r.requestId != Some("") && r.previewRevision != Some("")
    && (r.tombstone.Some? ==> TombstoneStorable(r.botId, r.tombstone.value))
    && (r.phase == Retired ==> r.tombstone.Some?)
  }

  lemma PhaseNamesReadBack(p: Phase)
    ensures ReadPhase(PhaseName(p)) == Some(p)
  {
    assert "previewed"[0] == 'p' && "deleting"[0] == 'd' && "indeterminate"[0] == 'i' && "retired"[0] == 'r';
  }

  /** A record comes back from storage unchanged if and only if it is storable. */
  lemma ParseReadsBackExactly<Stored, Avatar(!new)>(
    r: Record<Avatar>, store: Option<Avatar> -> Stored, read: Stored -> AvatarRead<Avatar>)
    requires AvatarsRoundTrip(store, read)
    ensures Parse(Store(r, store), r.botId, read) == Some(r) <==> Storable(r)
  {
    PhaseNamesReadBack(r.phase);
    var parsed := Parse(Store(r, store), r.botId, read);
    if r.tombstone.Some? {
      var t := r.tombstone.value;
      var back := ParseTombstone(StoreTombstone(t, store), r.botId, read);
      assert read(store(t.avatar)) == if t.avatar.Some? then AvatarRead.Avatar(t.avatar.value) else Absent;
      assert back == Some(t) <==> TombstoneStorable(r.botId, t);
    }
  }

  /** Commands as the removal service issues them. */
  ghost predicate CommandOk<Avatar>(botId: string, c: Command<Avatar>)
  {
    match c
    case Preview(revision, _) => revision != ""
    case Begin(operationId, requestId, revision, _, _, _) => operationId != "" && requestId != "" && revision != ""
    case Retire(tombstone, _) => TombstoneStorable(botId, tombstone)
    case _ => true
  }

  /** So every record the service can reach survives storage. */
  lemma {:induction false} ReachableRecordsReadBack<Stored, Avatar(!new)>(
    botId: string, cs: seq<Command<Avatar>>, store: Option<Avatar> -> Stored, read: Stored -> AvatarRead<Avatar>)
    requires AvatarsRoundTrip(store, read)
    requires forall i :: 0 <= i < |cs| ==> CommandOk(botId, cs[i])
    ensures var r := After(None, botId, cs);
      r.Some? ==> r.value.botId == botId && Storable(r.value) && Parse(Store(r.value, store), botId, read) == r
    decreases |cs|
  {
    if cs != [] {
      ReachableRecordsReadBack(botId, cs[..|cs| - 1], store, read);
      ReachableRecordOk(botId, cs[..|cs| - 1]);
      ReachableRecordOk(botId, cs);
      assert CommandOk(botId, cs[|cs| - 1]);
      var r := After(None, botId, cs);
      if r.Some? {
        ParseReadsBackExactly(r.value, store, read);
      }
    }
  }
}
