/**
 Creating a session under one shared deadline (bridge-runtime.ts,
 `ensureSession`, `attemptEnsureSession`, `runWithVerboseFallback`).

 The world answers every spawn in any way: how long the caller idles before it, how
 long the process would take, and how it ends. A process that would outlast the
 time it is granted is killed when that is used up.
 */
module EnsureSession {
  import opened Common
  import opened Whitespace

  /** What the output of a process says: `stderr` when there is any, or else `stdout`. */
  datatype Output = Output(empty: bool, eperm: bool, notAdvertised: bool)

  datatype Exit = Exit(code: int, output: Output, unknownVerbose: bool)

  /** How the world answers a spawn; `exit` is missing when it fails for another reason than its time. */
  datatype Reply = Reply(idle: nat, wanted: nat, exit: Option<Exit>)

  datatype Stage = Ensure | Show | New | ShowAgain

  /** One spawn as it went: `exit` is missing when it was killed or failed. */
  datatype Spawn = Spawn(
    stage: Stage, verbose: bool, model: Option<string>, reply: Reply, killed: bool, exit: Option<Exit>)

  datatype SpawnError = TimedOut | Crashed

  /** `Rejected` is the source's own error class, with whether its message says the model is not advertised. */
  datatype EnsureError = Rejected(notAdvertised: bool) | Other

  function ErrorOf(e: SpawnError): EnsureError
  {
    if e == TimedOut then Rejected(false) else Other
  }

  predicate Ok(s: Spawn)
  {
    s.exit.Some? && s.exit.value.code == 0
  }

  function Idle(spawns: seq<Spawn>): nat
  {
    if spawns == [] then 0 else Idle(spawns[..|spawns| - 1]) + spawns[|spawns| - 1].reply.idle
  }

  function ExitOf(r: Result<Exit, SpawnError>): Option<Exit>
  {
    if r.Success? then Some(r.value) else None
  }

  /** The time left until the deadline, and at least 1 ms. */
  function Granted(now: nat, deadline: int): nat
  {
    if deadline - now > 1 then deadline - now else 1
  }

  /** A process still running when its time is used up is killed. */
  function Answer(reply: Reply, granted: nat): Result<Exit, SpawnError>
  {
    if reply.wanted > granted then Failure(TimedOut)
    else if reply.exit.Some? then Success(reply.exit.value)
    else Failure(Crashed)
  }

  /** The clock moves by the idle time and by what the process takes of the time it is granted. */
  predicate Timed(now: nat, later: nat, deadline: int, reply: Reply, r: Result<Exit, SpawnError>)
  {
    var granted := Granted(now + reply.idle, deadline);
    && r == Answer(reply, granted)
    && later == now + reply.idle + (if reply.wanted > granted then granted else reply.wanted)
  }

  // ----- the order of spawns

  /** A verbose spawn whose process does not know the option; it alone is repeated. */
  predicate FallsBack(s: Spawn)
  {
    s.verbose && s.exit.Some? && s.exit.value.code != 0 && s.exit.value.unknownVerbose
  }

  predicate Follows(a: Spawn, b: Spawn)
  {
    && a.exit.Some? && !Ok(a) && b.model == a.model
    && (if FallsBack(a) then b.stage == a.stage && !b.verbose
        else
          || (a.stage == Ensure && b.stage == Show)
          || (a.stage == Show && b.stage == New)
          || (a.stage == New && b.stage == ShowAgain && a.exit.value.output.eperm))
  }

  /** The probes never carry the option. */
  predicate Sound(s: Spawn)
  {
    s.verbose ==> s.stage == Ensure || s.stage == New
  }

  /** The spawns of one attempt: ensure, probe, create, probe again, each only after the one before it failed. */
  predicate Attempt(spawns: seq<Spawn>)
  {
    && spawns != []
    && var last := spawns[|spawns| - 1];
    && Sound(last)
    && (if |spawns| == 1 then last.stage == Ensure
        else Attempt(spawns[..|spawns| - 1]) && Follows(spawns[|spawns| - 2], last))
  }

  function Rank(s: Stage): nat
  {
    match s
    case Ensure => 0
    case Show => 1
    case New => 2
    case ShowAgain => 3
  }

  /** How many of the spawns fell back. */
  function Fallbacks(spawns: seq<Spawn>): nat
  {
    if spawns == [] then 0
    else Fallbacks(spawns[..|spawns| - 1]) + (if FallsBack(spawns[|spawns| - 1]) then 1 else 0)
  }

  /** An attempt is at most four spawns and the repetitions of those that fell back. */
  lemma {:induction false} AttemptLength(spawns: seq<Spawn>)
    requires Attempt(spawns)
    ensures |spawns| <= Rank(spawns[|spawns| - 1].stage) + 1 + Fallbacks(spawns[..|spawns| - 1])
    ensures |spawns| <= 4 + Fallbacks(spawns)
  {
    var front := spawns[..|spawns| - 1];
    if front != [] {
      AttemptLength(front);
    }
  }

  /** The last spawn of a stage. */
  function LastAt(spawns: seq<Spawn>, stage: Stage): Option<Spawn>
  {
    if spawns == [] then None
    else
      var last := spawns[|spawns| - 1];
      if last.stage == stage then Some(last) else LastAt(spawns[..|spawns| - 1], stage)
  }

  /** `s` is now the last spawn of its stage, and the last ones of the two creating stages are otherwise the same. */
  predicate Recorded(was: seq<Spawn>, spawns: seq<Spawn>, s: Spawn)
  {
    && LastAt(spawns, Ensure) == (if s.stage == Ensure then Some(s) else LastAt(was, Ensure))
    && LastAt(spawns, New) == (if s.stage == New then Some(s) else LastAt(was, New))
  }

  function OutputAt(spawns: seq<Spawn>, stage: Stage): Output
  {
    var last := LastAt(spawns, stage);
    if last.Some? && last.value.exit.Some? then last.value.exit.value.output else Output(true, false, false)
  }

  /** What a failed attempt rejects with: the time-out, or the output of the creation, or else of the first stage. */
  function AttemptError(spawns: seq<Spawn>): EnsureError
    requires spawns != []
  {
    var last := spawns[|spawns| - 1];
    if last.exit.None? then (if last.killed then Rejected(false) else Other)
    else
      var message := if OutputAt(spawns, New).empty then OutputAt(spawns, Ensure) else OutputAt(spawns, New);
      Rejected(!message.empty && message.notAdvertised)
  }

  /** An attempt gives up only when a spawn was killed or failed, or when creating failed too. */
  predicate GivesUp(spawns: seq<Spawn>)
  {
    && spawns != []
    && var last := spawns[|spawns| - 1];
    last.exit.None? || (!Ok(last) && !FallsBack(last) && (last.stage == New || last.stage == ShowAgain))
  }

  /** A spawn of this stage is next: the first one, or the one after a spawn that failed for good. */
  ghost predicate NextStage(xs: seq<Spawn>, stage: Stage, model: Option<string>)
  {
    if xs == [] then stage == Ensure
    else
      var last := xs[|xs| - 1];
      && Attempt(xs) && last.exit.Some? && !Ok(last) && !FallsBack(last) && last.model == model
      && stage != Ensure && Rank(last.stage) + 1 == Rank(stage)
      && (stage == ShowAgain ==> last.exit.value.output.eperm)
  }

  /** The last spawn fell back, and this one repeats it. */
  ghost predicate Repeats(xs: seq<Spawn>, stage: Stage, model: Option<string>)
  {
    && xs != [] && Attempt(xs)
    && var last := xs[|xs| - 1];
    && FallsBack(last) && last.stage == stage && last.model == model
  }

  lemma TurnFollows(xs: seq<Spawn>, s: Spawn)
    requires Sound(s)
    requires NextStage(xs, s.stage, s.model) || (!s.verbose && Repeats(xs, s.stage, s.model))
    ensures Attempt(xs + [s])
    ensures Fallbacks(xs + [s]) == Fallbacks(xs) + (if FallsBack(s) then 1 else 0)
    ensures Recorded(xs, xs + [s], s)
  {
    var all := xs + [s];
    assert all[..|all| - 1] == xs;
  }

  /** How often the option was found unknown between two readings of what is known about it. */
  function Lessons(known: Option<bool>, now: Option<bool>): nat
  {
    if now == Some(false) && known != Some(false) then 1 else 0
  }

  // ----- the runtime

  class BridgeRuntime {
    const timeout: nat
    /** `acpxVerboseSupported`: not known, known to work, known to fail. */
    var verboseSupported: Option<bool>
    var clock: nat
    var spawns: seq<Spawn>

    constructor (timeout: nat)
      requires timeout > 0
      ensures this.timeout == timeout && verboseSupported == None && clock == 0 && spawns == []
    {
      this.timeout := timeout;
      verboseSupported, clock, spawns := None, 0, [];
    }

    /** The time the attempt that began with `before` spawns can have taken by now. */
    ghost predicate OnTime(before: nat, deadline: int)
      reads this
    {
      before <= |spawns| &&
      (|spawns| > before ==> clock <= deadline + (|spawns| - before - 1) + Idle(spawns[before..]))
    }

    lemma IdleGrows(old_: seq<Spawn>, before: nat, s: Spawn)
      requires before <= |old_|
      ensures Idle((old_ + [s])[before..]) == Idle(old_[before..]) + s.reply.idle
    {
      var all := (old_ + [s])[before..];
      assert all[..|all| - 1] == old_[before..];
    }

    /** A process granted what is left until the deadline, and at least 1 ms. */
    method Launch(deadline: int) returns (reply: Reply, r: Result<Exit, SpawnError>)
      modifies this`clock
      ensures Timed(old(clock), clock, deadline, reply, r)
    {
      var idle: nat, wanted: nat, exit: Option<Exit> := *, *, *;
      reply := Reply(idle, wanted, exit);
      clock := clock + reply.idle;
      var granted := if deadline - clock > 1 then deadline - clock else 1;
      if reply.wanted > granted {
        r := Failure(TimedOut);
        clock := clock + granted;
      } else {
        r := if reply.exit.Some? then Success(reply.exit.value) else Failure(Crashed);
        clock := clock + reply.wanted;
      }
    }

    /** One spawn, on the record. */
    method Run(stage: Stage, verbose: bool, model: Option<string>, ghost before: nat, deadline: int)
      returns (r: Result<Exit, SpawnError>, ghost s: Spawn)
      requires OnTime(before, deadline)
      requires |spawns| == before ==> clock < deadline
      modifies this`clock, this`spawns
      ensures spawns == old(spawns) + [s]
      ensures s == Spawn(stage, verbose, model, s.reply, r == Failure(TimedOut), ExitOf(r))
      ensures OnTime(before, deadline) && clock >= old(clock)
    {
      var reply;
      reply, r := Launch(deadline);
      var spawn := Spawn(stage, verbose, model, reply, r == Failure(TimedOut), ExitOf(r));
      s := spawn;
      IdleGrows(spawns, before, s);
      spawns := spawns + [spawn];
    }

    /** The spawns since `before`. */
    ghost function Since(before: nat): seq<Spawn>
      requires before <= |spawns|
      reads this
    {
      spawns[before..]
    }

    /** A spawn of this stage is in its turn. */
    ghost predicate InTurn(before: nat, stage: Stage, model: Option<string>)
      reads this
    {
      before <= |spawns| && NextStage(Since(before), stage, model)
    }

    /** The last spawn fell back. */
    ghost predicate ToRepeat(before: nat, stage: Stage, model: Option<string>)
      reads this
    {
      before <= |spawns| && Repeats(Since(before), stage, model)
    }

    /** The option is never tried again once it is known to fail, and a spawn that falls back is what makes it known. */
    ghost predicate Learned(known: Option<bool>, before: nat)
      reads this
    {
      && before <= |spawns|
      && (known == Some(false) ==> verboseSupported == Some(false))
      && Fallbacks(Since(before)) == Lessons(known, verboseSupported)
    }

    /** The answer of a stage is the exit of its last spawn, or the reason for there being none. */
    ghost predicate Tells(r: Result<Exit, EnsureError>, stage: Stage, before: nat)
      reads this
    {
      && before < |spawns|
      && var last := spawns[|spawns| - 1];
      && last.stage == stage
      && (if r.Success? then last.exit == Some(r.value)
          else last.exit == None && r.error == (if last.killed then Rejected(false) else Other))
    }

    /** A failed attempt gave up for a reason, and rejects with it. */
    ghost predicate Explained(r: Result<(), EnsureError>, before: nat)
      reads this
    {
      before < |spawns| && (r.Failure? ==> GivesUp(Since(before)) && r.error == AttemptError(Since(before)))
    }

    /** One more spawn in its turn. */
    method Step(stage: Stage, verbose: bool, model: Option<string>, ghost before: nat, deadline: int)
      returns (r: Result<Exit, SpawnError>)
      requires OnTime(before, deadline) && (|spawns| == before ==> clock < deadline)
      requires InTurn(before, stage, model) || (!verbose && ToRepeat(before, stage, model))
      requires verbose ==> stage == Ensure || stage == New
      modifies this`clock, this`spawns
      ensures |spawns| == |old(spawns)| + 1 && old(spawns) <= spawns && before < |spawns|
      ensures Attempt(Since(before)) && OnTime(before, deadline) && clock >= old(clock)
      ensures var s := spawns[|spawns| - 1];
        && s.stage == stage && s.verbose == verbose && s.model == model
        && s.exit == ExitOf(r) && s.killed == (r == Failure(TimedOut))
        && Fallbacks(Since(before)) == Fallbacks(old(Since(before))) + (if FallsBack(s) then 1 else 0)
        && Recorded(old(Since(before)), Since(before), s)
    {
      ghost var xs := Since(before);
      ghost var s;
      r, s := Run(stage, verbose, model, before, deadline);
      assert Since(before) == xs + [s];
      TurnFollows(xs, s);
    }

    method RunWithVerboseFallback(stage: Stage, model: Option<string>, ghost known: Option<bool>, ghost before: nat,
                                  deadline: int)
      returns (r: Result<Exit, EnsureError>)
      requires stage == Ensure || stage == New
      requires OnTime(before, deadline) && (|spawns| == before ==> clock < deadline)
      requires InTurn(before, stage, model) && Learned(known, before)
      modifies this
      ensures old(spawns) <= spawns && before < |spawns| && clock >= old(clock)
      ensures Attempt(Since(before)) && OnTime(before, deadline) && Learned(known, before)
      ensures spawns[|spawns| - 1].model == model
      ensures Ok(spawns[|spawns| - 1]) <==> r.Success? && r.value.code == 0
      ensures r.Success? && r.value.code != 0 && stage == Ensure ==> InTurn(before, Show, model)
      ensures r.Success? && r.value.code != 0 && stage == New ==>
        GivesUp(Since(before)) && (r.value.output.eperm ==> InTurn(before, ShowAgain, model))
      ensures Tells(r, stage, before)
      ensures Recorded(old(Since(before)), Since(before), spawns[|spawns| - 1])
    {
      var useVerbose := verboseSupported != Some(false);
      var first := Step(stage, useVerbose, model, before, deadline);
      if first.Failure? {
        return Failure(ErrorOf(first.error));
      }
      if first.value.code == 0 {
        if useVerbose {
          verboseSupported := Some(true);
        }
        return Success(first.value);
      }
      if useVerbose && first.value.unknownVerbose {
        verboseSupported := Some(false);
        var second := Step(stage, false, model, before, deadline);
        if second.Failure? {
          return Failure(ErrorOf(second.error));
        }
        return Success(second.value);
      }
      return Success(first.value);
    }

    method RunShowProbe(stage: Stage, model: Option<string>, ghost known: Option<bool>, ghost before: nat, deadline: int)
      returns (r: Result<Exit, EnsureError>)
      requires (stage == Show || stage == ShowAgain) && before < |spawns|
      requires OnTime(before, deadline) && InTurn(before, stage, model) && Learned(known, before)
      modifies this`clock, this`spawns
      ensures old(spawns) <= spawns && before < |spawns| && clock >= old(clock)
      ensures Attempt(Since(before)) && OnTime(before, deadline) && Learned(known, before)
      ensures spawns[|spawns| - 1].model == model
      ensures Ok(spawns[|spawns| - 1]) <==> r.Success? && r.value.code == 0
      ensures r.Success? && r.value.code != 0 && stage == Show ==> InTurn(before, New, model)
      ensures r.Success? && r.value.code != 0 && stage == ShowAgain ==> GivesUp(Since(before))
      ensures Tells(r, stage, before)
      ensures Recorded(old(Since(before)), Since(before), spawns[|spawns| - 1])
    {
      var probe := Step(stage, false, model, before, deadline);
      if probe.Failure? {
        return Failure(ErrorOf(probe.error));
      }
      return Success(probe.value);
    }

    /**
     Four spawns at most, and one more if the verbose option turned out unknown;
     done within the init timeout, idle time aside, plus 1 ms for each spawn after
     the first; the session exists exactly when the last spawn exited with zero,
     and a failure has gone through every stage or met a spawn without an exit.
     */
    method AttemptEnsureSession(model: Option<string>) returns (r: Result<(), EnsureError>)
      requires timeout > 0
      modifies this
      ensures old(spawns) <= spawns && |old(spawns)| < |spawns|
      ensures Attempt(Since(|old(spawns)|)) && Learned(old(verboseSupported), |old(spawns)|)
      ensures |spawns| - |old(spawns)| <= 4 + Fallbacks(Since(|old(spawns)|)) <= 5
      ensures OnTime(|old(spawns)|, old(clock) + timeout) && clock >= old(clock)
      ensures (r.Success? <==> Ok(spawns[|spawns| - 1])) && Explained(r, |old(spawns)|)
      ensures spawns[|spawns| - 1].model == model
    {
      ghost var before, known := |spawns|, verboseSupported;
      var deadline := clock + timeout;
      r := Proceed(model, known, before, deadline);
      AttemptLength(Since(before));
    }

    method Proceed(model: Option<string>, ghost known: Option<bool>, ghost before: nat, deadline: int)
      returns (r: Result<(), EnsureError>)
      requires before == |spawns| && known == verboseSupported && clock < deadline
      modifies this
      ensures old(spawns) <= spawns && before < |spawns| && clock >= old(clock)
      ensures Attempt(Since(before)) && Learned(known, before) && OnTime(before, deadline)
      ensures (r.Success? <==> Ok(spawns[|spawns| - 1])) && Explained(r, before)
      ensures spawns[|spawns| - 1].model == model
    {
      var ensured :- RunWithVerboseFallback(Ensure, model, known, before, deadline);
      if ensured.code == 0 {
        return Success(());
      }
      r := ProbeOrCreate(ensured, model, known, before, deadline);
    }

    /** How the first stage ended. */
    ghost predicate Ensured(ensured: Exit, before: nat)
      reads this
    {
      && before <= |spawns|
      && var first := LastAt(Since(before), Ensure);
      first.Some? && first.value.exit == Some(ensured)
    }

    method ProbeOrCreate(ensured: Exit, model: Option<string>, ghost known: Option<bool>, ghost before: nat, deadline: int)
      returns (r: Result<(), EnsureError>)
      requires before < |spawns| && InTurn(before, Show, model) && Learned(known, before) && OnTime(before, deadline)
      requires Ensured(ensured, before)
      modifies this
      ensures old(spawns) <= spawns && before < |spawns| && clock >= old(clock)
      ensures Attempt(Since(before)) && Learned(known, before) && OnTime(before, deadline)
      ensures (r.Success? <==> Ok(spawns[|spawns| - 1])) && Explained(r, before)
      ensures spawns[|spawns| - 1].model == model
    {
      var existing :- RunShowProbe(Show, model, known, before, deadline);
      if existing.code == 0 {
        return Success(());
      }
      r := Create(ensured, model, known, before, deadline);
    }

    /** The second half: create the session, and look again if the index had to be repaired. */
    method Create(ensured: Exit, model: Option<string>, ghost known: Option<bool>, ghost before: nat, deadline: int)
      returns (r: Result<(), EnsureError>)
      requires before < |spawns| && InTurn(before, New, model) && Learned(known, before) && OnTime(before, deadline)
      requires Ensured(ensured, before)
      modifies this
      ensures old(spawns) <= spawns && before < |spawns| && clock >= old(clock)
      ensures Attempt(Since(before)) && Learned(known, before) && OnTime(before, deadline)
      ensures (r.Success? <==> Ok(spawns[|spawns| - 1])) && Explained(r, before)
      ensures spawns[|spawns| - 1].model == model
    {
      var created :- RunWithVerboseFallback(New, model, known, before, deadline);
      if created.code == 0 {
        return Success(());
      }
      var repairedIndex: bool := *;
      if created.output.eperm && repairedIndex {
        var repaired :- RunShowProbe(ShowAgain, model, known, before, deadline);
        if repaired.code == 0 {
          return Success(());
        }
      }
      var message := if created.output.empty then ensured.output else created.output;
      return Failure(Rejected(!message.empty && message.notAdvertised));
    }

    /** Exactly when the failure says that a requested model is not offered, one more attempt runs without it. */
    method EnsureSession(model: Option<string>) returns (r: Result<(), EnsureError>)
      requires timeout > 0
      modifies this
      ensures old(spawns) <= spawns && |old(spawns)| < |spawns|
      ensures old(verboseSupported) == Some(false) ==> verboseSupported == Some(false)
      ensures |spawns| - |old(spawns)| <= 8 + Lessons(old(verboseSupported), verboseSupported)
      ensures r.Success? <==> Ok(spawns[|spawns| - 1])
      ensures exists k ::
        && |old(spawns)| < k <= |spawns|
        && Attempt(spawns[|old(spawns)|..k]) && spawns[k - 1].model == model
        && (k < |spawns| ==> Attempt(spawns[k..]) && spawns[|spawns| - 1].model == None)
        && (k < |spawns| <==>
              && !Ok(spawns[k - 1]) && AttemptError(spawns[|old(spawns)|..k]) == Rejected(true)
              && model.Some? && NonBlank(model.value))
    {
      ghost var before, known := |spawns|, verboseSupported;
      r := AttemptEnsureSession(model);
      ghost var k := |spawns|;
      ghost var first := spawns;
      assert spawns[before..k] == Since(before);
      if r.Failure? && r.error.Rejected? && model.Some? && NonBlank(model.value) && r.error.notAdvertised {
        r := AttemptEnsureSession(None);
        assert spawns[before..k] == first[before..];
        assert spawns[k..] == Since(k);
      }
    }
  }

  // ----- any number of sessions

  /** However many sessions are ensured, the option is tried in vain at most once. */
  method EnsureMany(runtime: BridgeRuntime, models: seq<Option<string>>) returns (results: seq<Result<(), EnsureError>>)
    requires runtime.timeout > 0
    modifies runtime
    ensures |results| == |models|
    ensures |runtime.spawns| - |old(runtime.spawns)|
      <= 8 * |models| + Lessons(old(runtime.verboseSupported), runtime.verboseSupported)
  {
    results := [];
    var i := 0;
    while i < |models|
      invariant i == |results| <= |models|
      invariant old(runtime.verboseSupported) == Some(false) ==> runtime.verboseSupported == Some(false)
      invariant |runtime.spawns| - |old(runtime.spawns)|
        <= 8 * i + Lessons(old(runtime.verboseSupported), runtime.verboseSupported)
    {
      var r := runtime.EnsureSession(models[i]);
      results := results + [r];
      i := i + 1;
    }
  }
}
