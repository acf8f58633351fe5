/**
 Managed adapter releases of one adapter: the crash-tolerant install and its
 recovery (adapter-preinstall.ts) and the two-scan garbage collector
 (adapter-gc.ts), over the adapter's directory as mutable state.

 Every operation runs under the adapter operation lock. A process can fail or
 die at every point between two file system effects; which, is the `fault`
 argument, so a postcondition for all `fault`s speaks about every such point.
 */
module AdapterLifecycle {
  import opened Common

  type ReleaseId = string
  type Command = string

  datatype Manifest = Manifest(
    id: string, packageName: string, version: string, releaseId: ReleaseId, registry: string, nodeExecutable: string)

  /** A file written through a temporary file is either absent, partly written there, or whole. */
  datatype Dir = Dir(package: bool, temp: Option<Manifest>, manifest: Option<Manifest>)

  datatype Pointer = Pointer(version: string, releaseId: ReleaseId) | Unreadable

  datatype Fault = Go | Throw | Die

  /** The points of `preinstallAdapter`, in the order they are passed. */
  datatype Point =
    | StagingCreated
    | PackageInstall
    | BeforeWriteManifest | BeforeRenameManifest | AfterRenameManifest
    | ValidateStaging
    | BeforeReleaseRename | AfterReleaseRename
    | ValidateRelease
    | BeforeWritePointer | BeforeRenamePointer | AfterRenamePointer
    | InCatch

  datatype Outcome = Done | Threw | Died

  function Stopped(f: Fault): Outcome
    requires f != Go
  {
    if f == Throw then Threw else Died
  }

  /** `isManifest` and the static part of `validateAdapterRelease` for a directory of this name. */
  predicate Complete(id: string, name: ReleaseId, d: Dir)
  {
    d.package && d.manifest.Some? && d.manifest.value.releaseId == name && d.manifest.value.id == id
  }

  /** `active.json`, if present, names a release of its version; every release is whole, validated and rightly named. */
  ghost predicate SafeStore(id: string, releases: map<ReleaseId, Dir>, active: Option<Pointer>)
  {
    && (forall r :: r in releases ==> Complete(id, r, releases[r]))
    && (active.Some? ==>
          && active.value.Pointer? && active.value.releaseId in releases
          && releases[active.value.releaseId].manifest.value.version == active.value.version)
  }

  /** One published release, with or without the pointer at it. */
  lemma PublishKeepsSafe(id: string, releases: map<ReleaseId, Dir>, active: Option<Pointer>, m: Manifest)
    requires SafeStore(id, releases, active) && m.id == id && m.releaseId !in releases
    ensures var releases' := releases[m.releaseId := Dir(true, None, Some(m))];
      SafeStore(id, releases', active) && SafeStore(id, releases', Some(Pointer(m.version, m.releaseId)))
  {
  }

  // ----- references

  /** What a command says: not a managed launch, one nobody can decode, or a node running a release. */
  datatype Reference = Unmanaged | Undecodable | Managed(node: string, releaseId: ReleaseId)

  datatype Orphans = NotWindows | ScanFailed | Snapshot(revision: string, commands: seq<Command>)

  /** The files GC reads beside the adapter directory, at one moment. */
  datatype Environment = Environment(stateCommands: Option<seq<Command>>, orphans: Orphans, releasesValid: bool)

  datatype GcError = ScanError | ReferenceError

  datatype Disposition = Removed | Active | Referenced | Changed | Missing

  datatype GcResult = GcResult(releaseId: ReleaseId, disposition: Disposition)

  /** The revision hashes these three; the hash is taken as injective. */
  datatype Revision = Revision(active: Option<Pointer>, stateCommands: seq<Command>, orphans: string)

  datatype Snapshot = ReferenceSnapshot(active: Option<ReleaseId>, referenced: set<ReleaseId>, revision: Revision)

  function Node(releases: map<ReleaseId, Dir>, r: ReleaseId): Option<string>
  {
    if r in releases && releases[r].manifest.Some? then Some(releases[r].manifest.value.nodeExecutable) else None
  }

  /** One command decodes safely: some release controls its node, and the release it names does. */
  predicate DecodesTo(releases: map<ReleaseId, Dir>, ref: Reference)
  {
    ref.Managed? && Node(releases, ref.releaseId) == Some(ref.node)
  }

  /** The releases that a list of commands refers to; any doubt about one command rejects the list. */
  function DecodeReferences(releases: map<ReleaseId, Dir>, decode: Command -> Reference, commands: seq<Command>)
    : Result<set<ReleaseId>, GcError>
  {
    if commands == [] then Success({})
    else
      var rest := DecodeReferences(releases, decode, commands[..|commands| - 1]);
      var ref := decode(commands[|commands| - 1]);
      if rest.Failure? || ref.Unmanaged? then rest
      else if !DecodesTo(releases, ref) then Failure(ReferenceError)
      else Success(rest.value + {ref.releaseId})
  }

  function OrphanCommands(o: Orphans): seq<Command>
  {
    if o.Snapshot? then o.commands else []
  }

  function OrphanRevision(o: Orphans): string
  {
    if o.Snapshot? then o.revision else "unix"
  }

  function Scan(releases: map<ReleaseId, Dir>, active: Option<Pointer>, decode: Command -> Reference, e: Environment)
    : Result<Snapshot, GcError>
  {
    if !e.releasesValid || active == Some(Unreadable) || e.stateCommands.None? || e.orphans.ScanFailed? then
      Failure(ScanError)
    else
      var refs := DecodeReferences(releases, decode, e.stateCommands.value + OrphanCommands(e.orphans));
      if refs.Failure? then Failure(refs.error)
      else
        Success(ReferenceSnapshot(
          if active.Some? then Some(active.value.releaseId) else None,
          refs.value,
          Revision(active, e.stateCommands.value, OrphanRevision(e.orphans))))
  }

  /** Orphan snapshots hash every record they list, so equal revisions list equal commands. */
  ghost predicate HonestOrphans(envs: nat -> Environment)
  {
    forall i: nat, j: nat ::
      OrphanRevision(envs(i).orphans) == OrphanRevision(envs(j).orphans) ==>
        OrphanCommands(envs(i).orphans) == OrphanCommands(envs(j).orphans)
  }

  /** Some command of the environment names the release, whatever releases are installed. */
  ghost predicate NamedIn(decode: Command -> Reference, e: Environment, r: ReleaseId)
  {
    e.stateCommands.Some? &&
    exists k :: 0 <= k < |Commands(e)| && decode(Commands(e)[k]).Managed? && decode(Commands(e)[k]).releaseId == r
  }

  function Commands(e: Environment): seq<Command>
    requires e.stateCommands.Some?
  {
    e.stateCommands.value + OrphanCommands(e.orphans)
  }

  /** A successful decode finds exactly the releases that the commands name. */
  lemma {:induction false} DecodeIsExact(
    releases: map<ReleaseId, Dir>, decode: Command -> Reference, commands: seq<Command>, r: ReleaseId)
    requires DecodeReferences(releases, decode, commands).Success?
    ensures r in DecodeReferences(releases, decode, commands).value <==>
      exists k :: 0 <= k < |commands| && decode(commands[k]).Managed? && decode(commands[k]).releaseId == r
  {
    if commands != [] {
      var n := |commands| - 1;
      DecodeIsExact(releases, decode, commands[..n], r);
      if r in DecodeReferences(releases, decode, commands).value {
        if r in DecodeReferences(releases, decode, commands[..n]).value {
          var k :| 0 <= k < n && decode(commands[..n][k]).Managed? && decode(commands[..n][k]).releaseId == r;
          assert commands[k] == commands[..n][k];
        } else {
          assert decode(commands[n]).Managed? && decode(commands[n]).releaseId == r;
        }
      }
      if k :| 0 <= k < |commands| && decode(commands[k]).Managed? && decode(commands[k]).releaseId == r {
        if k < n {
          assert commands[..n][k] == commands[k];
        }
      }
    }
  }

  /** It succeeds exactly when every managed command runs an installed release on that release's own node. */
  lemma {:induction false} DecodeSucceedsExactly(
    releases: map<ReleaseId, Dir>, decode: Command -> Reference, commands: seq<Command>)
    ensures DecodeReferences(releases, decode, commands).Success? <==>
      forall k :: 0 <= k < |commands| ==> decode(commands[k]).Unmanaged? || DecodesTo(releases, decode(commands[k]))
  {
    if commands != [] {
      var n := |commands| - 1;
      DecodeSucceedsExactly(releases, decode, commands[..n]);
      assert forall k :: 0 <= k < n ==> commands[..n][k] == commands[k];
      if DecodeReferences(releases, decode, commands).Success? {
        forall k | 0 <= k < |commands|
          ensures decode(commands[k]).Unmanaged? || DecodesTo(releases, decode(commands[k]))
        {
          if k < n {
            assert commands[..n][k] == commands[k];
          }
        }
      }
    }
  }

  /** Two scans with one revision see one set of references, though releases may have gone in between. */
  lemma SameRevisionSameReferences(
    before: map<ReleaseId, Dir>, after: map<ReleaseId, Dir>, active: Option<Pointer>, decode: Command -> Reference,
    envs: nat -> Environment, i: nat, j: nat)
    requires HonestOrphans(envs)
    requires Scan(before, active, decode, envs(i)).Success? && Scan(after, active, decode, envs(j)).Success?
    requires Scan(before, active, decode, envs(i)).value.revision == Scan(after, active, decode, envs(j)).value.revision
    ensures Scan(before, active, decode, envs(i)).value.referenced == Scan(after, active, decode, envs(j)).value.referenced
  {
    var cs := Commands(envs(i));
    assert cs == Commands(envs(j));
    var a := Scan(before, active, decode, envs(i)).value.referenced;
    var b := Scan(after, active, decode, envs(j)).value.referenced;
    forall r ensures r in a <==> r in b {
      DecodeIsExact(before, decode, cs, r);
      DecodeIsExact(after, decode, cs, r);
    }
  }

  // ----- what garbage collection decides

  function RevisionOf(active: Option<Pointer>, e: Environment): Option<Revision>
  {
    if e.stateCommands.Some? then Some(Revision(active, e.stateCommands.value, OrphanRevision(e.orphans))) else None
  }

  /** The disposition of one installed target, in terms of what the commands name. */
  ghost function Verdict(
    active: Option<Pointer>, decode: Command -> Reference, first: Environment, second: Environment, r: ReleaseId)
    : Disposition
  {
    if active.Some? && active.value.Pointer? && active.value.releaseId == r then Active
    else if NamedIn(decode, first, r) then Referenced
    else if RevisionOf(active, second) != RevisionOf(active, first) then Changed
    else Removed
  }

  /** A removed release was not the active one, and no command of either scan names it. */
  lemma RemovedIsUnused(
    active: Option<Pointer>, decode: Command -> Reference, envs: nat -> Environment, i: nat, r: ReleaseId)
    requires HonestOrphans(envs) && Verdict(active, decode, envs(0), envs(i), r) == Removed
    ensures !(active.Some? && active.value.Pointer? && active.value.releaseId == r)
    ensures !NamedIn(decode, envs(0), r) && !NamedIn(decode, envs(i), r)
  {
    if envs(0).stateCommands.Some? {
      assert Commands(envs(0)) == Commands(envs(i));
    }
  }

  function RemovedIds(results: seq<GcResult>): set<ReleaseId>
  {
    set i | 0 <= i < |results| && results[i].disposition == Removed :: results[i].releaseId
  }

  lemma RemovedIdsAppend(results: seq<GcResult>, last: GcResult)
    ensures RemovedIds(results + [last]) ==
      RemovedIds(results) + if last.disposition == Removed then {last.releaseId} else {}
  {
    var longer := results + [last];
    forall x | x in RemovedIds(results) ensures x in RemovedIds(longer) {
      var i :| 0 <= i < |results| && results[i].disposition == Removed && results[i].releaseId == x;
      assert longer[i] == results[i];
    }
    if last.disposition == Removed {
      assert longer[|results|] == last;
    }
  }

  /** What a successful scan reports, in terms of what the commands name. */
  ghost predicate Reports(scan: Snapshot, active: Option<Pointer>, decode: Command -> Reference, e: Environment)
  {
    && scan.active == (if active.Some? && active.value.Pointer? then Some(active.value.releaseId) else None)
    && RevisionOf(active, e) == Some(scan.revision)
    && forall r :: r in scan.referenced <==> NamedIn(decode, e, r)
  }

  lemma ScanReports(releases: map<ReleaseId, Dir>, active: Option<Pointer>, decode: Command -> Reference, e: Environment)
    requires Scan(releases, active, decode, e).Success?
    ensures Reports(Scan(releases, active, decode, e).value, active, decode, e)
  {
    forall r ensures r in Scan(releases, active, decode, e).value.referenced <==> NamedIn(decode, e, r) {
      DecodeIsExact(releases, decode, Commands(e), r);
    }
  }

  /** The results so far are the verdicts on the first targets. */
  ghost predicate Decided(
    results: seq<GcResult>, targets: seq<ReleaseId>, active: Option<Pointer>, decode: Command -> Reference,
    envs: nat -> Environment)
  {
    && |results| <= |targets|
    && forall k :: 0 <= k < |results| ==>
         results[k] == GcResult(targets[k], Verdict(active, decode, envs(0), envs(k + 1), targets[k]))
  }

  ghost predicate Distinct(s: seq<ReleaseId>)
  {
    forall i, j :: 0 <= i < j < |s| ==> s[i] != s[j]
  }

  // ----- one operation of a history

  datatype Operation =
    | Preinstall(m: Manifest, dir: string, temp: string, fault: Point -> Fault)
    | Recover(stopAfter: nat)
    | Collect(target: Option<ReleaseId>, decode: Command -> Reference, envs: nat -> Environment)

  /** What a store has published. */
  datatype Published = Published(releases: map<ReleaseId, Dir>, active: Option<Pointer>)

  /**
   The operation is a collection, and the release was neither active nor named
   by a command at the first scan or at the second one, that of its removal.
   */
  ghost predicate CollectedUnused(op: Operation, active: Option<Pointer>, r: ReleaseId)
  {
    && op.Collect?
    && !(active.Some? && active.value.Pointer? && active.value.releaseId == r)
    && exists second: nat :: second > 0 && UnnamedIn(op, second, r)
  }

  ghost predicate UnnamedIn(op: Operation, second: nat, r: ReleaseId)
    requires op.Collect?
  {
    HonestOrphans(op.envs) ==> !NamedIn(op.decode, op.envs(0), r) && !NamedIn(op.decode, op.envs(second), r)
  }

  lemma VerdictIsUnused(op: Operation, active: Option<Pointer>, second: nat, r: ReleaseId)
    requires op.Collect? && second > 0
    requires Verdict(active, op.decode, op.envs(0), op.envs(second), r) == Removed
    ensures CollectedUnused(op, active, r)
  {
    if HonestOrphans(op.envs) {
      RemovedIsUnused(active, op.decode, op.envs, second, r);
    }
    assert UnnamedIn(op, second, r);
  }

  /** Whatever release is gone after an operation was collected by it as unused. */
  ghost predicate LosesOnlyUnused(ops: seq<Operation>, seen: seq<Published>)
    requires |seen| == |ops| + 1
  {
    forall k, r :: 0 <= k < |ops| && r in seen[k].releases && r !in seen[k + 1].releases ==>
      CollectedUnused(ops[k], seen[k].active, r)
  }

  lemma LosesOneMore(ops: seq<Operation>, before: seq<Published>, seen: seq<Published>, i: nat)
    requires i < |ops| && |before| == i + 1 && |seen| == i + 2 && before <= seen
    requires LosesOnlyUnused(ops[..i], before)
    requires forall r :: r in seen[i].releases && r !in seen[i + 1].releases ==> CollectedUnused(ops[i], seen[i].active, r)
    ensures LosesOnlyUnused(ops[..i + 1], seen)
  {
    forall k, r | 0 <= k < i + 1 && r in seen[k].releases && r !in seen[k + 1].releases
      ensures CollectedUnused(ops[..i + 1][k], seen[k].active, r)
    {
      if k < i {
        assert before[k] == seen[k] && before[k + 1] == seen[k + 1] && ops[..i][k] == ops[k];
      }
    }
  }

  /** A release that was there once and is gone later was collected as unused in between. */
  lemma {:induction false} LostWasUnused(ops: seq<Operation>, seen: seq<Published>, i: nat, j: nat, r: ReleaseId)
    requires |seen| == |ops| + 1 && LosesOnlyUnused(ops, seen)
    requires i <= j <= |ops| && r in seen[i].releases && r !in seen[j].releases
    ensures exists k :: i <= k < j && r in seen[k].releases && CollectedUnused(ops[k], seen[k].active, r)
  {
    if r !in seen[j - 1].releases {
      LostWasUnused(ops, seen, i, j - 1, r);
    }
  }

  /** The directory `adapters/<id>`. */
  class AdapterStore {
    const id: string
    var staging: map<string, Dir>
    var releases: map<ReleaseId, Dir>
    var pointerTemps: set<string>
    var active: Option<Pointer>

    ghost predicate Safe()
      reads this
    {
      SafeStore(id, releases, active)
    }

    constructor (id: string)
      ensures this.id == id && Safe()
      ensures staging == map[] && releases == map[] && pointerTemps == {} && active == None
    {
      this.id := id;
      staging, releases, pointerTemps, active := map[], map[], {}, None;
    }

    /** Install the package and write the manifest: only the staging directory changes. */
    method Stage(m: Manifest, dir: string, fault: Point -> Fault) returns (r: Outcome)
      requires dir in staging && staging[dir] == Dir(false, None, None)
      modifies this`staging
      ensures dir in staging && staging - {dir} == old(staging) - {dir}
      ensures r == Done ==> staging[dir] == Dir(true, None, Some(m))
      ensures (forall p :: fault(p) == Go) ==> r == Done
    {
      if fault(PackageInstall) != Go { return Stopped(fault(PackageInstall)); }
      staging := staging[dir := Dir(true, None, None)];
      if fault(BeforeWriteManifest) != Go { return Stopped(fault(BeforeWriteManifest)); }
      staging := staging[dir := Dir(true, Some(m), None)];
      if fault(BeforeRenameManifest) != Go { return Stopped(fault(BeforeRenameManifest)); }
      staging := staging[dir := Dir(true, None, Some(m))];
      if fault(AfterRenameManifest) != Go { return Stopped(fault(AfterRenameManifest)); }
      r := if fault(ValidateStaging) != Go then Stopped(fault(ValidateStaging)) else Done;
    }

    /** Rename the staged directory to its release. A rename onto an existing release fails. */
    method Publish(m: Manifest, dir: string, fault: Point -> Fault) returns (r: Outcome)
      requires dir in staging && staging[dir] == Dir(true, None, Some(m))
      modifies this`staging, this`releases
      ensures (staging == old(staging) && releases == old(releases)) ||
        (m.releaseId !in old(releases) && staging == old(staging) - {dir} &&
         releases == old(releases)[m.releaseId := Dir(true, None, Some(m))])
      ensures r == Done ==> releases != old(releases)
      ensures m.releaseId !in old(releases) && (forall p :: fault(p) == Go) ==> r == Done
    {
      if fault(BeforeReleaseRename) != Go { return Stopped(fault(BeforeReleaseRename)); }
      if m.releaseId in releases { return Threw; }
      releases := releases[m.releaseId := staging[dir]];
      staging := staging - {dir};
      assert m.releaseId in releases;
      if fault(AfterReleaseRename) != Go { return Stopped(fault(AfterReleaseRename)); }
      r := if fault(ValidateRelease) != Go then Stopped(fault(ValidateRelease)) else Done;
    }

    /** Write the pointer through a temporary file. */
    method Activate(m: Manifest, temp: string, fault: Point -> Fault) returns (r: Outcome)
      modifies this`pointerTemps, this`active
      ensures active == old(active) || active == Some(Pointer(m.version, m.releaseId))
      ensures pointerTemps <= old(pointerTemps) + {temp}
      ensures r == Done ==> active == Some(Pointer(m.version, m.releaseId)) && pointerTemps == old(pointerTemps)
      ensures temp !in old(pointerTemps) && (forall p :: fault(p) == Go) ==> r == Done
    {
      if fault(BeforeWritePointer) != Go { return Stopped(fault(BeforeWritePointer)); }
      if temp in pointerTemps { return Threw; }
      pointerTemps := pointerTemps + {temp};
      if fault(BeforeRenamePointer) != Go { return Stopped(fault(BeforeRenamePointer)); }
      pointerTemps := pointerTemps - {temp};
      active := Some(Pointer(m.version, m.releaseId));
      r := if fault(AfterRenamePointer) != Go then Stopped(fault(AfterRenamePointer)) else Done;
    }

    /**
     One preinstall with any pattern of failures and any point of death. The
     store is safe at the end, whatever the end is; other releases are untouched;
     the pointer is the old one or the new release.
     */
    method Preinstall(m: Manifest, dir: string, temp: string, fault: Point -> Fault) returns (r: Outcome)
      requires Safe() && m.id == id
      modifies this
      ensures Safe()
      ensures releases == old(releases) ||
        (m.releaseId !in old(releases) && releases == old(releases)[m.releaseId := Dir(true, None, Some(m))])
      ensures active == old(active) ||
        (active == Some(Pointer(m.version, m.releaseId)) && m.releaseId !in old(releases) && m.releaseId in releases)
      ensures r == Done ==>
        active == Some(Pointer(m.version, m.releaseId)) && m.releaseId in releases && m.releaseId !in old(releases)
      ensures r == Done || (r == Threw && fault(StagingCreated) == Go) ==> staging == old(staging)
      ensures staging - {dir} == old(staging) - {dir} && (dir in old(staging) ==> staging == old(staging))
      ensures pointerTemps <= old(pointerTemps) + {temp}
      ensures (dir !in old(staging) && temp !in old(pointerTemps) && m.releaseId !in old(releases) &&
               forall p :: fault(p) == Go) ==> r == Done
    {
      if dir in staging { return Threw; }
      if m.releaseId !in releases {
        PublishKeepsSafe(id, releases, active, m);
      }
      staging := staging[dir := Dir(false, None, None)];
      if fault(StagingCreated) != Go { return Stopped(fault(StagingCreated)); }
      r := Stage(m, dir, fault);
      if r == Done {
        r := Publish(m, dir, fault);
      }
      if r == Done {
        r := Activate(m, temp, fault);
      }
      if r == Threw && fault(InCatch) == Die { return Died; }
      if r == Threw {
        staging := staging - {dir};
      }
    }

    /** Any member of a non-empty set of names. */
    static method Pick(names: set<string>) returns (name: string)
      requires names != {}
      ensures name in names
    {
      name :| name in names;
    }

    /**
     Recovery deletes leftovers and then checks the pointer; it dies after
     `stopAfter` deletions if it has that many. It takes any store: what it
     leaves, when it ends, has no leftovers and no dangling pointer. A safe
     store keeps its pointer and its releases at every point.
     */
    method Recover(stopAfter: nat) returns (finished: bool)
      modifies this
      ensures releases == old(releases)
      ensures old(Safe()) ==> Safe() && active == old(active)
      ensures staging.Keys <= old(staging).Keys && pointerTemps <= old(pointerTemps)
      ensures finished ==> staging == map[] && pointerTemps == {}
      ensures finished ==> active == old(active) || active == None
      ensures finished && active.Some? ==> active.value.Pointer? && active.value.releaseId in releases
      ensures |old(staging)| + |old(pointerTemps)| < stopAfter ==> finished
    {
      var done := 0;
      while staging != map[]
        invariant staging.Keys <= old(staging).Keys
        invariant releases == old(releases) && active == old(active) && pointerTemps == old(pointerTemps)
        invariant done + |staging| == |old(staging)|
        decreases |staging|
      {
        if done >= stopAfter { return false; }
        var name := Pick(staging.Keys);
        staging := staging - {name};
        done := done + 1;
      }
      while pointerTemps != {}
        invariant staging == map[] && pointerTemps <= old(pointerTemps)
        invariant releases == old(releases) && active == old(active)
        invariant done + |pointerTemps| == |old(staging)| + |old(pointerTemps)|
        decreases |pointerTemps|
      {
        if done >= stopAfter { return false; }
        var name := Pick(pointerTemps);
        pointerTemps := pointerTemps - {name};
        done := done + 1;
      }
      if done >= stopAfter { return false; }
      if active.Some? && (active.value.Unreadable? || active.value.releaseId !in releases) {
        active := None;
      }
      finished := true;
    }

    /** The installed releases, each once. */
    method ListReleases() returns (names: seq<ReleaseId>)
      ensures Distinct(names) && forall r :: r in names <==> r in releases
    {
      names := [];
      var left := releases.Keys;
      while left != {}
        invariant left <= releases.Keys && Distinct(names)
        invariant forall r :: r in names <==> r in releases && r !in left
        decreases left
      {
        var name := Pick(left);
        names := names + [name];
        left := left - {name};
      }
    }

    /** One turn of the loop: the verdict on an installed target, carried out. */
    method CollectOne(name: ReleaseId, first: Snapshot, decode: Command -> Reference, ghost e0: Environment, e: Environment)
      returns (r: Result<Disposition, GcError>)
      requires Safe() && name in releases && Reports(first, active, decode, e0)
      modifies this`releases
      ensures Safe()
      ensures r.Success? ==> r.value == Verdict(active, decode, e0, e, name)
      ensures releases == if r == Success(Removed) then old(releases) - {name} else old(releases)
    {
      if first.active == Some(name) { return Success(Active); }
      if name in first.referenced { return Success(Referenced); }
      var scan := Scan(releases, active, decode, e);
      if scan.Failure? { return Failure(scan.error); }
      if scan.value.revision != first.revision { return Success(Changed); }
      if name !in releases { return Success(Missing); }
      releases := releases - {name};
      r := Success(Removed);
    }

    /** The loop over the targets. */
    method CollectAll(names: seq<ReleaseId>, first: Snapshot, decode: Command -> Reference, envs: nat -> Environment)
      returns (r: Result<seq<GcResult>, GcError>, ghost log: seq<GcResult>)
      requires Safe() && Reports(first, active, decode, envs(0))
      requires Distinct(names) && forall x :: x in names ==> x in releases
      modifies this`releases
      ensures Safe()
      ensures releases == old(releases) - RemovedIds(log)
      ensures Decided(log, names, active, decode, envs)
      ensures r.Success? ==> r.value == log && |log| == |names|
    {
      var results: seq<GcResult> := [];
      for k := 0 to |names|
        invariant Safe() && |results| == k
        invariant releases == old(releases) - RemovedIds(results)
        invariant Decided(results, names, active, decode, envs)
      {
        var name := names[k];
        assert name !in RemovedIds(results);
        var one := CollectOne(name, first, decode, envs(0), envs(k + 1));
        if one.Failure? { return Failure(one.error), results; }
        RemovedIdsAppend(results, GcResult(name, one.value));
        results := results + [GcResult(name, one.value)];
      }
      r, log := Success(results), results;
    }

    /**
     One collection, with `envs(0)` at the first scan and `envs(k + 1)` at the
     second scan for target `k`. `log` is what was decided, also when a later
     scan rejects the run; every target gets at most one verdict, and exactly
     one when the run succeeds.
     */
    method GarbageCollect(target: Option<ReleaseId>, decode: Command -> Reference, envs: nat -> Environment)
      returns (r: Result<seq<GcResult>, GcError>, ghost log: seq<GcResult>, ghost targets: seq<ReleaseId>)
      requires Safe()
      modifies this`releases
      ensures Safe()
      ensures releases == old(releases) - RemovedIds(log)
      ensures Distinct(targets) && forall x :: x in targets <==> x in old(releases) && (target.Some? ==> x == target.value)
      ensures Decided(log, targets, active, decode, envs)
      ensures r.Success? ==>
        if target.Some? && target.value !in old(releases)
        then r.value == [GcResult(target.value, Missing)]
        else r.value == log && |log| == |targets|
    {
      log := [];
      var names := ListReleases();
      if target.Some? {
        names := if target.value in releases then [target.value] else [];
      }
      targets := names;
      if !envs(0).releasesValid { return Failure(ScanError), log, targets; }
      if target.Some? && names == [] { return Success([GcResult(target.value, Missing)]), log, targets; }
      var scan := Scan(releases, active, decode, envs(0));
      if scan.Failure? { return Failure(scan.error), log, targets; }
      ScanReports(releases, active, decode, envs(0));
      r, log := CollectAll(names, scan.value, decode, envs);
    }

    /**
     Any history of operations, with any failures and deaths, keeps the store
     safe; `seen` holds the releases and the pointer between the operations, and
     no operation but a collection that found it unused ever loses a release.
     */
    method RunHistory(ops: seq<Operation>) returns (ghost seen: seq<Published>)
      requires Safe()
      requires forall i :: 0 <= i < |ops| ==> ops[i].Preinstall? ==> ops[i].m.id == id
      modifies this
      ensures Safe()
      ensures |seen| == |ops| + 1
      ensures seen[0] == Published(old(releases), old(active)) && seen[|ops|] == Published(releases, active)
      ensures LosesOnlyUnused(ops, seen)
    {
      seen := [Published(releases, active)];
      for i := 0 to |ops|
        invariant Safe() && |seen| == i + 1
        invariant seen[0] == Published(old(releases), old(active)) && seen[i] == Published(releases, active)
        invariant LosesOnlyUnused(ops[..i], seen)
      {
        RunOne(ops[i]);
        ghost var before := seen;
        seen := seen + [Published(releases, active)];
        LosesOneMore(ops, before, seen, i);
      }
      assert ops[..|ops|] == ops;
    }

    /** One operation of the history. */
    method RunOne(op: Operation)
      requires Safe() && (op.Preinstall? ==> op.m.id == id)
      modifies this
      ensures Safe()
      ensures forall r :: r in old(releases) && r !in releases ==> CollectedUnused(op, old(active), r)
    {
      match op {
        case Preinstall(m, dir, temp, fault) =>
          var _ := Preinstall(m, dir, temp, fault);
        case Recover(stopAfter) =>
          var _ := Recover(stopAfter);
        case Collect(target, decode, envs) =>
          ghost var before := active;
          var _, log, _ := GarbageCollect(target, decode, envs);
          forall r | r in old(releases) && r !in releases ensures CollectedUnused(op, before, r) {
            var k :| 0 <= k < |log| && log[k].disposition == Removed && log[k].releaseId == r;
            assert Verdict(before, decode, envs(0), envs(k + 1), r) == Removed;
            VerdictIsUnused(op, before, k + 1, r);
          }
      }
    }
  }
}
