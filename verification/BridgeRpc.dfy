/**
 The table of bridge-originated requests (bridge-server.ts, `requestDaemon`,
 `settleDaemonResponse`, `handleDisconnect`).

 An event is one callback of the event loop; writes to the channel can fail.
 Timers, abort listeners, frames written and promises settled are part of the
 state, so that what outlives an entry is visible.
 */
module BridgeRpc {
  import opened Common

  datatype Outcome = Resolved | Refused | TimedOut | Aborted | Disconnected | SendFailed

  /** `pending[id]` tells whether the caller gave a signal. `lost` are requests whose promise nobody can settle. */
  datatype Table = Table(
    nextId: nat, connected: bool, pending: map<nat, bool>, timers: set<nat>, listeners: set<nat>,
    settled: map<nat, Outcome>, lost: set<nat>, cancelFrames: seq<nat>)

  /**
   `sent` and `written` tell whether the channel took the frame. `Connect` is a
   line arriving with a writer; a response can carry any id at any time.
   */
  datatype Event =
    | Request(aborted: bool, signal: bool, sent: bool)
    | Timer(id: nat, written: bool)
    | Abort(id: nat, written: bool)
    | Response(id: nat, ok: bool)
    | Disconnect
    | Connect

  const START := Table(1, false, map[], {}, {}, map[], {}, [])

  /** A timer fires once armed, a listener runs while it is registered. */
  predicate Enabled(t: Table, e: Event)
  {
    match e
    case Timer(id, _) => id in t.timers
    case Abort(id, _) => id in t.listeners
    case _ => true
  }

  /** `cleanup` of an entry. */
  function Cleaned(t: Table, id: nat): Table
  {
    t.(timers := t.timers - {id}, listeners := t.listeners - {id})
  }

  /** Takes the entry out of the table and cleans it up. */
  function Removed(t: Table, id: nat): Table
  {
    Cleaned(t.(pending := t.pending - {id}), id)
  }

  function Settle(t: Table, id: nat, outcome: Outcome): Table
  {
    t.(settled := t.settled[id := outcome])
  }

  predicate Opens(t: Table, e: Event)
  {
    e.Request? && t.connected && !e.aborted
  }

  function ApplyRequest(t: Table, signal: bool, sent: bool): Table
  {
    var id := t.nextId;
    var t1 := t.(nextId := id + 1);
    if sent then
      t1.(pending := t1.pending[id := signal], timers := t1.timers + {id},
          listeners := if signal then t1.listeners + {id} else t1.listeners)
    else Settle(t1, id, SendFailed)
  }

  /** The timer or the abort listener of an entry: a cancel frame, then the rejection, which a failed write skips. */
  function ApplyCancel(t: Table, id: nat, written: bool, outcome: Outcome): Table
  {
    var t1 := Removed(t, id);
    if !written then t1.(lost := t1.lost + {id})
    else Settle(t1.(cancelFrames := t1.cancelFrames + [id]), id, outcome)
  }

  /** Cleans up and rejects entries that are out of the table already. */
  function Dropped(t: Table, ids: set<nat>): Table
  {
    t.(timers := t.timers - ids, listeners := t.listeners - ids,
       settled := t.settled + AllDisconnected(ids))
  }

  function AllDisconnected(ids: set<nat>): map<nat, Outcome>
  {
    map id | id in ids :: Disconnected
  }

  function Apply(t: Table, e: Event): Table
  {
    match e
    case Request(_, signal, sent) => if Opens(t, e) then ApplyRequest(t, signal, sent) else t
    case Timer(id, written) =>
      if id in t.pending then ApplyCancel(t, id, written, TimedOut) else t.(timers := t.timers - {id})
    case Abort(id, written) =>
      if id in t.pending then ApplyCancel(t, id, written, Aborted) else t.(listeners := t.listeners - {id})
    case Response(id, ok) =>
      if id in t.pending then Settle(Removed(t, id), id, if ok then Resolved else Refused) else t
    case Disconnect => Dropped(t.(connected := false, pending := map[]), t.pending.Keys)
    case Connect => t.(connected := true)
  }

  // ----- the invariant

  predicate Issued(t: Table, id: nat)
  {
    1 <= id < t.nextId
  }

  predicate Cancelled(t: Table, id: nat)
  {
    id in t.settled && (t.settled[id] == TimedOut || t.settled[id] == Aborted)
  }

  /** Every id issued is in exactly one place. */
  ghost predicate InOnePlace(t: Table, id: nat)
  {
    && (Issued(t, id) <==> id in t.pending || id in t.settled || id in t.lost)
    && !(id in t.pending && id in t.settled) && !(id in t.pending && id in t.lost)
    && !(id in t.settled && id in t.lost)
  }

  /** A timer exactly with its entry, a listener exactly with entry and signal, a frame exactly with its cancellation. */
  ghost predicate Tidy(t: Table, id: nat)
  {
    && (id in t.timers <==> id in t.pending)
    && (id in t.listeners <==> id in t.pending && t.pending[id])
    && (id in t.cancelFrames <==> Cancelled(t, id))
  }

  ghost predicate Inv(t: Table)
  {
    && t.nextId >= 1
    && (forall id :: InOnePlace(t, id))
    && (forall id :: Tidy(t, id))
    && (forall i, j :: 0 <= i < j < |t.cancelFrames| ==> t.cancelFrames[i] != t.cancelFrames[j])
    && (t.pending != map[] ==> t.connected)
  }

  lemma RequestKeepsInv(t: Table, signal: bool, sent: bool)
    requires Inv(t) && t.connected
    ensures Inv(ApplyRequest(t, signal, sent))
  {
    var t' := ApplyRequest(t, signal, sent);
    assert InOnePlace(t, t.nextId) && Tidy(t, t.nextId);
    forall id ensures InOnePlace(t', id) && Tidy(t', id) {
      assert InOnePlace(t, id) && Tidy(t, id);
    }
  }

  lemma CancelKeepsInv(t: Table, id: nat, written: bool, outcome: Outcome)
    requires Inv(t) && id in t.pending && (outcome == TimedOut || outcome == Aborted)
    ensures Inv(ApplyCancel(t, id, written, outcome))
  {
    var t' := ApplyCancel(t, id, written, outcome);
    assert InOnePlace(t, id) && Tidy(t, id);
    forall k ensures InOnePlace(t', k) && Tidy(t', k) {
      assert InOnePlace(t, k) && Tidy(t, k);
    }
  }

  lemma ApplyKeepsInv(t: Table, e: Event)
    requires Inv(t) && Enabled(t, e)
    ensures Inv(Apply(t, e))
  {
    var t' := Apply(t, e);
    match e
    case Request(_, signal, sent) =>
      if Opens(t, e) {
        RequestKeepsInv(t, signal, sent);
      }
    case Timer(id, written) =>
      assert Tidy(t, id);
      CancelKeepsInv(t, id, written, TimedOut);
    case Abort(id, written) =>
      assert Tidy(t, id);
      CancelKeepsInv(t, id, written, Aborted);
    case _ =>
      forall k ensures InOnePlace(t', k) && Tidy(t', k) {
        assert InOnePlace(t, k) && Tidy(t, k);
      }
  }

  // ----- runs

  /** The table after the events, when each was enabled in its turn. */
  function Run(t: Table, events: seq<Event>): Option<Table>
    decreases |events|
  {
    if events == [] then Some(t)
    else if Enabled(t, events[0]) then Run(Apply(t, events[0]), events[1..])
    else None
  }

  predicate WriteFails(e: Event)
  {
    (e.Timer? || e.Abort?) && !e.written
  }

  /** What a step leaves behind: settled promises stay as they are, ids only grow, the lost stay lost. */
  ghost predicate Extends(t: Table, t': Table)
  {
    && t.nextId <= t'.nextId
    && t.cancelFrames <= t'.cancelFrames
    && (forall id :: id in t.settled ==> id in t'.settled && t'.settled[id] == t.settled[id])
    && t.lost <= t'.lost
  }

  lemma StepExtends(t: Table, e: Event)
    requires Inv(t) && Enabled(t, e)
    ensures Extends(t, Apply(t, e))
    ensures !WriteFails(e) ==> Apply(t, e).lost == t.lost
  {
    assert InOnePlace(t, t.nextId);
    if e.Timer? || e.Abort? || e.Response? {
      assert InOnePlace(t, e.id);
    }
    if e.Disconnect? {
      forall id | id in t.settled ensures id !in t.pending {
        assert InOnePlace(t, id);
      }
    }
  }

  /**
   Over every run: each request issued is pending, settled once for good, or lost;
   none is lost as long as cancel frames can be written; no timer or listener
   outlives its entry; a cancel frame went out, once, exactly for time-outs and
   aborts.
   */
  lemma {:induction false} RunInv(t: Table, events: seq<Event>)
    requires Inv(t) && Run(t, events).Some?
    ensures Inv(Run(t, events).value) && Extends(t, Run(t, events).value)
    ensures (forall i :: 0 <= i < |events| ==> !WriteFails(events[i])) ==> Run(t, events).value.lost == t.lost
    decreases |events|
  {
    if events != [] {
      ApplyKeepsInv(t, events[0]);
      StepExtends(t, events[0]);
      RunInv(Apply(t, events[0]), events[1..]);
      if forall i :: 0 <= i < |events| ==> !WriteFails(events[i]) {
        assert !WriteFails(events[0]);
        assert forall i :: 0 <= i < |events[1..]| ==> !WriteFails(events[1..][i]);
      }
    }
  }

  lemma StartInv()
    ensures Inv(START)
  {
    forall id ensures InOnePlace(START, id) && Tidy(START, id) {}
  }

  /** From the start, with every cancel frame written: once no timer is armed, every request issued has settled. */
  lemma AllSettle(events: seq<Event>, id: nat)
    requires Run(START, events).Some? && forall i :: 0 <= i < |events| ==> !WriteFails(events[i])
    ensures var t := Run(START, events).value;
      && (Issued(t, id) <==> id in t.timers || id in t.settled)
      && !(id in t.timers && id in t.settled)
  {
    StartInv();
    RunInv(START, events);
    var t := Run(START, events).value;
    assert InOnePlace(t, id) && Tidy(t, id);
  }

  /** A pending request settles with its timer at the latest, exactly when its cancel frame can be written. */
  lemma TimerSettlesExactly(t: Table, id: nat, written: bool)
    requires Inv(t) && id in t.pending
    ensures Enabled(t, Timer(id, written))
    ensures id in Apply(t, Timer(id, written)).settled <==> written
  {
    assert Tidy(t, id) && InOnePlace(t, id);
  }

  /** A new request gets an id that nothing has ever used. */
  lemma IdsNeverRepeat(events: seq<Event>, e: Event)
    requires Run(START, events).Some? && Opens(Run(START, events).value, e)
    ensures var t := Run(START, events).value;
      && t.nextId !in t.pending && t.nextId !in t.settled && t.nextId !in t.lost && t.nextId !in t.cancelFrames
      && Issued(Apply(t, e), t.nextId)
  {
    StartInv();
    RunInv(START, events);
    var t := Run(START, events).value;
    assert InOnePlace(t, t.nextId) && Tidy(t, t.nextId);
  }

  /** A response changes the table exactly when its request is still pending. */
  lemma LateResponsesChangeNothing(t: Table, id: nat, ok: bool)
    requires Inv(t)
    ensures Apply(t, Response(id, ok)) == t <==> id !in t.pending
  {
    if id in t.pending {
      assert id !in Apply(t, Response(id, ok)).pending;
    }
  }

  lemma DroppedNone(t: Table)
    ensures Dropped(t, {}) == t
  {
    assert t.settled + AllDisconnected({}) == t.settled;
  }

  lemma DroppedOne(t: Table, done: set<nat>, id: nat)
    ensures var one := Dropped(t, done);
      Dropped(t, done + {id}) == Settle(Cleaned(one, id), id, Disconnected)
  {
    assert t.settled + AllDisconnected(done + {id}) == (t.settled + AllDisconnected(done))[id := Disconnected];
  }

  // ----- the server

  class BridgeServer {
    var nextDaemonRpcId: nat
    var connected: bool
    var pendingDaemonRequests: map<nat, bool>
    ghost var timers: set<nat>
    ghost var listeners: set<nat>
    ghost var settled: map<nat, Outcome>
    ghost var lost: set<nat>
    ghost var cancelFrames: seq<nat>

    ghost function Now(): Table
      reads this
    {
      Table(nextDaemonRpcId, connected, pendingDaemonRequests, timers, listeners, settled, lost, cancelFrames)
    }

    constructor ()
      ensures Now() == START && Inv(Now())
    {
      nextDaemonRpcId, connected, pendingDaemonRequests := 1, false, map[];
      timers, listeners, settled, lost, cancelFrames := {}, {}, map[], {}, [];
      new;
      StartInv();
    }

    /** The id of the request, unless it is rejected before it gets one. */
    method RequestDaemon(aborted: bool, signal: bool, sent: bool) returns (id: Option<nat>)
      requires Inv(Now())
      modifies this
      ensures Inv(Now()) && Now() == Apply(old(Now()), Request(aborted, signal, sent))
      ensures id == if old(connected) && !aborted then Some(old(nextDaemonRpcId)) else None
    {
      ApplyKeepsInv(Now(), Request(aborted, signal, sent));
      if !connected || aborted {
        return None;
      }
      var rpcId := nextDaemonRpcId;
      assert InOnePlace(Now(), rpcId) && Tidy(Now(), rpcId);
      nextDaemonRpcId := nextDaemonRpcId + 1;
      timers := timers + {rpcId};
      if signal {
        listeners := listeners + {rpcId};
      }
      pendingDaemonRequests := pendingDaemonRequests[rpcId := signal];
      if !sent {
        Forget(rpcId);
        settled := settled[rpcId := SendFailed];
        assert timers == old(timers) && listeners == old(listeners);
        assert pendingDaemonRequests == old(pendingDaemonRequests);
      }
      return Some(rpcId);
    }

    /** `delete`, then `cleanup`. */
    method Forget(id: nat)
      modifies this`pendingDaemonRequests, this`timers, this`listeners
      ensures Now() == Removed(old(Now()), id)
    {
      pendingDaemonRequests := pendingDaemonRequests - {id};
      Clean(id);
    }

    /** The callback of the timer or of the abort listener. */
    method Cancel(e: Event)
      requires Inv(Now()) && (e.Timer? || e.Abort?) && Enabled(Now(), e)
      modifies this
      ensures Inv(Now()) && Now() == Apply(old(Now()), e)
    {
      ApplyKeepsInv(Now(), e);
      assert Tidy(Now(), e.id);
      if e.id !in pendingDaemonRequests {
        return;
      }
      Forget(e.id);
      if connected {
        if !e.written {
          lost := lost + {e.id};
          return;
        }
        cancelFrames := cancelFrames + [e.id];
      }
      settled := settled[e.id := if e.Timer? then TimedOut else Aborted];
    }

    method SettleDaemonResponse(id: nat, ok: bool)
      requires Inv(Now())
      modifies this
      ensures Inv(Now()) && Now() == Apply(old(Now()), Response(id, ok))
    {
      ApplyKeepsInv(Now(), Response(id, ok));
      if id !in pendingDaemonRequests {
        return;
      }
      Forget(id);
      settled := settled[id := if ok then Resolved else Refused];
    }

    /** The entries are taken out first, then cleaned up and rejected one by one. */
    method HandleDisconnect()
      requires Inv(Now())
      modifies this
      ensures Inv(Now()) && Now() == Apply(old(Now()), Disconnect)
    {
      ApplyKeepsInv(Now(), Disconnect);
      var pending := pendingDaemonRequests.Keys;
      pendingDaemonRequests := map[];
      connected := false;
      RejectAll(pending);
    }

    method RejectAll(pending: set<nat>)
      modifies this`timers, this`listeners, this`settled
      ensures Now() == Dropped(old(Now()), pending)
    {
      ghost var start, done: set<nat> := Now(), {};
      var left := pending;
      DroppedNone(start);
      while left != {}
        invariant done == pending - left && left <= pending
        invariant Now() == Dropped(start, done)
        decreases |left|
      {
        var id :| id in left;
        DroppedOne(start, done, id);
        RejectDisconnected(id);
        left := left - {id};
        done := done + {id};
      }
      assert done == pending;
    }

    method RejectDisconnected(id: nat)
      modifies this`timers, this`listeners, this`settled
      ensures Now() == Settle(Cleaned(old(Now()), id), id, Disconnected)
    {
      Clean(id);
      settled := settled[id := Disconnected];
    }

    method Clean(id: nat)
      modifies this`timers, this`listeners
      ensures Now() == Cleaned(old(Now()), id)
    {
      timers, listeners := timers - {id}, listeners - {id};
    }

    method Connect()
      requires Inv(Now())
      modifies this`connected
      ensures Inv(Now()) && Now() == Apply(old(Now()), Event.Connect)
    {
      ApplyKeepsInv(Now(), Event.Connect);
      connected := true;
    }
  }
}
