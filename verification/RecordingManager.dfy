/** The record-and-replay manager: one method per critical section, each proved
    to be the protocol step of the same name. Goroutines, and what has been
    written to disk, are ghost state. */
module RecordingManager {
  import opened Options
  import opened TouchTimeline
  import P = RecordingProtocol

  datatype RecordingState = RecordingState(running: bool, stopping: bool, finalizing: bool, saved: bool)

  datatype ReplayState = ReplayState(running: bool, stopping: bool, finalizing: bool)

  datatype Snapshot = Snapshot(identity: nat, actions: seq<Action>)

  datatype Decision = Settled | Wait | Spawn(snapshot: Snapshot)

  datatype World = World(
    capturing: set<nat>, callers: map<nat, P.StopCaller>, finalizers: map<nat, P.Finalizer>, spawned: nat,
    recorded: seq<seq<Action>>, published: seq<(nat, seq<Action>)>)

  class Manager {
    var recording: RecordingState
    var replay: ReplayState
    var current: Option<seq<Action>>
    var generation: nat
    var identity: nat
    var captureDone: Option<nat>
    var persisting: bool
    ghost var world: World

    ghost function View(): P.State
      reads this
    {
      P.State(recording.running, recording.stopping, recording.finalizing, recording.saved,
              current, generation, identity, captureDone, persisting,
              replay.running, replay.stopping, replay.finalizing,
              world.capturing, world.callers, world.finalizers, world.spawned, world.recorded, world.published)
    }

    constructor ()
      ensures View() == P.Initial
    {
      recording := RecordingState(false, false, false, false);
      replay := ReplayState(false, false, false);
      current, generation, identity, captureDone, persisting := None, 0, 0, None, false;
      world := World({}, map[], map[], 0, [], []);
    }

    predicate Busy()
      reads this
    {
      recording.running || recording.stopping || recording.finalizing
      || replay.running || replay.stopping || replay.finalizing
    }

    predicate RecordingPending()
      reads this
    {
      current.Some? && !recording.saved
    }

    /** `issued` is the session identity handed out for this attempt. */
    method StartRecording(issued: nat) returns (started: bool)
      requires issued == |world.recorded| + 1
      modifies this
      ensures View() == P.Start(old(View()))
      ensures started <==> !old(View()).RefusesNewSession()
    {
      if (!recording.running && RecordingPending()) || Busy() { return false; }
      current := Some([]);
      recording := RecordingState(true, false, false, false);
      identity := issued;
      generation := generation + 1;
      captureDone := Some(generation);
      persisting := false;
      world := world.(capturing := world.capturing + {generation}, recorded := world.recorded + [[]]);
      return true;
    }

    /** captureEvent and the append calls: dropped unless this very session runs. */
    method Append(from: nat, extend: seq<Action> -> seq<Action>)
      requires P.HistoryInv(View())
      modifies this
      ensures View() == P.Extend(old(View()), from, extend)
    {
      if generation != from || !recording.running || current.None? { return; }
      current := Some(extend(current.value));
      world := world.(recorded := world.recorded[..|world.recorded| - 1] + [current.value]);
    }

    method CaptureEnd(from: nat)
      modifies this
      ensures View() == P.EndCapture(old(View()), from)
    {
      world := world.(capturing := world.capturing - {from});
      if generation != from { return; }
      recording := recording.(running := false, stopping := false, finalizing := true);
    }

    method StopBegin(ghost caller: nat) returns (done: Option<nat>)
      modifies this
      ensures View() == P.BeginStop(old(View()), caller)
      ensures world.callers[caller] == P.AwaitingCapture(done)
    {
      done := captureDone;
      if recording.running {
        recording := recording.(stopping := true);
      }
      world := world.(callers := world.callers[caller := P.AwaitingCapture(done)]);
    }

    method StopDecide(ghost caller: nat) returns (decision: Decision)
      modifies this
      ensures View() == P.DecideStop(old(View()), caller)
      ensures decision.Spawn? <==> world.spawned == old(world.spawned) + 1
      ensures decision.Spawn? ==> Owns(old(world.spawned), decision.snapshot, P.Writing)
    {
      if !RecordingPending() {
        world := world.(callers := world.callers - {caller});
        return Settled;
      }
      world := world.(callers := world.callers[caller := P.AwaitingFinalizer]);
      if persisting { return Wait; }
      recording := recording.(running := false, stopping := false, finalizing := true);
      var snapshot := Snapshot(identity, current.value);
      persisting := true;
      world := world.(
        finalizers := world.finalizers[world.spawned := P.Finalizer(snapshot.identity, snapshot.actions, P.Writing)],
        spawned := world.spawned + 1);
      return Spawn(snapshot);
    }

    method RecoverDraft(issued: nat, actions: seq<Action>) returns (recovered: bool)
      requires issued == |world.recorded| + 1
      modifies this
      ensures View() == P.Recover(old(View()), actions)
      ensures recovered <==> !old(View()).Busy() && !old(View()).Pending()
    {
      if Busy() || RecordingPending() { return false; }
      current := Some(actions);
      generation := generation + 1;
      identity := issued;
      recording := RecordingState(false, false, false, false);
      world := world.(recorded := world.recorded + [actions]);
      return true;
    }

    ghost predicate Owns(f: nat, snapshot: Snapshot, phase: P.Phase)
      reads this
    {
      f in world.finalizers && world.finalizers[f] == P.Finalizer(snapshot.identity, snapshot.actions, phase)
    }

    /** The write returned an error. */
    method WriteFails(ghost f: nat, snapshot: Snapshot)
      requires Owns(f, snapshot, P.Writing)
      modifies this
      ensures View() == P.FailWrite(old(View()), f)
    {
      world := world.(finalizers := world.finalizers - {f});
      if identity == snapshot.identity {
        recording := recording.(finalizing := false);
        captureDone := None;
        persisting := false;
      }
    }

    /** The write succeeded: the first critical section after it. */
    method RecordResult(ghost f: nat, snapshot: Snapshot)
      requires Owns(f, snapshot, P.Written)
      modifies this
      ensures View() == P.Settle(old(View()), f)
      ensures Owns(f, snapshot, P.Recorded)
    {
      world := world.(finalizers := world.finalizers[f := world.finalizers[f].(phase := P.Recorded)]);
      if identity == snapshot.identity {
        current := Some(snapshot.actions);
        recording := recording.(running := false, stopping := false, saved := true);
        captureDone := None;
      }
    }

    /** The second one, after the device has been released. */
    method FinalizerLeaves(ghost f: nat, snapshot: Snapshot)
      requires Owns(f, snapshot, P.Recorded)
      modifies this
      ensures View() == P.Leave(old(View()), f)
    {
      world := world.(finalizers := world.finalizers - {f});
      if identity == snapshot.identity {
        recording := recording.(finalizing := false);
        persisting := false;
      }
    }

    method StartReplay() returns (started: bool)
      modifies this
      ensures View() == P.BeginReplay(old(View()))
      ensures started <==> !old(View()).RefusesNewSession()
    {
      if (!recording.running && RecordingPending()) || Busy() { return false; }
      replay := ReplayState(true, false, false);
      return true;
    }

    method FinishReplay()
      requires replay.running
      modifies this
      ensures View() == P.Apply(old(View()), P.ReplayFinishes)
    {
      replay := ReplayState(false, false, true);
    }
  }
}
