/** The shell application keeps the contract that the leader relies on: the events of a
    handler rebuild its durable state on replay, and its clients' picture when applied. */
module ShellLaws {
  import opened Protocol
  import opened EffectQueue
  import opened SessionLog
  import opened Recovery
  import opened Deliveries
  import opened ShellEvents
  import opened CommandSurfaces

  function ShellConfig(window: nat, history: nat): Config<Persisted, ShellEvent> {
    Config(Replay, window, history)
  }

  function ShellMirror(prompt: string -> string): Mirror<Persisted, ShellEvent, Board> {
    Mirror((p: Persisted) => BoardOf(prompt, p), BoardApply)
  }

  lemma FoldOne<S, E>(replay: (S, E) -> S, state: S, events: seq<E>)
    requires |events| == 1
    ensures Fold(replay, state, events) == replay(state, events[0])
  {
    assert events[1..] == [];
  }

  /** Every handler of a session reports lawfully, with whatever effects it asks for. */
  lemma HandlersAreLawful(
    prompt: string -> string, window: nat, history: nat, before: Persisted, shown: ShellEvents.Snapshot,
    events: seq<ShellEvent>, after: Persisted, now: ShellEvents.Snapshot, effects: seq<Pending<ShellEffect>>)
    requires Rebuilds(prompt, before, shown, events, after, now)
    ensures Lawful(ShellConfig(window, history), before, Reaction(after, events, effects))
    ensures Mirrored(ShellMirror(prompt), before, Reaction(after, events, effects))
  {
    if events != [] {
      FoldOne(Replay, before, events);
      FoldOne(BoardApply, BoardOf(prompt, before), events);
    }
  }

  /** One handler call of a run: where it started, what it reported, where it ended. */
  datatype Call = Call(events: seq<ShellEvent>, after: Persisted, now: ShellEvents.Snapshot)

  ghost predicate IsRun(prompt: string -> string, before: Persisted, shown: ShellEvents.Snapshot, calls: seq<Call>)
    decreases |calls|
  {
    calls == [] ||
    (Rebuilds(prompt, before, shown, calls[0].events, calls[0].after, calls[0].now)
     && IsRun(prompt, calls[0].after, calls[0].now, calls[1..]))
  }

  function AllEvents(calls: seq<Call>): seq<ShellEvent> {
    if calls == [] then [] else calls[0].events + AllEvents(calls[1..])
  }

  /** Over any sequence of commands, polls and completions, all the events together rebuild
      the durable state and the snapshot reached at the end. */
  lemma {:induction false} WholeRunRebuilds(
    prompt: string -> string, before: Persisted, shown: ShellEvents.Snapshot, calls: seq<Call>)
    requires IsRun(prompt, before, shown, calls)
    ensures Fold(Replay, before, AllEvents(calls)) == if calls == [] then before else calls[|calls| - 1].after
    ensures Fold(Apply, shown, AllEvents(calls)) == if calls == [] then shown else calls[|calls| - 1].now
    decreases |calls|
  {
    if calls != [] {
      var first, rest := calls[0], calls[1..];
      WholeRunRebuilds(prompt, first.after, first.now, rest);
      FoldConcat(Replay, before, first.events, AllEvents(rest));
      FoldConcat(Apply, shown, first.events, AllEvents(rest));
      if first.events != [] {
        FoldOne(Replay, before, first.events);
        FoldOne(Apply, shown, first.events);
      }
    }
  }

  // ----- a client's running flag across leaders -----

  /** One persistent shell session and one attached client that reads everything it is sent:
      the durable state, whether a child runs, and the snapshot the client shows. */
  datatype Desk = Desk(state: Persisted, running: bool, shown: ShellEvents.Snapshot)

  datatype DeskStep =
    /** A handler ran; it reports the difference when anything visible changed. */
    | Handled(after: Persisted, running: bool)
    /** The leader died; the next one restored the state, and the client resumed by replay. */
    | Resumed
    /** The client was sent the whole state. */
    | Refreshed

  function Visible(prompt: string -> string, desk: Desk): ShellEvents.Snapshot {
    SnapshotOf(prompt, desk.state, desk.running)
  }

  function DeskNext(prompt: string -> string, desk: Desk, step: DeskStep): Desk {
    match step
    case Handled(after, running) =>
      var now := SnapshotOf(prompt, after, running);
      if now == Visible(prompt, desk) then Desk(after, running, desk.shown)
      else Desk(after, running, ShellEvents.Apply(desk.shown, Between(Visible(prompt, desk), now, after.rest)))
    case Resumed => desk.(running := false)
    case Refreshed => desk.(shown := Visible(prompt, desk))
  }

  /** The step sent the client something that shows the running flag. */
  predicate Reports(prompt: string -> string, desk: Desk, step: DeskStep) {
    match step
    case Handled(after, running) => SnapshotOf(prompt, after, running) != Visible(prompt, desk)
    case Resumed => false
    case Refreshed => true
  }

  ghost predicate IsDeskRun(prompt: string -> string, desks: seq<Desk>, steps: seq<DeskStep>) {
    && |desks| == |steps| + 1 && desks[0].shown == Visible(prompt, desks[0])
    && forall i :: 0 <= i < |steps| ==>
         && (steps[i].Handled? ==> |steps[i].after.transcript| <= MAX_TRANSCRIPT)
         && desks[i + 1] == DeskNext(prompt, desks[i], steps[i])
  }

  /** A leader died while a child ran, and the client has been sent nothing since. */
  ghost predicate MissedTheCrash(prompt: string -> string, desks: seq<Desk>, steps: seq<DeskStep>, i: nat)
    requires |desks| == |steps| + 1 && i < |desks|
  {
    exists j :: 0 <= j < i && steps[j].Resumed? && desks[j].running && Quiet(prompt, desks, steps, j, i)
  }

  ghost predicate Quiet(prompt: string -> string, desks: seq<Desk>, steps: seq<DeskStep>, j: nat, i: nat)
    requires |desks| == |steps| + 1 && j <= i < |desks|
  {
    forall k :: j <= k < i ==> !Reports(prompt, desks[k], steps[k])
  }

  /** Over any run, a client shows exactly what the session shows unless a leader died while a
      child ran and the client has been sent nothing since; then only the flag is wrong. */
  lemma {:induction false} FlagIsStaleExactly(
    prompt: string -> string, desks: seq<Desk>, steps: seq<DeskStep>, i: nat)
    requires IsDeskRun(prompt, desks, steps) && i < |desks|
    ensures desks[i].shown == SnapshotOf(prompt, desks[i].state, desks[i].shown.running)
    ensures desks[i].shown == Visible(prompt, desks[i]) <==> !MissedTheCrash(prompt, desks, steps, i)
    ensures MissedTheCrash(prompt, desks, steps, i) ==> desks[i].shown.running && !desks[i].running
  {
    if i > 0 {
      FlagIsStaleExactly(prompt, desks, steps, i - 1);
      MissedNext(prompt, desks, steps, i - 1);
      var desk, step := desks[i - 1], steps[i - 1];
      if step.Handled? && Reports(prompt, desk, step) {
        StaleFlagIsCorrected(prompt, desk.state, desk.shown.running, desk.running, step.after, step.running);
      }
    }
  }

  lemma MissedNext(prompt: string -> string, desks: seq<Desk>, steps: seq<DeskStep>, i: nat)
    requires |desks| == |steps| + 1 && i < |steps|
    ensures MissedTheCrash(prompt, desks, steps, i + 1)
            <==> !Reports(prompt, desks[i], steps[i])
                 && ((steps[i].Resumed? && desks[i].running) || MissedTheCrash(prompt, desks, steps, i))
  {
    hide Reports;
    if MissedTheCrash(prompt, desks, steps, i + 1) {
      var j :| 0 <= j < i + 1 && steps[j].Resumed? && desks[j].running && Quiet(prompt, desks, steps, j, i + 1);
      if j < i {
        assert Quiet(prompt, desks, steps, j, i);
      }
    }
    if !Reports(prompt, desks[i], steps[i]) {
      if steps[i].Resumed? && desks[i].running {
        assert Quiet(prompt, desks, steps, i, i + 1);
      }
      if MissedTheCrash(prompt, desks, steps, i) {
        var j :| 0 <= j < i && steps[j].Resumed? && desks[j].running && Quiet(prompt, desks, steps, j, i);
        assert Quiet(prompt, desks, steps, j, i + 1);
      }
    }
  }

  /** Such a client exists: a child runs, the leader dies, and the replay has nothing to say. */
  lemma FlagCanBeStale(prompt: string -> string, state: Persisted)
    returns (desks: seq<Desk>, steps: seq<DeskStep>)
    requires |state.transcript| <= MAX_TRANSCRIPT
    ensures IsDeskRun(prompt, desks, steps) && |desks| == 3
    ensures desks[2].state == state && !desks[2].running && desks[2].shown == SnapshotOf(prompt, state, true)
    ensures desks[2].shown != Visible(prompt, desks[2])
  {
    var idle := Desk(state, false, SnapshotOf(prompt, state, false));
    StaleFlagIsCorrected(prompt, state, false, false, state, true);
    steps := [Handled(state, true), Resumed];
    var busy := DeskNext(prompt, idle, steps[0]);
    desks := [idle, busy, DeskNext(prompt, busy, steps[1])];
  }

  /** Between handlers of a persistent shell nothing is lost by storing and restoring a
      session: a started command is always one that its worker can be asked about again. */
  method RestoreAfterHandler(surface: CommandSurface) returns (restored: CommandSurface)
    requires surface.Valid() && surface.Settled() && surface.platform.persistent
    ensures fresh(restored) && restored.Valid() && restored.Settled() && restored.State() == surface.State()
    ensures restored.Shown() == SnapshotOf(surface.platform.prompt, surface.State(), false)
  {
    restored := new CommandSurface.Restore(surface.platform, surface.State());
  }
}
