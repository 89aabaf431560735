/** The shell application's events: compact differences between two visible states, which
    must rebuild both the durable state of a session and what its clients show. */
module ShellEvents {
  import opened Protocol
  import opened Sequences

  const MAX_TRANSCRIPT := 5_000
  const MAX_HISTORY := 1_000

  datatype Kind = System | Command | Stdout | Stderr | Error

  datatype Entry = Entry(kind: Kind, text: string)

  /** Durable state apart from the transcript. */
  datatype Recovery = Recovery(
    history: seq<string>,
    commands: map<string, string>,
    environment: map<string, string>,
    pending: seq<string>,
    cwd: string,
    command: Option<string>,
    commandId: Option<nat>,
    nextId: nat,
    workerSequence: nat,
    recoverable: bool,
    failed: bool,
    revision: nat)

  datatype Persisted = Persisted(transcript: seq<Entry>, rest: Recovery)

  /** What clients see. */
  datatype Snapshot = Snapshot(
    revision: nat,
    transcript: seq<Entry>,
    history: seq<string>,
    commands: set<string>,
    cwdLabel: string,
    running: bool,
    failed: bool,
    queued: nat)

  datatype ShellEvent =
    | Appended(
        revision: nat, entries: seq<Entry>, running: bool, failed: bool, queued: nat,
        cwdLabel: string, history: seq<string>, commands: set<string>, recovery: Recovery)
    | Reset(snapshot: Snapshot, recovery: Recovery)

  function Between(previous: Snapshot, current: Snapshot, recovery: Recovery): ShellEvent {
    if previous.transcript <= current.transcript
    then Appended(current.revision, current.transcript[|previous.transcript|..], current.running, current.failed,
                  current.queued, current.cwdLabel, current.history, current.commands, recovery)
    else Reset(current, recovery)
  }

  function Replay(p: Persisted, e: ShellEvent): Persisted {
    match e
    case Appended(_, entries, _, _, _, _, _, _, recovery) =>
      Persisted(LastN(p.transcript + entries, MAX_TRANSCRIPT), recovery)
    case Reset(snapshot, recovery) => Persisted(snapshot.transcript, recovery)
  }

  function Apply(s: Snapshot, e: ShellEvent): Snapshot {
    match e
    case Appended(revision, entries, running, failed, queued, cwdLabel, history, commands, _) =>
      Snapshot(revision, LastN(s.transcript + entries, MAX_TRANSCRIPT), history, commands, cwdLabel, running, failed,
               queued)
    case Reset(current, _) => current
  }

  /** Everything a snapshot shows except whether a child runs, which does not survive a leader. */
  datatype Board = Board(
    revision: nat, transcript: seq<Entry>, history: seq<string>, commands: set<string>, cwdLabel: string,
    failed: bool, queued: nat)

  function BoardOf(prompt: string -> string, p: Persisted): Board {
    Board(p.rest.revision, p.transcript, p.rest.history, p.rest.commands.Keys, prompt(p.rest.cwd), p.rest.failed,
          |p.rest.pending|)
  }

  function BoardApply(b: Board, e: ShellEvent): Board {
    match e
    case Appended(revision, entries, _, failed, queued, cwdLabel, history, commands, _) =>
      Board(revision, LastN(b.transcript + entries, MAX_TRANSCRIPT), history, commands, cwdLabel, failed, queued)
    case Reset(s, _) => Board(s.revision, s.transcript, s.history, s.commands, s.cwdLabel, s.failed, s.queued)
  }

  function SnapshotOf(prompt: string -> string, p: Persisted, running: bool): Snapshot {
    Snapshot(p.rest.revision, p.transcript, p.rest.history, p.rest.commands.Keys, prompt(p.rest.cwd), running,
             p.rest.failed, |p.rest.pending|)
  }

  // ----- the laws -----

  lemma SuffixRejoins<T>(before: seq<T>, after: seq<T>, n: nat)
    requires before <= after && |after| <= n
    ensures LastN(before + after[|before|..], n) == after
  {
    assert before + after[|before|..] == after;
  }

  /** Replaying the event of a transition onto the durable state it started from gives the
      durable state it ended in, whether lines were added, pruned or cleared. */
  lemma ReplayRebuilds(prompt: string -> string, before: Persisted, wasRunning: bool, after: Persisted, running: bool)
    requires |after.transcript| <= MAX_TRANSCRIPT
    ensures Replay(before,
                   Between(SnapshotOf(prompt, before, wasRunning), SnapshotOf(prompt, after, running), after.rest))
            == after
  {
    if before.transcript <= after.transcript {
      SuffixRejoins(before.transcript, after.transcript, MAX_TRANSCRIPT);
    }
  }

  /** Applying it to the snapshot a client shows gives the next snapshot. */
  lemma ApplyRebuilds(previous: Snapshot, current: Snapshot, recovery: Recovery)
    requires |current.transcript| <= MAX_TRANSCRIPT
    ensures Apply(previous, Between(previous, current, recovery)) == current
  {
    if previous.transcript <= current.transcript {
      SuffixRejoins(previous.transcript, current.transcript, MAX_TRANSCRIPT);
    }
  }

  /** An event of a session corrects the running flag of whoever shows the state it started from,
      however stale that flag is. */
  lemma StaleFlagIsCorrected(
    prompt: string -> string, before: Persisted, stale: bool, wasRunning: bool, after: Persisted, running: bool)
    requires |after.transcript| <= MAX_TRANSCRIPT
    ensures Apply(SnapshotOf(prompt, before, stale),
                  Between(SnapshotOf(prompt, before, wasRunning), SnapshotOf(prompt, after, running), after.rest))
            == SnapshotOf(prompt, after, running)
  {
    if before.transcript <= after.transcript {
      SuffixRejoins(before.transcript, after.transcript, MAX_TRANSCRIPT);
    }
  }

  lemma BoardRebuilds(prompt: string -> string, before: Persisted, wasRunning: bool, after: Persisted, running: bool)
    requires |after.transcript| <= MAX_TRANSCRIPT
    ensures BoardApply(BoardOf(prompt, before),
                       Between(SnapshotOf(prompt, before, wasRunning), SnapshotOf(prompt, after, running), after.rest))
            == BoardOf(prompt, after)
  {
    if before.transcript <= after.transcript {
      SuffixRejoins(before.transcript, after.transcript, MAX_TRANSCRIPT);
    }
  }

  /** Beyond the transcript limit the difference would not rebuild the state: an appended
      entry is pruned from a replayed transcript that is already too long. */
  lemma LimitIsNeeded(before: Persisted, e: Entry, wasRunning: bool)
    requires |before.transcript| == MAX_TRANSCRIPT
    ensures var after := before.(transcript := before.transcript + [e]);
            Replay(before, Between(SnapshotOf(s => s, before, wasRunning), SnapshotOf(s => s, after, wasRunning),
                                   after.rest)) != after
  {
  }

  // ----- how many lines an event added -----

  /** The longest proper suffix of the old transcript that starts the new one tells how many
      lines are new after the front was pruned. */
  ghost predicate Overlaps(previous: seq<Entry>, current: seq<Entry>, n: nat) {
    n <= |previous| && n <= |current| && previous[|previous| - n..] == current[..n]
  }

  method TranscriptAppendCount(previous: seq<Entry>, current: seq<Entry>) returns (count: nat)
    ensures count <= |current|
    ensures previous <= current ==> count == |current| - |previous|
    ensures !(previous <= current) ==>
              && Overlaps(previous, current, |current| - count)
              && forall n: nat :: n < |previous| && Overlaps(previous, current, n) ==> n <= |current| - count
  {
    if previous <= current {
      return |current| - |previous|;
    }
    if current == [] {
      return 0;
    }
    for removed := 1 to |previous|
      invariant forall n: nat :: |previous| - removed < n < |previous| ==> !Overlaps(previous, current, n)
    {
      var overlap := |previous| - removed;
      if overlap <= |current| && previous[removed..] == current[..overlap] {
        return |current| - overlap;
      }
    }
    assert previous[|previous| - 0..] == current[..0];
    count := |current|;
  }
}
