/** Loading a session from its checkpoint and journal rebuilds the running session. */
module Recovery {
  import opened Protocol
  import opened Sequences
  import opened Ledgers
  import opened EffectQueue
  import opened SessionLog

  /** The contract of an application handler: replaying the events it emitted onto the
      state it started from reaches the state it left behind. */
  ghost predicate Lawful<S, E, F>(cfg: Config<S, E>, before: S, reaction: Reaction<S, E, F>) {
    Fold(cfg.replay, before, reaction.events) == reaction.after
  }

  /** Every event the journal has ever recorded, oldest first. */
  function EventsOf<E, F>(journal: Journal<E, F>): seq<Sequenced<E>> {
    if journal == [] then []
    else EventsOf(journal[..|journal| - 1]) + RecordEvents(journal[|journal| - 1])
  }

  function RecordEvents<E, F>(record: Record<E, F>): seq<Sequenced<E>> {
    if record.event.Transition? then record.event.events else []
  }

  lemma EventsOfAppend<E, F>(journal: Journal<E, F>, record: Record<E, F>)
    ensures EventsOf(journal + [record]) == EventsOf(journal) + RecordEvents(record)
  {
    assert (journal + [record])[..|journal|] == journal;
  }

  // ----- invariants of a session and its disk -----

  /** Records carry consecutive numbers from one, and the checkpoint covers a prefix. */
  ghost predicate Numbering<S, E, F>(live: Live<S, E, F>, disk: Disk<S, E, F>) {
    && live.hosted.logSequence == |disk.journal|
    && disk.checkpoint.logSequence <= |disk.journal|
    && forall i :: 0 <= i < |disk.journal| ==> disk.journal[i].sequence == i + 1
  }

  /** The history is the newest part of everything recorded, in increasing sequence. */
  ghost predicate HistoryInv<S, E, F>(cfg: Config<S, E>, live: Live<S, E, F>, disk: Disk<S, E, F>) {
    && live.hosted.events == LastN(EventsOf(disk.journal), cfg.history)
    && Ascending(EventsOf(disk.journal), live.ledger.sequence)
  }

  /** Sequences increase, start above zero and do not pass `top`. */
  ghost predicate Ascending<E>(events: seq<Sequenced<E>>, top: nat) {
    && (forall i, j :: 0 <= i < j < |events| ==> events[i].sequence < events[j].sequence)
    && (forall i :: 0 <= i < |events| ==> 0 < events[i].sequence <= top)
  }

  lemma AscendingAppend<E>(events: seq<Sequenced<E>>, more: seq<Sequenced<E>>, top: nat, newTop: nat)
    requires Ascending(events, top) && top <= newTop
    requires forall i :: 0 <= i < |more| ==> more[i].sequence == top + 1 + i
    requires top + |more| <= newTop
    ensures Ascending(events + more, newTop)
  {
  }

  ghost predicate StampInv<S, E, F>(live: Live<S, E, F>, disk: Disk<S, E, F>) {
    forall i ::
      && 0 <= i < |disk.journal|
      && disk.journal[i].event.Transition? && disk.journal[i].event.committedAt.Some?
      ==>
      live.ledger.lastEventAt.Some? && disk.journal[i].event.committedAt.value <= live.ledger.lastEventAt.value
  }

  /** Recovery refines the live run: loading the disk gives the running session back. */
  ghost predicate Recovers<S, E, F>(cfg: Config<S, E>, live: Live<S, E, F>, disk: Disk<S, E, F>) {
    Load(cfg, disk) == Durable(live)
  }

  ghost predicate RecoveryInv<S, E, F>(cfg: Config<S, E>, live: Live<S, E, F>, disk: Disk<S, E, F>) {
    && cfg.window >= 1
    && Valid(live.ledger, cfg.window)
    && Numbering(live, disk)
    && HistoryInv(cfg, live, disk)
    && StampInv(live, disk)
    && Recovers(cfg, live, disk)
  }

  // ----- one transition -----

  lemma {:induction false} ReplayNumbered<S, E>(
    cfg: Config<S, E>, l: Ledger, app: S, events: seq<E>, request: Option<RequestId>)
    requires request.Some? ==> request.value !in l.committed
    ensures ReplayEvents(cfg, l, app, Numbered(events, l.sequence), request) ==
            (if events == [] then l else Allocate(l, request, |events|, cfg.window),
             Fold(cfg.replay, app, events))
    decreases |events|
  {
    if events != [] {
      var numbered := Numbered(events, l.sequence);
      var next := Ledgers.Replay(l, numbered[0].sequence, request, cfg.window);
      assert numbered[1..] == Numbered(events[1..], next.sequence);
      ReplayNumbered(cfg, next, cfg.replay(app, events[0]), events[1..], None);
    }
  }

  lemma ReplayTransition<S, E, F>(
    cfg: Config<S, E>, covered: nat, live: Live<S, E, F>, request: Option<RequestId>,
    completed: Option<EffectId>, reaction: Reaction<S, E, F>, now: nat)
    requires Lawful(cfg, live.hosted.app, reaction)
    requires request.Some? ==> request.value !in live.ledger.committed
    requires covered <= live.hosted.logSequence
    ensures ReplayRecord(cfg, covered, Durable(live), TransitionRecord(cfg, live, request, completed, reaction, now))
            == Durable(AfterTransition(cfg, live, request, completed, reaction, now))
  {
    ReplayNumbered(cfg, live.ledger, live.hosted.app, reaction.events, request);
    CanonConcat(RetainIf(live.hosted.pending, completed), reaction.effects);
    if completed.Some? {
      CanonRetain(live.hosted.pending, completed.value);
    }
  }

  lemma AllocateFacts(l: Ledger, request: Option<RequestId>, count: nat, window: nat)
    requires Valid(l, window) && window >= 1
    requires request.Some? ==> request.value !in l.committed
    ensures var a := Allocate(l, request, count, window);
            && Valid(a, window)
            && a.lastEventAt == l.lastEventAt
            && a.sequence == l.sequence + (if count == 0 && request.Some? then 1 else count)
            && a.order == LastN(l.order + (if request.Some? then [request.value] else []), window)
            && (request.Some? ==> request.value in a.committed && a.committed[request.value] == l.sequence + 1)
            && (forall r :: r in a.committed && request != Some(r) ==>
                  r in l.committed && a.committed[r] == l.committed[r])
  {
    if request.Some? {
      RememberValid(l, request.value, l.sequence + 1, window);
    } else {
      assert l.order + [] == l.order;
    }
  }

  lemma ReplayAppend<S, E, F>(cfg: Config<S, E>, disk: Disk<S, E, F>, record: Record<E, F>)
    ensures Load(cfg, disk.(journal := disk.journal + [record]))
            == ReplayRecord(cfg, disk.checkpoint.logSequence, Load(cfg, disk), record)
  {
    assert (disk.journal + [record])[..|disk.journal|] == disk.journal;
  }

  lemma AppendHistory<S, E, F>(
    cfg: Config<S, E>, live: Live<S, E, F>, disk: Disk<S, E, F>, after: Live<S, E, F>, record: Record<E, F>)
    requires HistoryInv(cfg, live, disk)
    requires live.ledger.sequence <= after.ledger.sequence
    requires after.hosted.events == LastN(live.hosted.events + RecordEvents(record), cfg.history)
    requires forall i :: 0 <= i < |RecordEvents(record)| ==>
               RecordEvents(record)[i].sequence == live.ledger.sequence + 1 + i
    requires live.ledger.sequence + |RecordEvents(record)| <= after.ledger.sequence
    ensures HistoryInv(cfg, after, disk.(journal := disk.journal + [record]))
  {
    var all, more := EventsOf(disk.journal), RecordEvents(record);
    assert EventsOf(disk.journal + [record]) == all + more by {
      EventsOfAppend(disk.journal, record);
    }
    LastNAppend(all, more, cfg.history);
    AscendingAppend(all, more, live.ledger.sequence, after.ledger.sequence);
  }

  lemma TransitionStamps<S, E, F>(
    cfg: Config<S, E>, live: Live<S, E, F>, disk: Disk<S, E, F>, request: Option<RequestId>,
    completed: Option<EffectId>, reaction: Reaction<S, E, F>, now: nat)
    requires StampInv(live, disk) && Valid(live.ledger, cfg.window) && cfg.window >= 1
    requires request.Some? ==> request.value !in live.ledger.committed
    ensures StampInv(AfterTransition(cfg, live, request, completed, reaction, now),
                     disk.(journal := disk.journal + [TransitionRecord(cfg, live, request, completed, reaction, now)]))
  {
    AllocateFacts(live.ledger, request, |reaction.events|, cfg.window);
  }

  lemma TransitionKeeps<S, E, F>(
    cfg: Config<S, E>, live: Live<S, E, F>, disk: Disk<S, E, F>, request: Option<RequestId>,
    completed: Option<EffectId>, reaction: Reaction<S, E, F>, now: nat)
    requires RecoveryInv(cfg, live, disk)
    requires Lawful(cfg, live.hosted.app, reaction)
    requires request.Some? ==> request.value !in live.ledger.committed
    ensures RecoveryInv(cfg, AfterTransition(cfg, live, request, completed, reaction, now),
                        disk.(journal := disk.journal
                               + [TransitionRecord(cfg, live, request, completed, reaction, now)]))
  {
    var record := TransitionRecord(cfg, live, request, completed, reaction, now);
    var after := AfterTransition(cfg, live, request, completed, reaction, now);
    var written := disk.(journal := disk.journal + [record]);
    assert Valid(after.ledger, cfg.window) && live.ledger.sequence + |reaction.events| <= after.ledger.sequence by {
      AllocateFacts(live.ledger, request, |reaction.events|, cfg.window);
    }
    assert Recovers(cfg, after, written) by {
      ReplayTransition(cfg, disk.checkpoint.logSequence, live, request, completed, reaction, now);
      ReplayAppend(cfg, disk, record);
    }
    TransitionStamps(cfg, live, disk, request, completed, reaction, now);
    AppendHistory(cfg, live, disk, after, record);
  }

  // ----- one dispatch -----

  lemma ReplayDispatch<S, E, F>(cfg: Config<S, E>, covered: nat, live: Live<S, E, F>)
    requires Dispatchable(live) && !OutcomeUnknown(live.hosted.pending[0])
    requires covered <= live.hosted.logSequence
    ensures ReplayRecord(cfg, covered, Durable(live), AttemptRecord(live)) == Durable(AfterDispatch(live))
  {
    var durable, record := Durable(live), AttemptRecord(live);
    var ps := live.hosted.pending;
    var raised := [ps[0].(attempts := ps[0].attempts + 1)] + ps[1..];
    var marked := Mark(Canon(ps), ps[0].id, ps[0].attempts + 1);
    assert marked == Canon(raised) by {
      MarkFront(ps);
    }
    assert ReplayRecord(cfg, covered, durable, record)
           == durable.(hosted := durable.hosted.(logSequence := record.sequence, pending := marked));
  }

  lemma AttemptKeeps<S, E, F>(cfg: Config<S, E>, live: Live<S, E, F>, disk: Disk<S, E, F>)
    requires RecoveryInv(cfg, live, disk) && Dispatchable(live) && !OutcomeUnknown(live.hosted.pending[0])
    ensures RecoveryInv(cfg, AfterDispatch(live), disk.(journal := disk.journal + [AttemptRecord(live)]))
  {
    var after, record := AfterDispatch(live), AttemptRecord(live);
    var written := disk.(journal := disk.journal + [record]);
    assert Recovers(cfg, after, written) by {
      ReplayDispatch(cfg, disk.checkpoint.logSequence, live);
      ReplayAppend(cfg, disk, record);
    }
    assert HistoryInv(cfg, after, written) by {
      assert live.hosted.events + RecordEvents(record) == live.hosted.events;
      AppendHistory(cfg, live, disk, after, record);
    }
    assert Numbering(after, written);
    assert StampInv(after, written);
  }

  lemma DispatchKeeps<S, E, F>(cfg: Config<S, E>, live: Live<S, E, F>, disk: Disk<S, E, F>)
    requires RecoveryInv(cfg, live, disk) && Dispatchable(live)
    ensures RecoveryInv(cfg, AfterDispatch(live), disk.(journal := JournalAfterDispatch(live, disk.journal)))
  {
    if OutcomeUnknown(live.hosted.pending[0]) {
      assert disk.(journal := disk.journal) == disk;
      assert Durable(AfterDispatch(live)) == Durable(live);
    } else {
      AttemptKeeps(cfg, live, disk);
    }
  }

  // ----- checkpoints -----

  /** Records a checkpoint covers only rebuild the event history. */
  lemma {:induction false} ReplayCovered<S, E, F>(cfg: Config<S, E>, live: Live<S, E, F>, disk: Disk<S, E, F>, k: nat)
    requires RecoveryInv(cfg, live, disk) && k <= |disk.journal|
    ensures ReplayJournal(cfg, Capture(live), disk.journal[..k])
            == Durable(live.(hosted := live.hosted.(events := LastN(EventsOf(disk.journal[..k]), cfg.history))))
  {
    if k == 0 {
      SnapshotRoundTrip(live.ledger, cfg.window);
    } else {
      ReplayCovered(cfg, live, disk, k - 1);
      assert disk.journal[..k][..k - 1] == disk.journal[..k - 1];
      LastNAppend(EventsOf(disk.journal[..k - 1]), RecordEvents(disk.journal[k - 1]), cfg.history);
      var e := disk.journal[k - 1].event;
      if e.Attempted? {
        assert EventsOf(disk.journal[..k - 1]) + [] == EventsOf(disk.journal[..k - 1]);
      } else {
        assert e.committedAt.Some? ==> e.committedAt.value <= live.ledger.lastEventAt.value;
      }
    }
  }

  lemma CheckpointKeeps<S, E, F>(cfg: Config<S, E>, live: Live<S, E, F>, disk: Disk<S, E, F>)
    requires RecoveryInv(cfg, live, disk)
    ensures RecoveryInv(cfg, live, disk.(checkpoint := Capture(live)))
  {
    ReplayCovered(cfg, live, disk, |disk.journal|);
    assert disk.journal[..|disk.journal|] == disk.journal;
  }

  // ----- crash and load -----

  /** What a starting leader does to a session: load it, then refresh its checkpoint. */
  function Restarted<S, E, F>(cfg: Config<S, E>, disk: Disk<S, E, F>): (Live<S, E, F>, Disk<S, E, F>) {
    (Load(cfg, disk), disk.(checkpoint := Capture(Load(cfg, disk))))
  }

  lemma RestartKeeps<S, E, F>(cfg: Config<S, E>, live: Live<S, E, F>, disk: Disk<S, E, F>)
    requires RecoveryInv(cfg, live, disk)
    ensures RecoveryInv(cfg, Load(cfg, disk), disk)
    ensures RecoveryInv(cfg, Restarted(cfg, disk).0, Restarted(cfg, disk).1)
    ensures Restarted(cfg, disk).0 == Durable(live)
  {
    CanonIdempotent(live.hosted.pending);
    CheckpointKeeps(cfg, Load(cfg, disk), disk);
  }

  /** A second load changes nothing: neither the session nor its checkpoint. */
  lemma RestartIsIdempotent<S, E, F>(cfg: Config<S, E>, live: Live<S, E, F>, disk: Disk<S, E, F>)
    requires RecoveryInv(cfg, live, disk)
    ensures Restarted(cfg, Restarted(cfg, disk).1) == Restarted(cfg, disk)
  {
    RestartKeeps(cfg, live, disk);
    var (once, stored) := Restarted(cfg, disk);
    CanonIdempotent(live.hosted.pending);
    assert Load(cfg, stored) == Durable(once) == once;
  }

  lemma CreatedRecovers<S, E, F>(cfg: Config<S, E>, app: S)
    requires cfg.window >= 1
    ensures RecoveryInv<S, E, F>(cfg, Created(app), Disk(Capture(Created<S, E, F>(app)), []))
  {
  }
}
