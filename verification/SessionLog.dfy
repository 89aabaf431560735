/** One hosted session, its journal and its checkpoint: what each host operation does to
    them, and what loading them rebuilds. Types: `S` application state, `E` event, `F` effect. */
module SessionLog {
  import opened Protocol
  import opened Sequences
  import opened Ledgers
  import opened EffectQueue

  datatype Sequenced<E> = Sequenced(sequence: nat, event: E)

  datatype LogEvent<E, F> =
    | Transition(
        request: Option<RequestId>,
        controlSequence: nat,
        committedAt: Option<nat>,
        events: seq<Sequenced<E>>,
        effects: seq<Stored<F>>,
        completed: Option<EffectId>)
    | Attempted(effect: EffectId, attempt: nat)

  datatype Record<E, F> = Record(sequence: nat, event: LogEvent<E, F>)

  type Journal<E, F> = seq<Record<E, F>>

  datatype Checkpoint<S, F> = Checkpoint(
    control: LedgerSnapshot,
    state: S,
    logSequence: nat,
    pending: seq<Stored<F>>)

  datatype Disk<S, E, F> = Disk(checkpoint: Checkpoint<S, F>, journal: Journal<E, F>)

  datatype Hosted<S, E, F> = Hosted(
    app: S,
    events: seq<Sequenced<E>>,
    pending: seq<Pending<F>>,
    active: Option<EffectId>,
    logSequence: nat)

  /** A session as the running leader holds it. */
  datatype Live<S, E, F> = Live(ledger: Ledger, hosted: Hosted<S, E, F>)

  /** What one application handler produced: its state afterwards, events and effects. */
  datatype Reaction<S, E, F> = Reaction(after: S, events: seq<E>, effects: seq<Pending<F>>)

  /** `replay` folds one durable event into application state. */
  datatype Config<!S, !E> = Config(replay: (S, E) -> S, window: nat, history: nat)

  // ----- applying a transition -----

  function Fold<S, E>(replay: (S, E) -> S, state: S, events: seq<E>): S
    decreases |events|
  {
    if events == [] then state else Fold(replay, replay(state, events[0]), events[1..])
  }

  /** The events of a transition, numbered after `start`. */
  function Numbered<E>(events: seq<E>, start: nat): (r: seq<Sequenced<E>>)
    ensures |r| == |events|
    ensures forall i :: 0 <= i < |r| ==> r[i] == Sequenced(start + 1 + i, events[i])
  {
    seq(|events|, i requires 0 <= i < |events| => Sequenced(start + 1 + i, events[i]))
  }

  /** Sequence allocation: the first event takes the request, the others are unsolicited,
      and a request without events still takes a sequence. */
  function Allocate(l: Ledger, request: Option<RequestId>, count: nat, window: nat): Ledger {
    var first :=
      if request.Some? then Commit(l, request.value, window)
      else if count > 0 then Publish(l)
      else l;
    if count > 1 then first.(sequence := first.sequence + count - 1) else first
  }

  function CommittedAt(request: Option<RequestId>, count: nat, now: nat): Option<nat> {
    if count > 0 || request.Some? then Some(now) else None
  }

  function TransitionRecord<S, E, F>(
    cfg: Config<S, E>, live: Live<S, E, F>, request: Option<RequestId>, completed: Option<EffectId>,
    reaction: Reaction<S, E, F>, now: nat): Record<E, F>
  {
    Record(live.hosted.logSequence + 1,
           Transition(
             request,
             Allocate(live.ledger, request, |reaction.events|, cfg.window).sequence,
             CommittedAt(request, |reaction.events|, now),
             Numbered(reaction.events, live.ledger.sequence),
             EncodeAll(reaction.effects),
             completed))
  }

  /** The session once the record is durable and its events are in the history. */
  function AfterTransition<S, E, F>(
    cfg: Config<S, E>, live: Live<S, E, F>, request: Option<RequestId>, completed: Option<EffectId>,
    reaction: Reaction<S, E, F>, now: nat): Live<S, E, F>
  {
    Live(
      StampIf(Allocate(live.ledger, request, |reaction.events|, cfg.window),
              CommittedAt(request, |reaction.events|, now)),
      Hosted(
        reaction.after,
        LastN(live.hosted.events + Numbered(reaction.events, live.ledger.sequence), cfg.history),
        RetainIf(live.hosted.pending, completed) + reaction.effects,
        if completed.Some? then None else live.hosted.active,
        live.hosted.logSequence + 1))
  }

  /** The sequence reported to the requester. */
  function TransitionSequence<S, E, F>(
    live: Live<S, E, F>, request: Option<RequestId>, reaction: Reaction<S, E, F>): nat
  {
    if request.Some? then live.ledger.sequence + 1
    else live.ledger.sequence + |reaction.events|
  }

  // ----- dispatching an effect -----

  ghost predicate Dispatchable<S, E, F>(live: Live<S, E, F>) {
    live.hosted.active.None? && live.hosted.pending != []
  }

  /** An at-most-once effect that may already have started is never started again. */
  predicate OutcomeUnknown<F>(p: Pending<F>) {
    p.delivery == AtMostOnce && p.attempts > 0
  }

  function AttemptRecord<S, E, F>(live: Live<S, E, F>): Record<E, F>
    requires live.hosted.pending != []
  {
    var front := live.hosted.pending[0];
    Record(live.hosted.logSequence + 1, Attempted(front.id, front.attempts + 1))
  }

  function AfterDispatch<S, E, F>(live: Live<S, E, F>): Live<S, E, F>
    requires live.hosted.pending != []
  {
    var front := live.hosted.pending[0];
    if OutcomeUnknown(front) then live.(hosted := live.hosted.(active := Some(front.id)))
    else live.(hosted := live.hosted.(
                 active := Some(front.id),
                 pending := [front.(attempts := front.attempts + 1)] + live.hosted.pending[1..],
                 logSequence := live.hosted.logSequence + 1))
  }

  function JournalAfterDispatch<S, E, F>(live: Live<S, E, F>, journal: Journal<E, F>): Journal<E, F>
    requires live.hosted.pending != []
  {
    if OutcomeUnknown(live.hosted.pending[0]) then journal else journal + [AttemptRecord(live)]
  }

  // ----- checkpoints and recovery -----

  function Capture<S, E, F>(live: Live<S, E, F>): Checkpoint<S, F> {
    Checkpoint(Snapshot(live.ledger), live.hosted.app, live.hosted.logSequence, EncodeAll(live.hosted.pending))
  }

  function Reopen<S, E, F>(checkpoint: Checkpoint<S, F>): Live<S, E, F> {
    Live(Restore(checkpoint.control),
         Hosted(checkpoint.state, [], DecodeAll(checkpoint.pending), None, checkpoint.logSequence))
  }

  /** Replays the numbered events of one record; only the first carries the request. */
  function ReplayEvents<S, E>(
    cfg: Config<S, E>, ledger: Ledger, app: S, events: seq<Sequenced<E>>, request: Option<RequestId>): (Ledger, S)
    decreases |events|
  {
    if events == [] then (ledger, app)
    else ReplayEvents(cfg, Ledgers.Replay(ledger, events[0].sequence, request, cfg.window),
                      cfg.replay(app, events[0].event), events[1..], None)
  }

  /** Folds one journal record into a session being loaded. Records the checkpoint already
      covers only refill the event history and the activity stamp. */
  function ReplayRecord<S, E, F>(
    cfg: Config<S, E>, covered: nat, live: Live<S, E, F>, record: Record<E, F>): Live<S, E, F>
  {
    var h := live.hosted;
    var beyond := record.sequence > covered;
    var log := Max(h.logSequence, record.sequence);
    match record.event
    case Transition(request, control, at, events, effects, completed) =>
      var history := LastN(h.events + events, cfg.history);
      if beyond then
        var (ledger, app) := ReplayEvents(cfg, live.ledger, h.app, events, request);
        var settled :=
          if events == [] && request.Some? then Ledgers.Replay(ledger, control, request, cfg.window) else ledger;
        Live(StampIf(settled, at),
             Hosted(app, history, RetainIf(h.pending, completed) + DecodeAll(effects), h.active, log))
      else
        Live(StampIf(live.ledger, at), h.(events := history, logSequence := log))
    case Attempted(effect, attempt) =>
      live.(hosted := h.(logSequence := log,
                         pending := if beyond then Mark(h.pending, effect, attempt) else h.pending))
  }

  function ReplayJournal<S, E, F>(
    cfg: Config<S, E>, checkpoint: Checkpoint<S, F>, journal: Journal<E, F>): Live<S, E, F>
    decreases |journal|
  {
    if journal == [] then Reopen(checkpoint)
    else ReplayRecord(cfg, checkpoint.logSequence,
                      ReplayJournal(cfg, checkpoint, journal[..|journal| - 1]),
                      journal[|journal| - 1])
  }

  /** The session a starting leader builds from disk. */
  function Load<S, E, F>(cfg: Config<S, E>, disk: Disk<S, E, F>): Live<S, E, F> {
    ReplayJournal(cfg, disk.checkpoint, disk.journal)
  }

  /** What survives of a running session: everything except the running execution, with
      deadlines rounded to the unit they are stored in. */
  function Durable<S, E, F>(live: Live<S, E, F>): Live<S, E, F> {
    live.(hosted := live.hosted.(active := None, pending := Canon(live.hosted.pending)))
  }

  function Created<S, E, F>(app: S): Live<S, E, F> {
    Live(EMPTY, Hosted(app, [], [], None, 0))
  }

  // ----- loading, as the host does it -----

  /** Loads one session: restore the checkpoint, then walk the journal record by record and
      event by event, keeping the bounded history as it goes. */
  method LoadSession<S, E, F>(cfg: Config<S, E>, disk: Disk<S, E, F>) returns (live: Live<S, E, F>)
    ensures live == Load(cfg, disk)
  {
    var covered := disk.checkpoint.logSequence;
    live := Reopen(disk.checkpoint);
    for i := 0 to |disk.journal|
      invariant live == ReplayJournal(cfg, disk.checkpoint, disk.journal[..i])
    {
      var record := disk.journal[i];
      assert disk.journal[..i + 1][..i] == disk.journal[..i];
      var log := Max(live.hosted.logSequence, record.sequence);
      var replay := record.sequence > covered;
      match record.event
      case Transition(request, control, at, events, effects, completed) =>
        var ledger, app, history := live.ledger, live.hosted.app, live.hosted.events;
        var pending := live.hosted.pending;
        for k := 0 to |events|
          invariant history == live.hosted.events + events[..k]
          invariant replay ==>
            ReplayEvents(cfg, ledger, app, events[k..], if k == 0 then request else None)
            == ReplayEvents(cfg, live.ledger, live.hosted.app, events, request)
          invariant !replay ==> ledger == live.ledger && app == live.hosted.app
        {
          if replay {
            assert events[k..][1..] == events[k + 1..];
            app := cfg.replay(app, events[k].event);
            ledger := Ledgers.Replay(ledger, events[k].sequence, if k == 0 then request else None, cfg.window);
          }
          history := history + [events[k]];
        }
        assert events[..|events|] == events;
        if replay {
          if events == [] && request.Some? {
            ledger := Ledgers.Replay(ledger, control, request, cfg.window);
          }
          if completed.Some? {
            pending := Retain(pending, completed.value);
          }
          pending := pending + DecodeAll(effects);
        }
        if at.Some? {
          ledger := Stamp(ledger, at.value);
        }
        history := Prune(history, cfg.history);
        live := Live(ledger, live.hosted.(app := app, events := history, pending := pending, logSequence := log));
      case Attempted(effect, attempt) =>
        var pending := live.hosted.pending;
        if replay {
          pending := Mark(pending, effect, attempt);
        }
        live := live.(hosted := live.hosted.(pending := pending, logSequence := log));
    }
    assert disk.journal[..|disk.journal|] == disk.journal;
  }

  /** Drops the oldest entries until at most `limit` remain. */
  method Prune<T>(s: seq<T>, limit: nat) returns (kept: seq<T>)
    ensures kept == LastN(s, limit)
  {
    kept := s;
    while |kept| > limit
      invariant |kept| <= |s| && kept == s[|s| - |kept|..]
      invariant |s| <= limit ==> kept == s
      invariant |s| > limit ==> |kept| >= limit
    {
      kept := kept[1..];
    }
  }
}
