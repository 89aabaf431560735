/** One client following one session over any number of connections: the leader may crash or
    drop the client at any message, and the client may reconnect whenever it likes. */
module Deliveries {
  import opened Protocol
  import opened Sequences
  import opened Ledgers
  import opened EffectQueue
  import opened SessionLog
  import opened Recovery
  import opened EffectHistory
  import opened RequestHistory
  import opened SessionRun
  import opened Outbounds
  import Clients

  /** `wire` is what the leader queued for the client's current connection and the client has
      not read; `asked` is an attach request under way, with its resume point; `resume` is the
      cursor the current reconnect started from. `sink` is everything the client's consumer was
      ever given, and `seen` an observer's note of how far that reaches. */
  datatype System<S, E, F> = System(
    world: World<S, E, F>,
    wire: seq<Message<S, E>>,
    subscribed: bool,
    asked: Option<Option<nat>>,
    resume: Option<nat>,
    cursor: Option<nat>,
    sink: seq<Message<S, E>>,
    seen: Option<nat>)

  datatype Move<S, E, F> =
    /** The leader handles anything else; the client is dropped after `fit` of the pushes. */
    | Leader(step: Step<S, E, F>, fit: nat)
    /** The client opens a new connection and asks to attach; what it had not read is lost. */
    | Reconnect
    /** The leader handles the attach request. */
    | Answer(request: RequestId, name: string, lease: Option<nat>, fit: nat)
    /** The client reads one message, hands it to its consumer, then acknowledges it. */
    | Receive
    | Hangup

  /** How a client shows a session: `view` of a whole state, and `apply` for one event. */
  datatype Mirror<!S, !E, !V> = Mirror(view: S -> V, apply: (V, E) -> V)

  function Log<S, E, F>(s: System<S, E, F>): seq<Sequenced<E>> {
    EventsOf(s.world.disk.journal)
  }

  function Top<S, E, F>(s: System<S, E, F>): nat {
    s.world.live.ledger.sequence
  }

  /** The events a leader step records. */
  function Emitted<S, E, F>(w: World<S, E, F>, step: Step<S, E, F>): seq<Sequenced<E>> {
    match step
    case Command(request, reaction, _) =>
      if request in w.live.ledger.committed then [] else Numbered(reaction.events, w.live.ledger.sequence)
    case Poll(reaction, _) => Numbered(reaction.events, w.live.ledger.sequence)
    case Finish(effect, reaction, _) =>
      if IsRunning(w.live, effect) then Numbered(reaction.events, w.live.ledger.sequence) else []
    case _ => []
  }

  /** The leader queues messages for the connection; when they do not all fit it lets go. */
  function Queue<S, E, F>(s: System<S, E, F>, messages: seq<Message<S, E>>, fit: nat): System<S, E, F> {
    if !s.subscribed then s
    else if fit < |messages| then s.(wire := s.wire + messages[..fit], subscribed := false)
    else s.(wire := s.wire + messages)
  }

  function Resumed(resume: Option<nat>, sequence: nat): nat {
    if resume.None? then sequence else Max(sequence, resume.value)
  }

  /** The client's side of one message: consumers first, cursor second. */
  function Absorb<S, E, F>(s: System<S, E, F>, m: Message<S, E>): System<S, E, F> {
    match m
    case Event(_, sequence, _) =>
      s.(sink := s.sink + [m], seen := Some(sequence),
         cursor := if s.cursor.Some? then Some(Max(s.cursor.value, sequence)) else None)
    case Snapshot(_, sequence, _) =>
      s.(sink := s.sink + [m], seen := Some(sequence),
         cursor := if s.cursor.Some? then Some(Max(s.cursor.value, sequence)) else None)
    case Response(_, reply) =>
      if reply.AttachedTo?
      then s.(cursor := Some(Resumed(s.resume, reply.sequence)), seen := Some(Resumed(s.resume, reply.sequence)))
      else s
    case DriverChanged(_, _) => s
  }

  function Next<S, E, F>(cfg: Config<S, E>, id: SessionId, s: System<S, E, F>, move: Move<S, E, F>): System<S, E, F>
    requires move.Leader? ==> Possible(cfg, s.world, move.step)
  {
    match move
    case Leader(step, fit) =>
      var w := SessionRun.Next(cfg, s.world, step);
      if step.Crash? || step.DispatchAndCrash? then s.(world := w, subscribed := false, asked := None)
      else Queue(s.(world := w), EventMessages(id, Emitted(s.world, step)), fit)
    case Reconnect => s.(wire := [], subscribed := false, asked := Some(s.cursor), resume := s.cursor, seen := s.cursor)
    case Answer(request, name, lease, fit) =>
      if s.asked.None? then s
      else
        var live := s.world.live;
        Queue(s.(asked := None, subscribed := true),
              CatchUp(id, live.hosted.events, live.hosted.app, Top(s), s.asked.value)
              + [Response(request, AttachedTo(id, name, Top(s), lease))], fit)
    case Receive => if s.wire == [] then s else Absorb(s.(wire := s.wire[1..]), s.wire[0])
    case Hangup => s.(subscribed := false, asked := None)
  }

  function Initial<S, E, F>(app: S): System<S, E, F> {
    System(SessionRun.Initial(app), [], false, None, None, None, [], None)
  }

  function ReactionOf<S, E, F>(step: Step<S, E, F>): Option<Reaction<S, E, F>> {
    match step
    case Command(_, reaction, _) => Some(reaction)
    case Poll(reaction, _) => Some(reaction)
    case Finish(_, reaction, _) => Some(reaction)
    case _ => None
  }

  /** A handler's events, applied to what a client shows, give what the session shows after. */
  ghost predicate Mirrored<S, E, F, V>(mirror: Mirror<S, E, V>, before: S, reaction: Reaction<S, E, F>) {
    Fold(mirror.apply, mirror.view(before), reaction.events) == mirror.view(reaction.after)
  }

  ghost predicate Allowed<S, E, F, V>(
    cfg: Config<S, E>, mirror: Mirror<S, E, V>, s: System<S, E, F>, move: Move<S, E, F>) {
    move.Leader? ==>
      && Possible(cfg, s.world, move.step)
      && (ReactionOf(move.step).Some? ==> Mirrored(mirror, s.world.live.hosted.app, ReactionOf(move.step).value))
  }

  ghost predicate IsRun<S, E, F, V>(
    cfg: Config<S, E>, mirror: Mirror<S, E, V>, id: SessionId, app: S,
    systems: seq<System<S, E, F>>, moves: seq<Move<S, E, F>>)
  {
    && cfg.window >= 1
    && |systems| == |moves| + 1
    && systems[0] == Initial(app)
    && forall i :: 0 <= i < |moves| ==>
         Allowed(cfg, mirror, systems[i], moves[i]) && systems[i + 1] == Next(cfg, id, systems[i], moves[i])
  }

  // ----- positions in the log -----

  /** How many events of an ascending log have a sequence of at most `p`. */
  function Rank<E>(log: seq<Sequenced<E>>, p: nat): (k: nat)
    ensures k <= |log|
    ensures k > 0 ==> log[k - 1].sequence <= p
    ensures forall i :: k <= i < |log| ==> log[i].sequence > p
  {
    if log == [] then 0
    else if log[|log| - 1].sequence <= p then |log|
    else Rank(log[..|log| - 1], p)
  }

  lemma RankIs<E>(log: seq<Sequenced<E>>, top: nat, p: nat, k: nat)
    requires Ascending(log, top) && k <= |log|
    requires k > 0 ==> log[k - 1].sequence <= p
    requires k < |log| ==> log[k].sequence > p
    ensures Rank(log, p) == k
  {
  }

  lemma RankGrows<E>(log: seq<Sequenced<E>>, top: nat, more: seq<Sequenced<E>>, newTop: nat, p: nat)
    requires Ascending(log, top) && Ascending(log + more, newTop) && p <= top
    requires forall i :: 0 <= i < |more| ==> more[i].sequence > top
    ensures Rank(log + more, p) == Rank(log, p)
  {
    RankIs(log + more, newTop, p, Rank(log, p));
  }

  lemma RankTop<E>(log: seq<Sequenced<E>>, top: nat)
    requires Ascending(log, top)
    ensures Rank(log, top) == |log|
  {
    RankIs(log, top, top, |log|);
  }

  lemma RankOf<E>(log: seq<Sequenced<E>>, top: nat, k: nat)
    requires Ascending(log, top) && k < |log|
    ensures Rank(log, log[k].sequence) == k + 1
  {
    RankIs(log, top, log[k].sequence, k + 1);
  }

  // ----- what the consumer holds -----

  function LastSnapshot<S, E>(sink: seq<Message<S, E>>): Option<nat> {
    if sink == [] then None
    else if sink[|sink| - 1].Snapshot? then Some(sink[|sink| - 1].sequence)
    else LastSnapshot(sink[..|sink| - 1])
  }

  /** What the consumer received after the latest snapshot. */
  function Since<S, E>(sink: seq<Message<S, E>>): seq<Message<S, E>> {
    if sink == [] || sink[|sink| - 1].Snapshot? then []
    else Since(sink[..|sink| - 1]) + [sink[|sink| - 1]]
  }

  /** What a consumer shows: its latest snapshot with the later events applied. */
  function Shown<S, E, V>(mirror: Mirror<S, E, V>, sink: seq<Message<S, E>>): Option<V> {
    if sink == [] then None
    else
      var m, before := sink[|sink| - 1], Shown(mirror, sink[..|sink| - 1]);
      match m
      case Snapshot(_, _, state) => Some(mirror.view(state))
      case Event(_, _, event) => if before.None? then None else Some(mirror.apply(before.value, event))
      case _ => before
  }

  lemma SinkSnoc<S, E, V>(mirror: Mirror<S, E, V>, sink: seq<Message<S, E>>, m: Message<S, E>)
    ensures LastSnapshot(sink + [m]) == if m.Snapshot? then Some(m.sequence) else LastSnapshot(sink)
    ensures Since(sink + [m]) == if m.Snapshot? then [] else Since(sink) + [m]
    ensures Shown(mirror, sink + [m]) ==
            match m
            case Snapshot(_, _, state) => Some(mirror.view(state))
            case Event(_, _, event) =>
              if Shown(mirror, sink).None? then None
              else Some(mirror.apply(Shown(mirror, sink).value, event))
            case _ => Shown(mirror, sink)
  {
    assert (sink + [m])[..|sink|] == sink;
  }

  function Plain<E>(events: seq<Sequenced<E>>): (r: seq<E>)
    ensures |r| == |events| && forall i :: 0 <= i < |r| ==> r[i] == events[i].event
  {
    seq(|events|, i requires 0 <= i < |events| => events[i].event)
  }

  lemma {:induction false} FoldConcat<V, E>(apply: (V, E) -> V, v: V, a: seq<E>, b: seq<E>)
    ensures Fold(apply, v, a + b) == Fold(apply, Fold(apply, v, a), b)
    decreases |a|
  {
    if a == [] {
      assert a + b == b;
    } else {
      assert (a + b)[1..] == a[1..] + b;
      FoldConcat(apply, apply(v, a[0]), a[1..], b);
    }
  }

  // ----- the invariant -----

  /** The sink holds exactly the logged events between its latest snapshot and `p`, and the
      events after `p` would take what it shows to what the session shows now. */
  ghost predicate Picture<S, E, F, V>(mirror: Mirror<S, E, V>, id: SessionId, s: System<S, E, F>, p: nat) {
    && LastSnapshot(s.sink).Some? && LastSnapshot(s.sink).value <= p <= Top(s)
    && Rank(Log(s), LastSnapshot(s.sink).value) <= Rank(Log(s), p)
    && Since(s.sink) == EventMessages(id, Log(s)[Rank(Log(s), LastSnapshot(s.sink).value)..Rank(Log(s), p)])
    && Shown(mirror, s.sink).Some?
    && Fold(mirror.apply, Shown(mirror, s.sink).value,
            Plain(Log(s)[Rank(Log(s), p)..])) == mirror.view(s.world.live.hosted.app)
  }

  /** A queued message continues the log from position `from`; the result is the next position. */
  ghost predicate Follows<S, E>(id: SessionId, log: seq<Sequenced<E>>, top: nat, from: Option<nat>, m: Message<S, E>) {
    match m
    case Event(session, sequence, event) =>
      && from.Some? && session == id && sequence <= top
      && Rank(log, from.value) < |log| && log[Rank(log, from.value)] == Sequenced(sequence, event)
    case Snapshot(session, sequence, _) =>
      session == id && sequence <= top && (from.Some? ==> from.value <= sequence)
    case Response(_, reply) =>
      && reply.AttachedTo? && from.Some? && from.value <= reply.sequence <= top
      && Rank(log, from.value) == Rank(log, reply.sequence)
    case DriverChanged(_, _) => true
  }

  function Position<S, E>(from: Option<nat>, m: Message<S, E>): Option<nat> {
    match m
    case Event(_, sequence, _) => Some(sequence)
    case Snapshot(_, sequence, _) => Some(sequence)
    case Response(_, reply) => if reply.AttachedTo? then Some(reply.sequence) else from
    case DriverChanged(_, _) => from
  }

  ghost predicate Flows<S, E>(
    id: SessionId, log: seq<Sequenced<E>>, top: nat, from: Option<nat>, wire: seq<Message<S, E>>)
    decreases |wire|
  {
    wire == [] || (Follows(id, log, top, from, wire[0]) && Flows(id, log, top, Position(from, wire[0]), wire[1..]))
  }

  function End<S, E>(from: Option<nat>, wire: seq<Message<S, E>>): Option<nat>
    decreases |wire|
  {
    if wire == [] then from else End(Position(from, wire[0]), wire[1..])
  }

  /** A queued snapshot shows what the session showed when it was taken. */
  ghost predicate Snapshots<S, E, F, V>(mirror: Mirror<S, E, V>, s: System<S, E, F>) {
    forall i :: 0 <= i < |s.wire| && s.wire[i].Snapshot? ==>
      Fold(mirror.apply, mirror.view(s.wire[i].state), Plain(Log(s)[Rank(Log(s), s.wire[i].sequence)..]))
      == mirror.view(s.world.live.hosted.app)
  }

  ghost predicate Cursors<S, E, F>(s: System<S, E, F>) {
    && (s.cursor.Some? ==> s.seen == s.cursor)
    && (s.resume.Some? ==> s.seen.Some? && s.resume.value <= s.seen.value)
    && (s.asked.Some? ==> s.asked.value == s.cursor == s.seen && s.wire == [] && !s.subscribed)
    && (s.seen.Some? ==> s.seen.value <= Top(s))
  }

  ghost predicate Inv<S, E, F, V>(cfg: Config<S, E>, mirror: Mirror<S, E, V>, id: SessionId, s: System<S, E, F>) {
    && SessionRun.Inv(cfg, s.world)
    && Cursors(s)
    && (s.seen.Some? ==> Picture(mirror, id, s, s.seen.value))
    && Flows(id, Log(s), Top(s), s.seen, s.wire)
    && Snapshots(mirror, s)
    && (s.subscribed ==> End(s.seen, s.wire).Some? && Rank(Log(s), End(s.seen, s.wire).value) == |Log(s)|)
  }

  // ----- the log grows -----

  /** What a leader step does to the log, to the sequence and to what the session shows. */
  ghost predicate Extends<S, E, F, V>(
    mirror: Mirror<S, E, V>, w: World<S, E, F>, w': World<S, E, F>, more: seq<Sequenced<E>>)
  {
    && EventsOf(w'.disk.journal) == EventsOf(w.disk.journal) + more
    && w.live.ledger.sequence <= w'.live.ledger.sequence
    && (forall i :: 0 <= i < |more| ==> more[i].sequence == w.live.ledger.sequence + 1 + i)
    && Fold(mirror.apply, mirror.view(w.live.hosted.app), Plain(more)) == mirror.view(w'.live.hosted.app)
  }

  lemma ApplyExtends<S, E, F, V>(
    cfg: Config<S, E>, mirror: Mirror<S, E, V>, w: World<S, E, F>, request: Option<RequestId>,
    completed: Option<EffectId>, reaction: Reaction<S, E, F>, now: nat)
    requires Valid(w.live.ledger, cfg.window) && cfg.window >= 1
    requires Mirrored(mirror, w.live.hosted.app, reaction)
    requires request.Some? ==> request.value !in w.live.ledger.committed
    ensures Extends(mirror, w, Apply(cfg, w, request, completed, reaction, now),
                    Numbered(reaction.events, w.live.ledger.sequence))
  {
    hide Allocate, LastN, RetainIf, Fold, EventsOf, Canon;
    assert w.live.ledger.sequence <= Allocate(w.live.ledger, request, |reaction.events|, cfg.window).sequence by {
      AllocateFacts(w.live.ledger, request, |reaction.events|, cfg.window);
    }
    hide Valid;
    EventsOfAppend(w.disk.journal, TransitionRecord(cfg, w.live, request, completed, reaction, now));
    assert Plain(Numbered(reaction.events, w.live.ledger.sequence)) == reaction.events;
  }

  lemma QuietExtends<S, E, F, V>(mirror: Mirror<S, E, V>, w: World<S, E, F>, w': World<S, E, F>)
    requires EventsOf(w'.disk.journal) == EventsOf(w.disk.journal)
    requires w'.live.ledger == w.live.ledger && w'.live.hosted.app == w.live.hosted.app
    ensures Extends(mirror, w, w', [])
  {
    assert EventsOf(w.disk.journal) + [] == EventsOf(w.disk.journal);
  }

  lemma AttemptLog<S, E, F>(live: Live<S, E, F>, journal: Journal<E, F>)
    requires live.hosted.pending != []
    ensures EventsOf(JournalAfterDispatch(live, journal)) == EventsOf(journal)
  {
    if !OutcomeUnknown(live.hosted.pending[0]) {
      EventsOfAppend(journal, AttemptRecord(live));
      assert EventsOf(journal) + [] == EventsOf(journal);
    }
  }

  lemma StepExtends<S, E, F, V>(cfg: Config<S, E>, mirror: Mirror<S, E, V>, w: World<S, E, F>, step: Step<S, E, F>)
    requires SessionRun.Inv(cfg, w) && Possible(cfg, w, step)
    requires ReactionOf(step).Some? ==> Mirrored(mirror, w.live.hosted.app, ReactionOf(step).value)
    ensures Extends(mirror, w, SessionRun.Next(cfg, w, step), Emitted(w, step))
  {
    hide Load, AfterTransition, TransitionRecord, Extends, EventsOf, Canon, EffectInv, RequestInv, StartsInv;
    var w' := SessionRun.Next(cfg, w, step);
    match step
    case Command(request, reaction, now) =>
      if request in w.live.ledger.committed {
        QuietExtends(mirror, w, w');
      } else {
        ApplyExtends(cfg, mirror, w, Some(request), None, reaction, now);
      }
    case Poll(reaction, now) => ApplyExtends(cfg, mirror, w, None, None, reaction, now);
    case Finish(effect, reaction, now) =>
      if IsRunning(w.live, effect) {
        ApplyExtends(cfg, mirror, w, None, Some(effect), reaction, now);
      } else {
        QuietExtends(mirror, w, w');
      }
    case Dispatch =>
      AttemptLog(w.live, w.disk.journal);
      QuietExtends(mirror, w, w');
    case DispatchAndCrash =>
      CrashKeeps(cfg, w, true);
      QuietExtends(mirror, w, w');
    case WriteCheckpoint => QuietExtends(mirror, w, w');
    case Crash =>
      CrashKeeps(cfg, w, false);
      QuietExtends(mirror, w, w');
  }

  /** A crash keeps the log, the sequence and the application state. */
  lemma CrashKeeps<S, E, F>(cfg: Config<S, E>, w: World<S, E, F>, dispatching: bool)
    requires SessionRun.Inv(cfg, w) && (dispatching ==> Dispatchable(w.live))
    ensures var w' := SessionRun.Next(cfg, w, if dispatching then DispatchAndCrash else Step.Crash);
            && EventsOf(w'.disk.journal) == EventsOf(w.disk.journal)
            && w'.live.ledger == w.live.ledger && w'.live.hosted.app == w.live.hosted.app
  {
    hide Load, EventsOf, EffectInv, RequestInv, StartsInv, RecoveryInv;
    if dispatching {
      AttemptLog(w.live, w.disk.journal);
      DispatchInv(cfg, w.live, w.disk);
      RestartInv(cfg, AfterDispatch(w.live), w.disk.(journal := JournalAfterDispatch(w.live, w.disk.journal)));
    } else {
      RestartInv(cfg, w.live, w.disk);
    }
  }

  lemma ShowGrows<S, E, V>(
    mirror: Mirror<S, E, V>, log: seq<Sequenced<E>>, top: nat, more: seq<Sequenced<E>>, newTop: nat, p: nat, v: V,
    app: S, after: S)
    requires Ascending(log, top) && Ascending(log + more, newTop) && p <= top
    requires forall i :: 0 <= i < |more| ==> more[i].sequence > top
    requires Fold(mirror.apply, v, Plain(log[Rank(log, p)..])) == mirror.view(app)
    requires Fold(mirror.apply, mirror.view(app), Plain(more)) == mirror.view(after)
    ensures Fold(mirror.apply, v, Plain((log + more)[Rank(log + more, p)..])) == mirror.view(after)
  {
    hide Rank, Fold;
    RankGrows(log, top, more, newTop, p);
    var k := Rank(log, p);
    assert (log + more)[k..] == log[k..] + more;
    assert Plain((log + more)[k..]) == Plain(log[k..]) + Plain(more);
    FoldConcat(mirror.apply, v, Plain(log[k..]), Plain(more));
  }

  // ----- queued messages -----

  lemma {:induction false} FlowsGrow<S, E>(
    id: SessionId, log: seq<Sequenced<E>>, top: nat, more: seq<Sequenced<E>>, newTop: nat, from: Option<nat>,
    wire: seq<Message<S, E>>)
    requires Ascending(log, top) && Ascending(log + more, newTop) && top <= newTop
    requires forall i :: 0 <= i < |more| ==> more[i].sequence > top
    requires from.Some? ==> from.value <= top
    requires Flows(id, log, top, from, wire)
    ensures Flows(id, log + more, newTop, from, wire)
    ensures End(from, wire).Some? ==> End(from, wire).value <= top
    decreases |wire|
  {
    hide Ascending;
    if wire != [] {
      if from.Some? {
        RankGrows(log, top, more, newTop, from.value);
      }
      if wire[0].Response? {
        RankGrows(log, top, more, newTop, wire[0].reply.sequence);
      }
      FlowsGrow(id, log, top, more, newTop, Position(from, wire[0]), wire[1..]);
    }
  }

  lemma {:induction false} FlowsAppend<S, E>(
    id: SessionId, log: seq<Sequenced<E>>, top: nat, from: Option<nat>, wire: seq<Message<S, E>>,
    tail: seq<Message<S, E>>)
    requires Flows(id, log, top, from, wire) && Flows(id, log, top, End(from, wire), tail)
    ensures Flows(id, log, top, from, wire + tail)
    ensures End(from, wire + tail) == End(End(from, wire), tail)
    decreases |wire|
  {
    if wire == [] {
      assert wire + tail == tail;
    } else {
      assert (wire + tail)[1..] == wire[1..] + tail;
      FlowsAppend(id, log, top, Position(from, wire[0]), wire[1..], tail);
    }
  }

  lemma {:induction false} FlowsPrefix<S, E>(
    id: SessionId, log: seq<Sequenced<E>>, top: nat, from: Option<nat>, wire: seq<Message<S, E>>, n: nat)
    requires Flows(id, log, top, from, wire) && n <= |wire|
    ensures Flows(id, log, top, from, wire[..n])
    decreases |wire|
  {
    if n > 0 {
      assert wire[..n][1..] == wire[1..][..n - 1];
      FlowsPrefix(id, log, top, Position(from, wire[0]), wire[1..], n - 1);
    }
  }

  /** Consecutive logged events continue the log from just before the first of them. */
  lemma {:induction false} EventsFlow<S, E>(id: SessionId, log: seq<Sequenced<E>>, top: nat, p: nat)
    requires Ascending(log, top)
    ensures Flows<S, E>(id, log, top, Some(p), EventMessages(id, log[Rank(log, p)..]))
    ensures var end := End<S, E>(Some(p), EventMessages(id, log[Rank(log, p)..]));
            end.Some? && end.value <= Max(p, top) && Rank(log, end.value) == |log|
    decreases |log| - Rank(log, p)
  {
    hide Rank, Ascending, Follows, Flows, End, EventMessages;
    var k := Rank(log, p);
    if k < |log| {
      var next := log[k].sequence;
      RankOf(log, top, k);
      EventsFlow<S, E>(id, log, top, next);
      EventMessagesCons<S, E>(id, log, k);
      EventFollows<S, E>(id, log, top, p);
      FlowsCons<S, E>(id, log, top, Some(p), Event(id, next, log[k].event), EventMessages(id, log[k + 1..]));
    } else {
      FlowsNothing<S, E>(id, log, top, Some(p));
      assert EventMessages<S, E>(id, log[k..]) == [];
    }
  }

  lemma EventMessagesCons<S, E>(id: SessionId, log: seq<Sequenced<E>>, k: nat)
    requires k < |log|
    ensures EventMessages<S, E>(id, log[k..])
            == [Event(id, log[k].sequence, log[k].event)] + EventMessages(id, log[k + 1..])
  {
  }

  lemma EventFollows<S, E>(id: SessionId, log: seq<Sequenced<E>>, top: nat, p: nat)
    requires Ascending(log, top) && Rank(log, p) < |log|
    ensures var e := log[Rank(log, p)];
            Follows<S, E>(id, log, top, Some(p), Event(id, e.sequence, e.event)) && e.sequence <= top
  {
  }

  lemma FlowsCons<S, E>(
    id: SessionId, log: seq<Sequenced<E>>, top: nat, from: Option<nat>, m: Message<S, E>, rest: seq<Message<S, E>>)
    requires Follows(id, log, top, from, m) && Flows(id, log, top, Position(from, m), rest)
    ensures Flows(id, log, top, from, [m] + rest) && End(from, [m] + rest) == End(Position(from, m), rest)
  {
    assert ([m] + rest)[1..] == rest;
  }

  lemma FlowsNothing<S, E>(id: SessionId, log: seq<Sequenced<E>>, top: nat, from: Option<nat>)
    ensures Flows<S, E>(id, log, top, from, []) && End<S, E>(from, []) == from
  {
  }

  // ----- every move keeps the invariant -----

  /** What growth of the log leaves intact, before its messages are queued. */
  ghost predicate Grown<S, E, F, V>(mirror: Mirror<S, E, V>, id: SessionId, s: System<S, E, F>, known: nat) {
    && Cursors(s)
    && (s.seen.Some? ==> Picture(mirror, id, s, s.seen.value))
    && Flows(id, Log(s), Top(s), s.seen, s.wire)
    && Snapshots(mirror, s)
    && (End(s.seen, s.wire).Some? ==> End(s.seen, s.wire).value <= Top(s))
    && (s.subscribed ==> End(s.seen, s.wire).Some? && Rank(Log(s), End(s.seen, s.wire).value) == known)
  }

  lemma InvIsGrown<S, E, F, V>(cfg: Config<S, E>, mirror: Mirror<S, E, V>, id: SessionId, s: System<S, E, F>)
    requires Inv(cfg, mirror, id, s)
    ensures Grown(mirror, id, s, |Log(s)|) && Ascending(Log(s), Top(s))
    ensures s.world.live.hosted.events == LastN(Log(s), cfg.history)
  {
    hide Picture, Snapshots, Shown, Flows, EventsOf, Load;
    assert Log(s) + [] == Log(s);
    FlowsGrow(id, Log(s), Top(s), [], Top(s), s.seen, s.wire);
  }

  lemma PictureGrows<S, E, F, V>(
    mirror: Mirror<S, E, V>, id: SessionId, s: System<S, E, F>, w: World<S, E, F>, more: seq<Sequenced<E>>, p: nat)
    requires Picture(mirror, id, s, p) && Extends(mirror, s.world, w, more)
    requires Ascending(Log(s), Top(s)) && Ascending(Log(s.(world := w)), w.live.ledger.sequence)
    ensures Picture(mirror, id, s.(world := w), p)
  {
    hide Ascending, Rank, EventsOf, Shown, Since, LastSnapshot;
    var base := LastSnapshot(s.sink).value;
    RankGrows(Log(s), Top(s), more, w.live.ledger.sequence, base);
    RankGrows(Log(s), Top(s), more, w.live.ledger.sequence, p);
    ShowGrows(mirror, Log(s), Top(s), more, w.live.ledger.sequence, p, Shown(mirror, s.sink).value,
              s.world.live.hosted.app, w.live.hosted.app);
    assert (Log(s) + more)[Rank(Log(s), base)..Rank(Log(s), p)] == Log(s)[Rank(Log(s), base)..Rank(Log(s), p)];
  }

  lemma SnapshotsGrow<S, E, F, V>(
    mirror: Mirror<S, E, V>, s: System<S, E, F>, w: World<S, E, F>, more: seq<Sequenced<E>>)
    requires Snapshots(mirror, s) && Extends(mirror, s.world, w, more)
    requires Ascending(Log(s), Top(s)) && Ascending(Log(s.(world := w)), w.live.ledger.sequence)
    requires forall i :: 0 <= i < |s.wire| && s.wire[i].Snapshot? ==> s.wire[i].sequence <= Top(s)
    ensures Snapshots(mirror, s.(world := w))
  {
    hide Ascending, Rank, EventsOf;
    forall i | 0 <= i < |s.wire| && s.wire[i].Snapshot?
      ensures Fold(mirror.apply, mirror.view(s.wire[i].state),
                   Plain(Log(s.(world := w))[Rank(Log(s.(world := w)), s.wire[i].sequence)..]))
              == mirror.view(w.live.hosted.app)
    {
      ShowGrows(mirror, Log(s), Top(s), more, w.live.ledger.sequence, s.wire[i].sequence, mirror.view(s.wire[i].state),
                s.world.live.hosted.app, w.live.hosted.app);
    }
  }

  lemma {:induction false} FlowsBound<S, E>(
    id: SessionId, log: seq<Sequenced<E>>, top: nat, from: Option<nat>, wire: seq<Message<S, E>>, i: nat)
    requires Flows(id, log, top, from, wire) && i < |wire| && wire[i].Snapshot?
    ensures wire[i].sequence <= top
    decreases |wire|
  {
    if i > 0 {
      FlowsBound(id, log, top, Position(from, wire[0]), wire[1..], i - 1);
    }
  }

  lemma WorldGrows<S, E, F, V>(
    cfg: Config<S, E>, mirror: Mirror<S, E, V>, id: SessionId, s: System<S, E, F>, w: World<S, E, F>,
    more: seq<Sequenced<E>>)
    requires Inv(cfg, mirror, id, s) && SessionRun.Inv(cfg, w) && Extends(mirror, s.world, w, more)
    ensures Grown(mirror, id, s.(world := w), |Log(s)|)
    ensures Log(s.(world := w)) == Log(s) + more && Ascending(Log(s.(world := w)), w.live.ledger.sequence)
  {
    hide Ascending, Rank, EventsOf, Picture, Snapshots, Flows, Load, EffectInv, RequestInv, StartsInv;
    InvIsGrown(cfg, mirror, id, s);
    var newTop := w.live.ledger.sequence;
    if s.seen.Some? {
      PictureGrows(mirror, id, s, w, more, s.seen.value);
    }
    FlowsGrow(id, Log(s), Top(s), more, newTop, s.seen, s.wire);
    forall i | 0 <= i < |s.wire| && s.wire[i].Snapshot? ensures s.wire[i].sequence <= Top(s) {
      FlowsBound(id, Log(s), Top(s), s.seen, s.wire, i);
    }
    SnapshotsGrow(mirror, s, w, more);
    if End(s.seen, s.wire).Some? {
      RankGrows(Log(s), Top(s), more, newTop, End(s.seen, s.wire).value);
    }
  }

  /** Messages that continue the log to its end may be queued, all of them or the first few. */
  lemma QueueKeeps<S, E, F, V>(
    cfg: Config<S, E>, mirror: Mirror<S, E, V>, id: SessionId, s: System<S, E, F>, known: nat,
    messages: seq<Message<S, E>>, fit: nat)
    requires SessionRun.Inv(cfg, s.world) && Grown(mirror, id, s, known)
    requires s.subscribed ==> s.asked.None?
    requires s.subscribed ==> Flows(id, Log(s), Top(s), End(s.seen, s.wire), messages)
    requires s.subscribed ==>
               var end := End(End(s.seen, s.wire), messages); end.Some? && Rank(Log(s), end.value) == |Log(s)|
    requires forall i :: 0 <= i < |messages| && messages[i].Snapshot? ==>
               Fold(mirror.apply, mirror.view(messages[i].state), Plain(Log(s)[Rank(Log(s), messages[i].sequence)..]))
               == mirror.view(s.world.live.hosted.app)
    ensures Inv(cfg, mirror, id, Queue(s, messages, fit))
  {
    hide Rank, EventsOf, Flows, End, SessionRun.Inv, Shown, Since, LastSnapshot;
    if s.subscribed {
      FlowsAppend(id, Log(s), Top(s), s.seen, s.wire, messages);
      if fit < |messages| {
        FlowsPrefix(id, Log(s), Top(s), s.seen, s.wire + messages, |s.wire| + fit);
        assert (s.wire + messages)[..|s.wire| + fit] == s.wire + messages[..fit];
      }
    }
  }

  lemma LeaderKeeps<S, E, F, V>(
    cfg: Config<S, E>, mirror: Mirror<S, E, V>, id: SessionId, s: System<S, E, F>, step: Step<S, E, F>, fit: nat)
    requires Inv(cfg, mirror, id, s) && Allowed(cfg, mirror, s, Leader(step, fit))
    ensures Inv(cfg, mirror, id, Next(cfg, id, s, Leader(step, fit)))
  {
    hide SessionRun.Inv, Picture, Snapshots, Flows, EventsOf, SessionRun.Next, Extends, Possible, Rank, Emitted, End;
    var w, more := SessionRun.Next(cfg, s.world, step), Emitted(s.world, step);
    var grown := s.(world := w);
    SessionRun.StepInv(cfg, s.world, step);
    StepExtends(cfg, mirror, s.world, step);
    WorldGrows(cfg, mirror, id, s, w, more);
    if !(step.Crash? || step.DispatchAndCrash?) {
      var messages: seq<Message<S, E>> := EventMessages(id, more);
      if s.subscribed {
        var end := End(s.seen, s.wire);
        assert Log(grown)[|Log(s)|..] == more;
        EventsFlow<S, E>(id, Log(grown), Top(grown), end.value);
      }
      QueueKeeps(cfg, mirror, id, grown, |Log(s)|, messages, fit);
    } else {
      LetGo(cfg, mirror, id, grown, |Log(s)|);
    }
  }

  lemma LetGo<S, E, F, V>(cfg: Config<S, E>, mirror: Mirror<S, E, V>, id: SessionId, s: System<S, E, F>, known: nat)
    requires SessionRun.Inv(cfg, s.world) && Grown(mirror, id, s, known)
    ensures Inv(cfg, mirror, id, s.(subscribed := false, asked := None))
  {
    hide SessionRun.Inv, EventsOf, Rank, Flows, End, Shown, Since, LastSnapshot;
  }

  lemma {:induction false} AboveIsSuffix<E>(events: seq<Sequenced<E>>, top: nat, p: nat)
    requires Ascending(events, top)
    ensures Above(events, p) == events[Rank(events, p)..]
    decreases |events|
  {
    hide Rank;
    if events == [] {
    } else if events[0].sequence <= p {
      RankCons(events, top, p);
      AboveIsSuffix(events[1..], top, p);
    } else {
      RankIs(events, top, p, 0);
      AboveAll(events, p);
    }
  }

  lemma RankCons<E>(events: seq<Sequenced<E>>, top: nat, p: nat)
    requires Ascending(events, top) && events != [] && events[0].sequence <= p
    ensures Ascending(events[1..], top)
    ensures Rank(events, p) == 1 + Rank(events[1..], p)
  {
    hide Rank;
    var k := Rank(events[1..], p);
    assert k > 0 ==> events[1..][k - 1] == events[k];
    assert k < |events| - 1 ==> events[1..][k] == events[k + 1];
    RankIs(events, top, p, k + 1);
  }

  lemma {:induction false} AboveAll<E>(events: seq<Sequenced<E>>, p: nat)
    requires forall i :: 0 <= i < |events| ==> events[i].sequence > p
    ensures Above(events, p) == events
  {
    if events != [] {
      AboveAll(events[1..], p);
    }
  }

  /** The bounded history is enough: when it reaches back to the cursor, what it holds above
      the cursor is everything the log holds above it. */
  lemma HistoryCatchesUp<E>(log: seq<Sequenced<E>>, top: nat, n: nat, cursor: nat)
    requires Ascending(log, top) && Covers(LastN(log, n), Some(cursor))
    ensures Above(LastN(log, n), cursor) == log[Rank(log, cursor)..]
  {
    hide Rank, Ascending, LastN, Above;
    var history := LastN(log, n);
    var skipped := |log| - |history|;
    LastNIsSuffix(log, n);
    SuffixAscends(log, top, skipped);
    AboveIsSuffix(history, top, cursor);
    SuffixRank(log, top, skipped, cursor);
    assert log[skipped..][Rank(history, cursor)..] == log[skipped + Rank(history, cursor)..];
  }

  lemma SuffixRank<E>(log: seq<Sequenced<E>>, top: nat, d: nat, p: nat)
    requires Ascending(log, top) && d < |log| && log[d].sequence <= p + 1
    ensures Rank(log, p) == d + Rank(log[d..], p)
  {
    hide Rank;
    var k := Rank(log[d..], p);
    assert k > 0 ==> log[d..][k - 1] == log[d + k - 1];
    assert k < |log| - d ==> log[d..][k] == log[d + k];
    assert d > 0 ==> log[d - 1].sequence < log[d].sequence;
    RankIs(log, top, p, d + k);
  }

  lemma SuffixAscends<E>(log: seq<Sequenced<E>>, top: nat, k: nat)
    requires Ascending(log, top) && k <= |log|
    ensures Ascending(log[k..], top)
  {
  }

  /** The history reaches back to a cursor when it holds every recorded event above it. */
  ghost predicate Reached<E>(log: seq<Sequenced<E>>, n: nat, after: Option<nat>) {
    after.Some? && log != [] && n > 0 && log[if |log| <= n then 0 else |log| - n].sequence <= after.value + 1
  }

  /** A cursor the history reaches is answered with exactly the missed events and no snapshot;
      any other with one snapshot. */
  lemma ReplayedExactly<S, E>(
    id: SessionId, log: seq<Sequenced<E>>, top: nat, n: nat, state: S, after: Option<nat>)
    requires Ascending(log, top)
    ensures CatchUp(id, LastN(log, n), state, top, after)
            == if Reached(log, n, after) then EventMessages(id, log[Rank(log, after.value)..])
               else [Snapshot(id, top, state)]
  {
    hide Ascending, Rank;
    LastNIsSuffix(log, n);
    if Reached(log, n, after) {
      HistoryCatchesUp(log, top, n, after.value);
    }
  }

  /** Whether by replay or by snapshot, what the leader answers continues the log to its end. */
  lemma CatchUpFlows<S, E>(
    id: SessionId, log: seq<Sequenced<E>>, top: nat, n: nat, state: S, after: Option<nat>, answer: Message<S, E>)
    requires Ascending(log, top) && (after.Some? ==> after.value <= top)
    requires answer.Response? && answer.reply.AttachedTo? && answer.reply.sequence == top
    ensures var messages := CatchUp(id, LastN(log, n), state, top, after) + [answer];
            && Flows(id, log, top, after, messages) && End(after, messages) == Some(top)
            && (forall i :: 0 <= i < |messages| && messages[i].Snapshot? ==>
                  messages[i].sequence == top && messages[i].state == state)
  {
    hide Rank, Ascending, LastN, Flows, End, Above, Follows;
    RankTop(log, top);
    var caught := CatchUp(id, LastN(log, n), state, top, after);
    var from := End(after, caught);
    if Covers(LastN(log, n), after) {
      HistoryCatchesUp(log, top, n, after.value);
      EventsFlow<S, E>(id, log, top, after.value);
    } else {
      FlowsNothing<S, E>(id, log, top, Some(top));
      FlowsCons(id, log, top, after, caught[0], []);
      assert [caught[0]] + [] == caught;
    }
    FlowsNothing<S, E>(id, log, top, Some(top));
    FlowsCons(id, log, top, from, answer, []);
    assert [answer] + [] == [answer];
    FlowsAppend(id, log, top, after, caught, [answer]);
  }

  lemma AnswerKeeps<S, E, F, V>(
    cfg: Config<S, E>, mirror: Mirror<S, E, V>, id: SessionId, s: System<S, E, F>, request: RequestId,
    name: string, lease: Option<nat>, fit: nat)
    requires Inv(cfg, mirror, id, s)
    ensures Inv(cfg, mirror, id, Next(cfg, id, s, Answer(request, name, lease, fit)))
  {
    hide SessionRun.Inv, Picture, Flows, EventsOf, Rank, End, CatchUp, LastN, Ascending;
    if s.asked.Some? {
      InvIsGrown(cfg, mirror, id, s);
      var live := s.world.live;
      var joined := s.(asked := None, subscribed := true);
      var answer: Message<S, E> := Response(request, AttachedTo(id, name, Top(s), lease));
      var messages := CatchUp(id, live.hosted.events, live.hosted.app, Top(s), s.asked.value) + [answer];
      CatchUpFlows(id, Log(s), Top(s), cfg.history, live.hosted.app, s.asked.value, answer);
      RankTop(Log(s), Top(s));
      assert Plain(Log(s)[|Log(s)|..]) == [];
      if s.seen.Some? {
        PictureSame(mirror, id, s, joined, s.seen.value);
      }
      QueueFresh(cfg, mirror, id, joined, messages, fit);
    }
  }

  lemma PictureSame<S, E, F, V>(mirror: Mirror<S, E, V>, id: SessionId, s: System<S, E, F>, t: System<S, E, F>, p: nat)
    requires Picture(mirror, id, s, p) && t.world == s.world && t.sink == s.sink
    ensures Picture(mirror, id, t, p)
  {
    hide EventsOf, Rank, Shown, Since, LastSnapshot;
  }

  lemma QueueFresh<S, E, F, V>(
    cfg: Config<S, E>, mirror: Mirror<S, E, V>, id: SessionId, s: System<S, E, F>, messages: seq<Message<S, E>>,
    fit: nat)
    requires SessionRun.Inv(cfg, s.world) && s.wire == [] && s.asked.None? && s.subscribed && Cursors(s)
    requires s.seen.Some? ==> Picture(mirror, id, s, s.seen.value)
    requires Flows(id, Log(s), Top(s), s.seen, messages) && End(s.seen, messages) == Some(Top(s))
    requires Rank(Log(s), Top(s)) == |Log(s)|
    requires forall i :: 0 <= i < |messages| && messages[i].Snapshot? ==>
               Fold(mirror.apply, mirror.view(messages[i].state), Plain(Log(s)[Rank(Log(s), messages[i].sequence)..]))
               == mirror.view(s.world.live.hosted.app)
    ensures Inv(cfg, mirror, id, Queue(s, messages, fit))
  {
    hide SessionRun.Inv, EventsOf, Rank, Flows, End, Shown, Since, LastSnapshot;
    assert [] + messages == messages && [] + messages[..Min(fit, |messages|)] == messages[..Min(fit, |messages|)];
    if fit < |messages| {
      FlowsPrefix(id, Log(s), Top(s), s.seen, messages, fit);
    }
  }

  lemma ReceiveKeeps<S, E, F, V>(cfg: Config<S, E>, mirror: Mirror<S, E, V>, id: SessionId, s: System<S, E, F>)
    requires Inv(cfg, mirror, id, s) && s.wire != []
    ensures Inv(cfg, mirror, id, Next(cfg, id, s, Receive))
  {
    hide SessionRun.Inv, Picture, EventsOf, Rank, Snapshots;
    var next := Next(cfg, id, s, Receive);
    var m := s.wire[0];
    InvIsGrown(cfg, mirror, id, s);
    assert next.seen == Position(s.seen, m);
    assert Snapshots(mirror, next) by {
      assert forall i :: 0 <= i < |next.wire| ==> next.wire[i] == s.wire[i + 1];
      NextSnapshots(mirror, s, next);
    }
    if next.seen.Some? {
      PictureAfter(mirror, id, s, next, m);
    }
  }

  lemma NextSnapshots<S, E, F, V>(mirror: Mirror<S, E, V>, s: System<S, E, F>, next: System<S, E, F>)
    requires Snapshots(mirror, s) && s.wire != [] && next.wire == s.wire[1..] && next.world == s.world
    ensures Snapshots(mirror, next)
  {
    hide EventsOf, Rank;
  }

  /** Handing one message to the consumer moves the picture one message further. */
  lemma PictureAfter<S, E, F, V>(
    mirror: Mirror<S, E, V>, id: SessionId, s: System<S, E, F>, next: System<S, E, F>, m: Message<S, E>)
    requires s.seen.Some? ==> Picture(mirror, id, s, s.seen.value)
    requires s.wire != [] && m == s.wire[0] && Snapshots(mirror, s) && Follows(id, Log(s), Top(s), s.seen, m)
    requires Ascending(Log(s), Top(s))
    requires next.world == s.world && next.seen == Position(s.seen, m) && next.seen.Some?
    requires next.sink == if m.Event? || m.Snapshot? then s.sink + [m] else s.sink
    ensures Picture(mirror, id, next, next.seen.value)
  {
    hide EventsOf, Rank, Ascending, Shown, Since, LastSnapshot;
    if m.Event? {
      PictureAfterEvent(mirror, id, s, next, m);
    } else {
      SinkSnoc(mirror, s.sink, m);
      if m.Snapshot? {
        assert Log(s)[Rank(Log(s), m.sequence)..Rank(Log(s), m.sequence)] == [];
      }
    }
  }

  lemma PictureAfterEvent<S, E, F, V>(
    mirror: Mirror<S, E, V>, id: SessionId, s: System<S, E, F>, next: System<S, E, F>, m: Message<S, E>)
    requires s.seen.Some? && Picture(mirror, id, s, s.seen.value)
    requires m.Event? && Follows(id, Log(s), Top(s), s.seen, m) && Ascending(Log(s), Top(s))
    requires next.world == s.world && next.seen == Some(m.sequence) && next.sink == s.sink + [m]
    ensures Picture(mirror, id, next, m.sequence)
  {
    hide EventsOf, Rank, Ascending, Shown, Since, LastSnapshot, Fold, EventMessages, Plain;
    var log := Log(s);
    SinkSnoc(mirror, s.sink, m);
    var k, base := Rank(log, s.seen.value), Rank(log, LastSnapshot(s.sink).value);
    assert Rank(log, m.sequence) == k + 1 && s.seen.value < m.sequence by {
      RankOf(log, Top(s), k);
    }
    OneMoreMessage<S, E>(id, log, base, k);
    OneFewerEvent(mirror.apply, Shown(mirror, s.sink).value, log, k);
  }

  lemma OneMoreMessage<S, E>(id: SessionId, log: seq<Sequenced<E>>, base: nat, k: nat)
    requires base <= k < |log|
    ensures EventMessages<S, E>(id, log[base..k + 1])
            == EventMessages(id, log[base..k]) + [Event(id, log[k].sequence, log[k].event)]
  {
    assert log[base..k + 1] == log[base..k] + [log[k]];
  }

  lemma OneFewerEvent<V, E>(apply: (V, E) -> V, v: V, log: seq<Sequenced<E>>, k: nat)
    requires k < |log|
    ensures Fold(apply, v, Plain(log[k..])) == Fold(apply, apply(v, log[k].event), Plain(log[k + 1..]))
  {
    assert Plain(log[k..])[1..] == Plain(log[k + 1..]);
  }

  lemma MoveKeeps<S, E, F, V>(
    cfg: Config<S, E>, mirror: Mirror<S, E, V>, id: SessionId, s: System<S, E, F>, move: Move<S, E, F>)
    requires Inv(cfg, mirror, id, s) && Allowed(cfg, mirror, s, move)
    ensures Inv(cfg, mirror, id, Next(cfg, id, s, move))
  {
    match move
    case Leader(step, fit) => LeaderKeeps(cfg, mirror, id, s, step, fit);
    case Answer(request, name, lease, fit) => AnswerKeeps(cfg, mirror, id, s, request, name, lease, fit);
    case Receive =>
      if s.wire != [] {
        ReceiveKeeps(cfg, mirror, id, s);
      }
    case Reconnect => ReconnectKeeps(cfg, mirror, id, s);
    case Hangup => ReconnectKeeps(cfg, mirror, id, s);
  }

  lemma ReconnectKeeps<S, E, F, V>(cfg: Config<S, E>, mirror: Mirror<S, E, V>, id: SessionId, s: System<S, E, F>)
    requires Inv(cfg, mirror, id, s)
    ensures Inv(cfg, mirror, id, Next(cfg, id, s, Reconnect)) && Inv(cfg, mirror, id, Next(cfg, id, s, Hangup))
  {
    hide SessionRun.Inv, EventsOf, Rank, Shown, Since, LastSnapshot;
  }

  lemma {:induction false} RunInv<S, E, F, V>(
    cfg: Config<S, E>, mirror: Mirror<S, E, V>, id: SessionId, app: S,
    systems: seq<System<S, E, F>>, moves: seq<Move<S, E, F>>, i: nat)
    requires IsRun(cfg, mirror, id, app, systems, moves) && i < |systems|
    ensures Inv(cfg, mirror, id, systems[i])
  {
    hide Inv, Next, Allowed;
    if i == 0 {
      InitialInv<S, E, F, V>(cfg, mirror, id, app);
    } else {
      RunInv(cfg, mirror, id, app, systems, moves, i - 1);
      MoveKeeps(cfg, mirror, id, systems[i - 1], moves[i - 1]);
    }
  }

  lemma InitialInv<S, E, F, V>(cfg: Config<S, E>, mirror: Mirror<S, E, V>, id: SessionId, app: S)
    requires cfg.window >= 1
    ensures Inv<S, E, F, V>(cfg, mirror, id, Initial(app))
  {
    CreatedInv<S, E, F>(cfg, app);
  }

  // ----- theorems over every run -----

  /** The consumer misses and repeats nothing: after its latest snapshot it was given exactly
      the events the leader ever recorded above that snapshot and up to the cursor, in
      strictly increasing order. */
  lemma DeliveredExactly<S, E, F, V>(
    cfg: Config<S, E>, mirror: Mirror<S, E, V>, id: SessionId, app: S,
    systems: seq<System<S, E, F>>, moves: seq<Move<S, E, F>>, i: nat)
    requires IsRun(cfg, mirror, id, app, systems, moves) && i < |systems| && systems[i].cursor.Some?
    ensures LastSnapshot(systems[i].sink).Some?
    ensures var base, since := LastSnapshot(systems[i].sink).value, Since(systems[i].sink);
            && (forall a :: 0 <= a < |since| ==> since[a].Event? && since[a].session == id)
            && (forall a, b :: 0 <= a < b < |since| ==> since[a].sequence < since[b].sequence)
            && (forall e: Sequenced<E> :: Event(id, e.sequence, e.event) in since
                            <==> e in Log(systems[i]) && base < e.sequence <= systems[i].cursor.value)
  {
    hide IsRun, Shown, LastSnapshot, Since, EventsOf, SessionRun.Inv, Flows, Snapshots;
    RunInv(cfg, mirror, id, app, systems, moves, i);
    InvIsGrown(cfg, mirror, id, systems[i]);
    var log, base := Log(systems[i]), LastSnapshot(systems[i].sink).value;
    ExactlyBetween(id, log, Top(systems[i]), base, systems[i].cursor.value, Since(systems[i].sink));
  }

  /** At every attachment of a run: a client whose cursor the bounded history reaches is sent
      exactly the recorded events above it, and never the whole state; any other gets one
      snapshot. */
  lemma ReachedIsReplayed<S, E, F, V>(
    cfg: Config<S, E>, mirror: Mirror<S, E, V>, id: SessionId, app: S,
    systems: seq<System<S, E, F>>, moves: seq<Move<S, E, F>>, i: nat)
    requires IsRun(cfg, mirror, id, app, systems, moves) && i < |moves|
    requires moves[i].Answer? && systems[i].asked.Some? && moves[i].fit > Max(1, |Log(systems[i])|)
    ensures var log, after := Log(systems[i]), systems[i].asked.value;
            && after == systems[i].cursor && systems[i + 1].subscribed
            && systems[i + 1].wire
               == (if Reached(log, cfg.history, after) then EventMessages(id, log[Rank(log, after.value)..])
                   else [Snapshot(id, Top(systems[i]), systems[i].world.live.hosted.app)])
                  + [Response(moves[i].request, AttachedTo(id, moves[i].name, Top(systems[i]), moves[i].lease))]
  {
    hide SessionRun.Inv, Picture, Flows, Snapshots, EventsOf, Rank, CatchUp, LastN, Reached;
    RunInv(cfg, mirror, id, app, systems, moves, i);
    InvIsGrown(cfg, mirror, id, systems[i]);
    var log, live := Log(systems[i]), systems[i].world.live;
    ReplayedExactly(id, log, Top(systems[i]), cfg.history, live.hosted.app, systems[i].asked.value);
  }

  lemma ExactlyBetween<S, E>(
    id: SessionId, log: seq<Sequenced<E>>, top: nat, base: nat, cursor: nat, since: seq<Message<S, E>>)
    requires Ascending(log, top) && base <= cursor && Rank(log, base) <= Rank(log, cursor)
    requires since == EventMessages(id, log[Rank(log, base)..Rank(log, cursor)])
    ensures forall a :: 0 <= a < |since| ==> since[a].Event? && since[a].session == id
    ensures forall a, b :: 0 <= a < b < |since| ==> since[a].sequence < since[b].sequence
    ensures forall e: Sequenced<E> ::
              Event(id, e.sequence, e.event) in since <==> e in log && base < e.sequence <= cursor
  {
    hide Rank;
    var lo, hi := Rank(log, base), Rank(log, cursor);
    var between := log[lo..hi];
    SliceAscends(log, top, lo, hi);
    hide Ascending;
    forall e: Sequenced<E>
      ensures Event(id, e.sequence, e.event) in since <==> e in log && base < e.sequence <= cursor
    {
      MessageOf<S, E>(id, between, e);
      InSlice(log, top, base, cursor, e);
    }
  }

  lemma AscendingAt<E>(log: seq<Sequenced<E>>, top: nat, i: nat, j: nat)
    requires Ascending(log, top) && i <= j < |log|
    ensures log[i].sequence <= log[j].sequence
  {
  }

  lemma SliceAscends<E>(log: seq<Sequenced<E>>, top: nat, lo: nat, hi: nat)
    requires Ascending(log, top) && lo <= hi <= |log|
    ensures forall a, b :: 0 <= a < b < hi - lo ==> log[lo..hi][a].sequence < log[lo..hi][b].sequence
  {
  }

  lemma MessageOf<S, E>(id: SessionId, events: seq<Sequenced<E>>, e: Sequenced<E>)
    ensures Event(id, e.sequence, e.event) in EventMessages<S, E>(id, events) <==> e in events
  {
    if Event(id, e.sequence, e.event) in EventMessages<S, E>(id, events) {
      var a :| 0 <= a < |events| && EventMessages<S, E>(id, events)[a] == Event(id, e.sequence, e.event);
      assert events[a] == e;
    }
    if e in events {
      var a :| 0 <= a < |events| && events[a] == e;
      assert EventMessages<S, E>(id, events)[a] == Event(id, e.sequence, e.event);
    }
  }

  lemma InSlice<E>(log: seq<Sequenced<E>>, top: nat, base: nat, cursor: nat, e: Sequenced<E>)
    requires Ascending(log, top) && base <= cursor && Rank(log, base) <= Rank(log, cursor)
    ensures e in log[Rank(log, base)..Rank(log, cursor)] <==> e in log && base < e.sequence <= cursor
  {
    hide Rank, Ascending;
    var lo, hi := Rank(log, base), Rank(log, cursor);
    if e in log[lo..hi] {
      var a :| 0 <= a < hi - lo && log[lo..hi][a] == e;
      assert log[lo + a] == e;
      AscendingAt(log, top, lo + a, hi - 1);
    }
    if e in log && base < e.sequence <= cursor {
      var k :| 0 <= k < |log| && log[k] == e;
      BetweenRanks(log, top, base, cursor, k);
      assert log[lo..hi][k - lo] == e;
    }
  }

  lemma BetweenRanks<E>(log: seq<Sequenced<E>>, top: nat, base: nat, cursor: nat, k: nat)
    requires Ascending(log, top) && k < |log| && base < log[k].sequence <= cursor
    ensures Rank(log, base) <= k < Rank(log, cursor)
  {
    hide Rank;
  }

  /** A client that is attached and has read all it was sent shows exactly what the session
      shows, however it got there. */
  lemma CaughtUpClientAgrees<S, E, F, V>(
    cfg: Config<S, E>, mirror: Mirror<S, E, V>, id: SessionId, app: S,
    systems: seq<System<S, E, F>>, moves: seq<Move<S, E, F>>, i: nat)
    requires IsRun(cfg, mirror, id, app, systems, moves) && i < |systems|
    requires systems[i].subscribed && systems[i].wire == []
    ensures Shown(mirror, systems[i].sink) == Some(mirror.view(systems[i].world.live.hosted.app))
  {
    hide IsRun, Shown, LastSnapshot, Since, EventsOf, SessionRun.Inv;
    RunInv(cfg, mirror, id, app, systems, moves, i);
    assert Plain(Log(systems[i])[|Log(systems[i])|..]) == [];
  }

  // ----- the abstract client is the client library -----

  ghost predicate CursorIs(list: seq<Clients.Attachment>, id: SessionId, cursor: Option<nat>) {
    && (Clients.Has(list, id) <==> cursor.Some?)
    && forall i :: 0 <= i < |list| && list[i].session == id ==> cursor == Some(list[i].cursor)
  }

  /** Message by message, the cursor of this system is the one the client library keeps while
      it attaches again. */
  lemma AbsorbIsReattach<S, E, F>(
    s: System<S, E, F>, b: Clients.Book, instance: ClientId, exchange: RequestId, previous: Clients.Attachment,
    m: Message<S, E>)
    requires CursorIs(b.attachments, previous.session, s.cursor) && s.cursor.Some? && s.resume == Some(previous.cursor)
    requires m.Event? || m.Snapshot? ==> m.session == previous.session
    requires m.Response? ==> m.request == exchange && m.reply.AttachedTo? && m.reply.session == previous.session
    ensures CursorIs(Clients.Handled(b, instance, exchange, previous, m).attachments, previous.session,
                     Absorb(s, m).cursor)
  {
    var after := Clients.Handled(b, instance, exchange, previous, m).attachments;
    var i :| 0 <= i < |b.attachments| && b.attachments[i].session == previous.session;
    assert after[i].session == previous.session;
  }

  /** The first attachment takes its cursor from the leader's answer. */
  lemma AbsorbIsAttach<S, E, F>(
    s: System<S, E, F>, b: Clients.Book, instance: ClientId, request: Clients.Request, id: SessionId, n: RequestId,
    reply: Reply)
    requires s.resume.None? && request.Attach? && reply.AttachedTo? && reply.session == id
    requires Clients.Distinct(b.attachments)
    ensures CursorIs(Clients.Observe(b, instance, request, reply).attachments, id, Absorb(s, Response(n, reply)).cursor)
  {
    var a := Clients.Attachment(id, reply.name, request.mode, request.force, reply.lease, reply.sequence);
    Clients.PutKeeps(b.attachments, a);
    if Clients.Has(b.attachments, id) {
      var i :| 0 <= i < |b.attachments| && b.attachments[i].session == id;
      assert Clients.Put(b.attachments, a)[i] == a;
    } else {
      assert forall i :: 0 <= i < |b.attachments| ==> b.attachments[i].session != id;
    }
  }
}
