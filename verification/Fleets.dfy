/** All sessions of one leader together, and the bounded scheduler that runs their effects. */
module Fleets {
  import opened Protocol
  import opened Sequences
  import opened Ledgers
  import opened EffectQueue
  import opened SessionLog
  import opened Recovery
  import opened EffectHistory
  import opened RequestHistory
  import opened SessionRun

  /** An execution handed to the application. */
  datatype Execution = Execution(session: SessionId, effect: EffectId, attempt: nat)

  datatype Fleet<S, E, F> = Fleet(
    lives: map<SessionId, Live<S, E, F>>,
    disks: map<SessionId, Disk<S, E, F>>,
    ready: seq<SessionId>,
    started: seq<Execution>)

  // ----- operations -----

  function Transitioned<S, E, F>(
    cfg: Config<S, E>, fleet: Fleet<S, E, F>, s: SessionId, request: Option<RequestId>,
    completed: Option<EffectId>, reaction: Reaction<S, E, F>, now: nat): Fleet<S, E, F>
    requires s in fleet.lives && s in fleet.disks
  {
    var live, disk := fleet.lives[s], fleet.disks[s];
    fleet.(lives := fleet.lives[s := AfterTransition(cfg, live, request, completed, reaction, now)],
           disks := fleet.disks[s := disk.(journal :=
                      disk.journal + [TransitionRecord(cfg, live, request, completed, reaction, now)])])
  }

  predicate IsReady<S, E, F>(live: Live<S, E, F>) {
    live.hosted.active.None? && live.hosted.pending != []
  }

  /** Queues a session that is idle with pending effects, unless it is queued already. */
  function Schedule<S, E, F>(fleet: Fleet<S, E, F>, s: SessionId): Fleet<S, E, F> {
    if s in fleet.lives && IsReady(fleet.lives[s]) && s !in fleet.ready
    then fleet.(ready := fleet.ready + [s])
    else fleet
  }

  function StartOne<S, E, F>(fleet: Fleet<S, E, F>, s: SessionId): Fleet<S, E, F>
    requires s in fleet.lives ==> s in fleet.disks
  {
    if s !in fleet.lives || !IsReady(fleet.lives[s]) then fleet
    else
      var live, disk := fleet.lives[s], fleet.disks[s];
      var front := live.hosted.pending[0];
      fleet.(lives := fleet.lives[s := AfterDispatch(live)],
             disks := fleet.disks[s := disk.(journal := JournalAfterDispatch(live, disk.journal))],
             started := if OutcomeUnknown(front) then fleet.started
                        else fleet.started + [Execution(s, front.id, front.attempts + 1)])
  }

  ghost function ActiveSessions<S, E, F>(fleet: Fleet<S, E, F>): set<SessionId> {
    set s | s in fleet.lives && fleet.lives[s].hosted.active.Some?
  }

  /** Starts queued sessions in order until the limit is reached or the queue is empty. */
  ghost function Dispatched<S, E, F>(fleet: Fleet<S, E, F>, limit: nat): (after: Fleet<S, E, F>)
    requires fleet.lives.Keys == fleet.disks.Keys
    ensures after.lives.Keys == fleet.lives.Keys == after.disks.Keys
    decreases |fleet.ready|
  {
    if fleet.ready == [] || |ActiveSessions(fleet)| >= limit then fleet
    else Dispatched(StartOne(fleet.(ready := fleet.ready[1..]), fleet.ready[0]), limit)
  }

  lemma DispatchedStep<S, E, F>(fleet: Fleet<S, E, F>, limit: nat)
    requires fleet.lives.Keys == fleet.disks.Keys
    ensures Dispatched(fleet, limit) ==
            if fleet.ready == [] || |ActiveSessions(fleet)| >= limit then fleet
            else Dispatched(StartOne(fleet.(ready := fleet.ready[1..]), fleet.ready[0]), limit)
  {
  }

  // ----- invariants -----

  /** The executions of one session, in order. */
  function RunsOf(started: seq<Execution>, s: SessionId): (runs: seq<Execution>)
    ensures forall x :: x in runs <==> x in started && x.session == s
  {
    if started == [] then []
    else
      var last := started[|started| - 1];
      RunsOf(started[..|started| - 1], s) + (if last.session == s then [last] else [])
  }

  /** Each execution has an attempt record of its own, at these increasing journal positions. */
  ghost predicate Accounts<E, F>(journal: Journal<E, F>, runs: seq<Execution>, starts: seq<nat>) {
    && StartsInv(starts, journal) && |starts| == |runs|
    && forall i :: 0 <= i < |runs| ==> journal[starts[i]].event == Attempted(runs[i].effect, runs[i].attempt)
  }

  ghost predicate Accounted<E, F>(journal: Journal<E, F>, runs: seq<Execution>) {
    exists starts: seq<nat> :: Accounts(journal, runs, starts)
  }

  /** Whatever was handed to the application is accounted for in the session's journal. */
  ghost predicate StartedInv<S, E, F>(fleet: Fleet<S, E, F>) {
    forall s :: s in fleet.disks ==> Accounted(fleet.disks[s].journal, RunsOf(fleet.started, s))
  }

  ghost predicate SessionsInv<S, E, F>(cfg: Config<S, E>, fleet: Fleet<S, E, F>) {
    && fleet.lives.Keys == fleet.disks.Keys
    && (forall s :: s in fleet.lives ==> SessionInv(cfg, fleet.lives[s], fleet.disks[s]))
    && StartedInv(fleet)
  }

  /** The queue has no repeats and holds exactly the sessions that are idle with pending effects. */
  ghost predicate Waits<S, E, F>(live: Live<S, E, F>) {
    live.hosted.pending != [] && live.hosted.active == None
  }

  ghost predicate QueueInv<S, E, F>(fleet: Fleet<S, E, F>) {
    && NoDup(fleet.ready)
    && forall s :: s in fleet.ready <==> s in fleet.lives && Waits(fleet.lives[s])
  }

  /** No slot is free while a session waits. */
  ghost predicate Conserving<S, E, F>(limit: nat, fleet: Fleet<S, E, F>) {
    fleet.ready == [] || |ActiveSessions(fleet)| == limit
  }

  ghost predicate FleetInv<S, E, F>(cfg: Config<S, E>, limit: nat, fleet: Fleet<S, E, F>) {
    && SessionsInv(cfg, fleet)
    && QueueInv(fleet)
    && |ActiveSessions(fleet)| <= limit
  }

  /** As the queue stands while session `s` has just changed and is about to be queued. */
  ghost predicate QueueInvExcept<S, E, F>(fleet: Fleet<S, E, F>, s: SessionId) {
    && NoDup(fleet.ready)
    && (forall t :: t in fleet.ready ==> t in fleet.lives && Waits(fleet.lives[t]))
    && (forall t :: t in fleet.lives && t != s && Waits(fleet.lives[t]) ==> t in fleet.ready)
  }

  // ----- executions are accounted for -----

  lemma RunsOfSnoc(started: seq<Execution>, x: Execution, s: SessionId)
    ensures RunsOf(started + [x], s) == RunsOf(started, s) + if x.session == s then [x] else []
  {
    assert (started + [x])[..|started|] == started;
  }

  lemma AccountedLater<E, F>(journal: Journal<E, F>, later: Journal<E, F>, runs: seq<Execution>)
    requires Accounted(journal, runs) && journal <= later
    ensures Accounted(later, runs)
  {
    var starts: seq<nat> :| Accounts(journal, runs, starts);
    assert Accounts(later, runs, starts);
  }

  /** Journals only grow and nothing more is started. */
  lemma StillStarted<S, E, F>(fleet: Fleet<S, E, F>, after: Fleet<S, E, F>)
    requires StartedInv(fleet) && after.started == fleet.started && after.disks.Keys <= fleet.disks.Keys
    requires forall s :: s in after.disks ==> fleet.disks[s].journal <= after.disks[s].journal
    ensures StartedInv(after)
  {
    hide Accounted;
    forall s | s in after.disks ensures Accounted(after.disks[s].journal, RunsOf(after.started, s)) {
      AccountedLater(fleet.disks[s].journal, after.disks[s].journal, RunsOf(fleet.started, s));
    }
  }

  lemma AccountedOneMore<E, F>(journal: Journal<E, F>, record: Record<E, F>, runs: seq<Execution>, x: Execution)
    requires Accounted(journal, runs) && record.event == Attempted(x.effect, x.attempt)
    ensures Accounted(journal + [record], runs + [x])
  {
    var starts: seq<nat> :| Accounts(journal, runs, starts);
    assert Accounts(journal + [record], runs + [x], starts + [|journal|]);
  }

  lemma StartOneStarts<S, E, F>(fleet: Fleet<S, E, F>, s: SessionId)
    requires StartedInv(fleet) && (s in fleet.lives ==> s in fleet.disks)
    ensures StartedInv(StartOne(fleet, s))
    ensures StartedInv(StartOne(fleet, s).(started := fleet.started))
  {
    hide Accounted, AfterDispatch, RunsOf;
    var after := StartOne(fleet, s);
    StillStarted(fleet, after.(started := fleet.started));
    if after.started != fleet.started {
      var x := after.started[|fleet.started|];
      forall t | t in after.disks ensures Accounted(after.disks[t].journal, RunsOf(after.started, t)) {
        RunsOfSnoc(fleet.started, x, t);
        if t == s {
          AccountedOneMore(fleet.disks[s].journal, AttemptRecord(fleet.lives[s]), RunsOf(fleet.started, s), x);
        } else {
          assert RunsOf(fleet.started, t) + [] == RunsOf(fleet.started, t);
        }
      }
    }
  }

  lemma {:induction false} PositionOf(started: seq<Execution>, s: SessionId, a: nat, b: nat) returns (i: nat, j: nat)
    requires a < b < |started| && started[a].session == s == started[b].session
    ensures i < j < |RunsOf(started, s)| && RunsOf(started, s)[i] == started[a] && RunsOf(started, s)[j] == started[b]
  {
    var front := started[..|started| - 1];
    if b < |front| {
      i, j := PositionOf(front, s, a, b);
    } else {
      assert front[a] in RunsOf(front, s);
      i :| 0 <= i < |RunsOf(front, s)| && RunsOf(front, s)[i] == front[a];
      j := |RunsOf(front, s)|;
    }
  }

  /** Over all leaders of a session: two executions of one effect carry increasing attempt
      numbers, and only an at-least-once effect has two. */
  lemma ExecutionsAreFenced<S, E, F>(cfg: Config<S, E>, fleet: Fleet<S, E, F>, s: SessionId, a: nat, b: nat, e: nat)
    requires SessionsInv(cfg, fleet) && s in fleet.disks && a < b < |fleet.started|
    requires fleet.started[a].session == s == fleet.started[b].session
    requires fleet.started[a].effect == fleet.started[b].effect
    requires e < |Enqueued(fleet.disks[s].journal)| && Enqueued(fleet.disks[s].journal)[e].id == fleet.started[a].effect
    ensures fleet.started[a].attempt < fleet.started[b].attempt
    ensures Enqueued(fleet.disks[s].journal)[e].delivery == AtLeastOnce
  {
    var journal := fleet.disks[s].journal;
    assert WellFormed(journal) by {
      assert SessionInv(cfg, fleet.lives[s], fleet.disks[s]);
    }
    assert Accounted(journal, RunsOf(fleet.started, s));
    var starts: seq<nat> :| Accounts(journal, RunsOf(fleet.started, s), starts);
    var i, j := PositionOf(fleet.started, s, a, b);
    AttemptsIncrease(journal, starts[i], starts[j]);
    AttemptedTwice(journal, starts[i], starts[j], e);
  }

  // ----- preservation -----

  lemma TransitionedKeeps<S, E, F>(
    cfg: Config<S, E>, limit: nat, fleet: Fleet<S, E, F>, s: SessionId, request: Option<RequestId>,
    completed: Option<EffectId>, reaction: Reaction<S, E, F>, now: nat)
    requires FleetInv(cfg, limit, fleet) && s in fleet.lives
    requires Lawful(cfg, fleet.lives[s].hosted.app, reaction) && NewIds(fleet.disks[s].journal, reaction)
    requires Completes(fleet.lives[s], completed)
    requires request.Some? ==> request.value !in fleet.lives[s].ledger.committed
    ensures var after := Transitioned(cfg, fleet, s, request, completed, reaction, now);
            SessionsInv(cfg, after) && QueueInvExcept(after, s) && |ActiveSessions(after)| <= limit
  {
    hide SessionInv, StartedInv, QueueInv, Transitioned, QueueInvExcept, ActiveSessions, Lawful, NewIds;
    TransitionedSessions(cfg, fleet, s, request, completed, reaction, now);
    TransitionedQueue(cfg, fleet, s, request, completed, reaction, now);
  }

  lemma TransitionedSessions<S, E, F>(
    cfg: Config<S, E>, fleet: Fleet<S, E, F>, s: SessionId, request: Option<RequestId>,
    completed: Option<EffectId>, reaction: Reaction<S, E, F>, now: nat)
    requires SessionsInv(cfg, fleet) && s in fleet.lives
    requires Lawful(cfg, fleet.lives[s].hosted.app, reaction) && NewIds(fleet.disks[s].journal, reaction)
    requires Completes(fleet.lives[s], completed)
    requires request.Some? ==> request.value !in fleet.lives[s].ledger.committed
    ensures SessionsInv(cfg, Transitioned(cfg, fleet, s, request, completed, reaction, now))
  {
    hide SessionInv, StartedInv, AfterTransition, TransitionRecord;
    StillStarted(fleet, Transitioned(cfg, fleet, s, request, completed, reaction, now));
    TransitionInv(cfg, fleet.lives[s], fleet.disks[s], request, completed, reaction, now);
  }

  lemma TransitionedQueue<S, E, F>(
    cfg: Config<S, E>, fleet: Fleet<S, E, F>, s: SessionId, request: Option<RequestId>,
    completed: Option<EffectId>, reaction: Reaction<S, E, F>, now: nat)
    requires QueueInv(fleet) && s in fleet.lives && s in fleet.disks && Completes(fleet.lives[s], completed)
    ensures var after := Transitioned(cfg, fleet, s, request, completed, reaction, now);
            QueueInvExcept(after, s) && |ActiveSessions(after)| <= |ActiveSessions(fleet)|
  {
    hide AfterTransition, TransitionRecord;
    var after := Transitioned(cfg, fleet, s, request, completed, reaction, now);
    TransitionRetires(cfg, fleet.lives[s], request, completed, reaction, now);
    assert ActiveSessions(after) <= ActiveSessions(fleet);
    Fewer(ActiveSessions(after), ActiveSessions(fleet));
    if s in fleet.ready {
      assert IsReady(fleet.lives[s]);
    }
  }

  /** A transition starts nothing, and an idle session with pending effects stays one. */
  lemma TransitionRetires<S, E, F>(
    cfg: Config<S, E>, live: Live<S, E, F>, request: Option<RequestId>, completed: Option<EffectId>,
    reaction: Reaction<S, E, F>, now: nat)
    requires Completes(live, completed)
    ensures var after := AfterTransition(cfg, live, request, completed, reaction, now);
            && (after.hosted.active.Some? ==> live.hosted.active.Some?)
            && (IsReady(live) ==> IsReady(after))
  {
  }

  lemma ScheduleKeeps<S, E, F>(fleet: Fleet<S, E, F>, s: SessionId)
    requires QueueInvExcept(fleet, s)
    ensures QueueInv(Schedule(fleet, s))
    ensures ActiveSessions(Schedule(fleet, s)) == ActiveSessions(fleet)
  {
  }

  lemma ScheduleReady<S, E, F>(cfg: Config<S, E>, limit: nat, fleet: Fleet<S, E, F>, s: SessionId)
    requires SessionsInv(cfg, fleet) && QueueInvExcept(fleet, s) && |ActiveSessions(fleet)| <= limit
    ensures FleetInv(cfg, limit, Schedule(fleet, s))
  {
    ScheduleKeeps(fleet, s);
  }

  lemma StartOneKeeps<S, E, F>(cfg: Config<S, E>, limit: nat, fleet: Fleet<S, E, F>)
    requires FleetInv(cfg, limit, fleet) && fleet.ready != [] && |ActiveSessions(fleet)| < limit
    ensures var after := StartOne(fleet.(ready := fleet.ready[1..]), fleet.ready[0]);
            && FleetInv(cfg, limit, after)
            && ActiveSessions(after) == ActiveSessions(fleet) + {fleet.ready[0]}
  {
    hide SessionInv, StartedInv;
    var s := fleet.ready[0];
    var after := StartOne(fleet.(ready := fleet.ready[1..]), s);
    StartOneQueue(fleet);
    StillStarted(fleet, fleet.(ready := fleet.ready[1..]));
    StartOneStarts(fleet.(ready := fleet.ready[1..]), s);
    DispatchInv(cfg, fleet.lives[s], fleet.disks[s]);
    assert ActiveSessions(after) == ActiveSessions(fleet) + {s};
  }

  /** A leader that dies between an attempt record and the start of the execution leaves files
      that account for every execution too. */
  lemma DiesBeforeStarting<S, E, F>(cfg: Config<S, E>, limit: nat, fleet: Fleet<S, E, F>)
    requires FleetInv(cfg, limit, fleet) && fleet.ready != [] && |ActiveSessions(fleet)| < limit
    ensures SessionsInv(cfg, StartOne(fleet.(ready := fleet.ready[1..]), fleet.ready[0]).(started := fleet.started))
  {
    hide SessionInv, StartedInv, ActiveSessions, StartOne;
    StartOneKeeps(cfg, limit, fleet);
    StillStarted(fleet, fleet.(ready := fleet.ready[1..]));
    StartOneStarts(fleet.(ready := fleet.ready[1..]), fleet.ready[0]);
  }

  /** Taking the first session off the queue and starting it leaves the queue exact. */
  lemma StartOneQueue<S, E, F>(fleet: Fleet<S, E, F>)
    requires fleet.lives.Keys == fleet.disks.Keys && QueueInv(fleet) && fleet.ready != []
    ensures fleet.ready[0] in fleet.lives && IsReady(fleet.lives[fleet.ready[0]])
    ensures fleet.ready[0] !in fleet.ready[1..]
    ensures var s, after := fleet.ready[0], StartOne(fleet.(ready := fleet.ready[1..]), fleet.ready[0]);
            && QueueInv(after) && after.ready == fleet.ready[1..]
            && StartedExactly(fleet, after, [s])
  {
    var s := fleet.ready[0];
    var after := StartOne(fleet.(ready := fleet.ready[1..]), s);
    assert s in fleet.ready;
    forall t ensures t in after.ready <==> t in after.lives && IsReady(after.lives[t]) {
      assert t in fleet.ready <==> t == s || t in after.ready;
    }
  }

  /** When the scheduler returns, every invariant holds, and either the limit is reached or
      nothing is waiting. */
  lemma {:induction false} DispatchedKeeps<S, E, F>(cfg: Config<S, E>, limit: nat, fleet: Fleet<S, E, F>)
    requires FleetInv(cfg, limit, fleet)
    ensures FleetInv(cfg, limit, Dispatched(fleet, limit))
    ensures Conserving(limit, Dispatched(fleet, limit))
    decreases |fleet.ready|
  {
    hide SessionInv;
    if fleet.ready != [] && |ActiveSessions(fleet)| < limit {
      StartOneKeeps(cfg, limit, fleet);
      DispatchedKeeps(cfg, limit, StartOne(fleet.(ready := fleet.ready[1..]), fleet.ready[0]));
    }
  }

  /** Exactly these sessions were started, each once; no other session changed. */
  ghost predicate StartedExactly<S, E, F>(fleet: Fleet<S, E, F>, after: Fleet<S, E, F>, chosen: seq<SessionId>) {
    && after.lives.Keys == fleet.lives.Keys == fleet.disks.Keys == after.disks.Keys
    && (forall s :: s in fleet.lives && s in chosen ==>
          && IsReady(fleet.lives[s])
          && after.lives[s] == AfterDispatch(fleet.lives[s])
          && after.disks[s] == fleet.disks[s].(journal := JournalAfterDispatch(fleet.lives[s], fleet.disks[s].journal)))
    && (forall s :: s in fleet.lives && s !in chosen ==>
          after.lives[s] == fleet.lives[s] && after.disks[s] == fleet.disks[s])
  }

  lemma StartedCons<S, E, F>(
    fleet: Fleet<S, E, F>, next: Fleet<S, E, F>, after: Fleet<S, E, F>, s: SessionId, chosen: seq<SessionId>)
    requires StartedExactly(fleet, next, [s]) && StartedExactly(next, after, chosen) && s !in chosen
    ensures StartedExactly(fleet, after, [s] + chosen)
  {
    hide AfterDispatch, JournalAfterDispatch;
    forall t | t in fleet.lives && t in [s] + chosen
      ensures && IsReady(fleet.lives[t]) && after.lives[t] == AfterDispatch(fleet.lives[t])
              && after.disks[t]
                 == fleet.disks[t].(journal := JournalAfterDispatch(fleet.lives[t], fleet.disks[t].journal))
    {
      assert t in [s] || t in chosen;
    }
  }

  /** Nobody is overtaken: the sessions started are a prefix of the queue. */
  lemma {:induction false} DispatchedInOrder<S, E, F>(fleet: Fleet<S, E, F>, limit: nat) returns (k: nat)
    requires fleet.lives.Keys == fleet.disks.Keys && QueueInv(fleet)
    ensures k <= |fleet.ready| && Dispatched(fleet, limit).ready == fleet.ready[k..]
    ensures StartedExactly(fleet, Dispatched(fleet, limit), fleet.ready[..k])
    decreases |fleet.ready|
  {
    hide StartedExactly, QueueInv, StartOne, ActiveSessions;
    k := 0;
    StartedNone(fleet);
    if fleet.ready != [] && |ActiveSessions(fleet)| < limit {
      var s := fleet.ready[0];
      var next := StartOne(fleet.(ready := fleet.ready[1..]), s);
      StartOneQueue(fleet);
      k := DispatchedInOrder(next, limit);
      StartedCons(fleet, next, Dispatched(next, limit), s, next.ready[..k]);
      PrefixCons(fleet.ready, k);
      k := k + 1;
    }
  }

  lemma PrefixCons<T>(s: seq<T>, n: nat)
    requires s != [] && n < |s|
    ensures s[..n + 1] == [s[0]] + s[1..][..n] && s[n + 1..] == s[1..][n..]
  {
  }

  lemma StartedNone<S, E, F>(fleet: Fleet<S, E, F>)
    requires fleet.lives.Keys == fleet.disks.Keys
    ensures StartedExactly(fleet, fleet, fleet.ready[..0]) && fleet.ready[0..] == fleet.ready
  {
  }

  /** One transition with the scheduling it triggers. */
  ghost function Settled<S, E, F>(
    cfg: Config<S, E>, limit: nat, fleet: Fleet<S, E, F>, s: SessionId, request: Option<RequestId>,
    completed: Option<EffectId>, reaction: Reaction<S, E, F>, now: nat): Fleet<S, E, F>
    requires s in fleet.lives && fleet.lives.Keys == fleet.disks.Keys
  {
    Dispatched(Schedule(Transitioned(cfg, fleet, s, request, completed, reaction, now), s), limit)
  }

  lemma SettledKeeps<S, E, F>(
    cfg: Config<S, E>, limit: nat, fleet: Fleet<S, E, F>, s: SessionId, request: Option<RequestId>,
    completed: Option<EffectId>, reaction: Reaction<S, E, F>, now: nat)
    requires FleetInv(cfg, limit, fleet) && s in fleet.lives
    requires Lawful(cfg, fleet.lives[s].hosted.app, reaction) && NewIds(fleet.disks[s].journal, reaction)
    requires Completes(fleet.lives[s], completed)
    requires request.Some? ==> request.value !in fleet.lives[s].ledger.committed
    ensures FleetInv(cfg, limit, Settled(cfg, limit, fleet, s, request, completed, reaction, now))
    ensures Conserving(limit, Settled(cfg, limit, fleet, s, request, completed, reaction, now))
  {
    hide SessionInv;
    var changed := Transitioned(cfg, fleet, s, request, completed, reaction, now);
    TransitionedKeeps(cfg, limit, fleet, s, request, completed, reaction, now);
    ScheduleReady(cfg, limit, changed, s);
    DispatchedKeeps(cfg, limit, Schedule(changed, s));
  }

  /** The session a transition leaves waiting goes behind all that wait already, and the slots
      go to the front: nobody is ever overtaken. */
  lemma NobodyIsOvertaken<S, E, F>(
    cfg: Config<S, E>, limit: nat, fleet: Fleet<S, E, F>, s: SessionId, request: Option<RequestId>,
    completed: Option<EffectId>, reaction: Reaction<S, E, F>, now: nat) returns (k: nat)
    requires FleetInv(cfg, limit, fleet) && s in fleet.lives
    requires Lawful(cfg, fleet.lives[s].hosted.app, reaction) && NewIds(fleet.disks[s].journal, reaction)
    requires Completes(fleet.lives[s], completed)
    requires request.Some? ==> request.value !in fleet.lives[s].ledger.committed
    ensures var live := AfterTransition(cfg, fleet.lives[s], request, completed, reaction, now);
            var waiting := fleet.ready + if Waits(live) && s !in fleet.ready then [s] else [];
            && k <= |waiting|
            && Settled(cfg, limit, fleet, s, request, completed, reaction, now).ready == waiting[k..]
  {
    hide SessionInv, StartedExactly, AfterTransition, TransitionRecord, Dispatched, QueueInv, QueueInvExcept,
         ActiveSessions, Lawful, NewIds, Completes, StartedInv;
    var changed := Transitioned(cfg, fleet, s, request, completed, reaction, now);
    TransitionedKeeps(cfg, limit, fleet, s, request, completed, reaction, now);
    ScheduleReady(cfg, limit, changed, s);
    assert changed.lives[s] == AfterTransition(cfg, fleet.lives[s], request, completed, reaction, now);
    k := DispatchedInOrder(Schedule(changed, s), limit);
  }

  /** Record `at` of a journal is this transition. */
  ghost predicate Recorded<S, E, F>(
    journal: Journal<E, F>, at: nat, request: Option<RequestId>, completed: Option<EffectId>,
    reaction: Reaction<S, E, F>, start: nat)
  {
    && at < |journal| && journal[at].event.Transition?
    && journal[at].event.request == request && journal[at].event.completed == completed
    && journal[at].event.events == Numbered(reaction.events, start)
    && DecodeAll(journal[at].event.effects) == Canon(reaction.effects)
  }

  /** Dispatching only moves effects along: states, ledgers and records stay. */
  lemma {:induction false} DispatchedGrows<S, E, F>(fleet: Fleet<S, E, F>, limit: nat, s: SessionId)
    requires fleet.lives.Keys == fleet.disks.Keys && s in fleet.lives
    ensures var after := Dispatched(fleet, limit);
            && s in after.lives && s in after.disks
            && after.lives[s].hosted.app == fleet.lives[s].hosted.app
            && after.lives[s].ledger == fleet.lives[s].ledger
            && fleet.disks[s].journal <= after.disks[s].journal
    decreases |fleet.ready|
  {
    hide ActiveSessions;
    if fleet.ready != [] && |ActiveSessions(fleet)| < limit {
      DispatchedGrows(StartOne(fleet.(ready := fleet.ready[1..]), fleet.ready[0]), limit, s);
    }
  }

  /** A settled transition is in the journal, and the session is in the state the handler left. */
  lemma SettledRecords<S, E, F>(
    cfg: Config<S, E>, limit: nat, fleet: Fleet<S, E, F>, s: SessionId, request: Option<RequestId>,
    completed: Option<EffectId>, reaction: Reaction<S, E, F>, now: nat)
    requires s in fleet.lives && fleet.lives.Keys == fleet.disks.Keys
    ensures var after := Settled(cfg, limit, fleet, s, request, completed, reaction, now);
            var before := fleet.disks[s].journal;
            && s in after.lives && s in after.disks
            && after.lives[s].hosted.app == reaction.after
            && before <= after.disks[s].journal
            && Recorded(after.disks[s].journal, |before|, request, completed, reaction, fleet.lives[s].ledger.sequence)
  {
    hide Dispatched, Allocate, RetainIf, LastN, StampIf;
    var changed := Schedule(Transitioned(cfg, fleet, s, request, completed, reaction, now), s);
    var record := changed.disks[s].journal[|fleet.disks[s].journal|];
    DispatchedGrows(changed, limit, s);
    assert Recorded(changed.disks[s].journal, |fleet.disks[s].journal|, request, completed, reaction,
                    fleet.lives[s].ledger.sequence);
  }

  /** What an application handler promises about the state and the journal it finds. */
  ghost predicate Handles<S, E, F>(
    cfg: Config<S, E>, fleet: Fleet<S, E, F>, s: SessionId, reaction: Reaction<S, E, F>) {
    s in fleet.lives && s in fleet.disks ==>
      Lawful(cfg, fleet.lives[s].hosted.app, reaction) && NewIds(fleet.disks[s].journal, reaction)
  }

  /** A poll that produced nothing leaves no trace. */
  ghost function Polled<S, E, F>(
    cfg: Config<S, E>, limit: nat, fleet: Fleet<S, E, F>, s: SessionId, reaction: Reaction<S, E, F>,
    now: nat): (after: Fleet<S, E, F>)
    requires fleet.lives.Keys == fleet.disks.Keys
    ensures after.lives.Keys == fleet.lives.Keys == after.disks.Keys
  {
    if s !in fleet.lives || (reaction.events == [] && reaction.effects == []) then fleet
    else Settled(cfg, limit, fleet, s, None, None, reaction, now)
  }

  /** A report about effect `effect`: it counts only while that effect is the one running. */
  ghost function Finished<S, E, F>(
    cfg: Config<S, E>, limit: nat, fleet: Fleet<S, E, F>, s: SessionId, effect: EffectId,
    reaction: Reaction<S, E, F>, now: nat): (after: Fleet<S, E, F>)
    requires fleet.lives.Keys == fleet.disks.Keys
    ensures after.lives.Keys == fleet.lives.Keys == after.disks.Keys
  {
    if s in fleet.lives && IsRunning(fleet.lives[s], effect)
    then Settled(cfg, limit, fleet, s, None, Some(effect), reaction, now)
    else fleet
  }

  /** A poll with events or effects is in the journal; a poll with neither leaves no trace. */
  lemma PolledRecords<S, E, F>(
    cfg: Config<S, E>, limit: nat, fleet: Fleet<S, E, F>, s: SessionId, reaction: Reaction<S, E, F>, now: nat)
    requires s in fleet.lives && fleet.lives.Keys == fleet.disks.Keys
    ensures var after, before := Polled(cfg, limit, fleet, s, reaction, now), fleet.disks[s].journal;
            && s in after.lives && s in after.disks && before <= after.disks[s].journal
            && (if reaction.events != [] || reaction.effects != []
                then after.lives[s].hosted.app == reaction.after
                     && Recorded(after.disks[s].journal, |before|, None, None, reaction, fleet.lives[s].ledger.sequence)
                else after == fleet)
  {
    hide Settled, Recorded;
    if reaction.events != [] || reaction.effects != [] {
      SettledRecords(cfg, limit, fleet, s, None, None, reaction, now);
    }
  }

  lemma PolledKeeps<S, E, F>(
    cfg: Config<S, E>, limit: nat, fleet: Fleet<S, E, F>, s: SessionId, reaction: Reaction<S, E, F>, now: nat)
    requires FleetInv(cfg, limit, fleet) && Handles(cfg, fleet, s, reaction)
    ensures FleetInv(cfg, limit, Polled(cfg, limit, fleet, s, reaction, now))
  {
    hide SessionInv, Settled, Lawful, NewIds, StartedInv, QueueInv, ActiveSessions;
    if s in fleet.lives && (reaction.events != [] || reaction.effects != []) {
      SettledKeeps(cfg, limit, fleet, s, None, None, reaction, now);
    }
  }

  /** The effect a session runs is the one at the front of its queue. */
  lemma RunningIsFront<S, E, F>(cfg: Config<S, E>, fleet: Fleet<S, E, F>, s: SessionId, effect: EffectId)
    requires SessionsInv(cfg, fleet) && s in fleet.lives && fleet.lives[s].hosted.active == Some(effect)
    ensures IsRunning(fleet.lives[s], effect) && Completes(fleet.lives[s], Some(effect))
  {
    assert SessionInv(cfg, fleet.lives[s], fleet.disks[s]);
  }

  /** A report about the running effect, at any attempt, retires it: its completion is in the
      journal, and after the poll that follows nothing of it runs or waits. */
  lemma FinishedRetires<S, E, F>(
    cfg: Config<S, E>, limit: nat, fleet: Fleet<S, E, F>, s: SessionId, effect: EffectId,
    reaction: Reaction<S, E, F>, polled: Reaction<S, E, F>, now: nat)
    requires FleetInv(cfg, limit, fleet) && s in fleet.lives && fleet.lives[s].hosted.active == Some(effect)
    requires Handles(cfg, fleet, s, reaction)
    requires Handles(cfg, Finished(cfg, limit, fleet, s, effect, reaction, now), s, polled)
    ensures var after := Polled(cfg, limit, Finished(cfg, limit, fleet, s, effect, reaction, now), s, polled, now);
            && s in after.lives && s in after.disks && s in fleet.disks
            && fleet.disks[s].journal <= after.disks[s].journal
            && Recorded(after.disks[s].journal, |fleet.disks[s].journal|, None, Some(effect), reaction,
                        fleet.lives[s].ledger.sequence)
            && Gone(after.lives[s], after.disks[s].journal, effect)
  {
    hide SessionInv, Settled, Lawful, NewIds, StartedInv, QueueInv, ActiveSessions, Polled, IsRunning,
         EffectHistory.Completes;
    var finished := Finished(cfg, limit, fleet, s, effect, reaction, now);
    var after := Polled(cfg, limit, finished, s, polled, now);
    RunningIsFront(cfg, fleet, s, effect);
    SettledKeeps(cfg, limit, fleet, s, None, Some(effect), reaction, now);
    SettledRecords(cfg, limit, fleet, s, None, Some(effect), reaction, now);
    PolledKeeps(cfg, limit, finished, s, polled, now);
    PolledRecords(cfg, limit, finished, s, polled, now);
    var k := |fleet.disks[s].journal|;
    assert finished.disks[s].journal[k] == after.disks[s].journal[k];
    RecordedIsGone(cfg, after.lives[s], after.disks[s], k, effect);
  }

  /** The journal has the effect's completion, and nothing of it runs or waits. */
  ghost predicate Gone<S, E, F>(live: Live<S, E, F>, journal: Journal<E, F>, effect: EffectId) {
    && effect in Completed(journal) && live.hosted.active != Some(effect)
    && forall i :: 0 <= i < |live.hosted.pending| ==> live.hosted.pending[i].id != effect
  }

  lemma RecordedIsGone<S, E, F>(cfg: Config<S, E>, live: Live<S, E, F>, disk: Disk<S, E, F>, k: nat, effect: EffectId)
    requires SessionInv(cfg, live, disk) && k < |disk.journal| && Completion(disk.journal[k]) == Some(effect)
    ensures Gone(live, disk.journal, effect)
  {
    CompletedGrows(disk.journal, k, |disk.journal|);
    assert disk.journal[..|disk.journal|] == disk.journal;
    CompletedIsGone(live, disk.journal, effect);
  }

  /** Any of the newest window of commits in a session's journal is remembered with the
      sequence it was given. */
  lemma NewestAreKnown<S, E, F>(cfg: Config<S, E>, fleet: Fleet<S, E, F>, s: SessionId, b: nat)
    requires SessionsInv(cfg, fleet) && s in fleet.lives && s in fleet.disks
    requires b < |Commits(fleet.disks[s].journal)| && |Commits(fleet.disks[s].journal)| - cfg.window <= b
    ensures var c, known := Commits(fleet.disks[s].journal)[b], fleet.lives[s].ledger.committed;
            c.request in known && known[c.request] == c.sequence
  {
    assert SessionInv(cfg, fleet.lives[s], fleet.disks[s]);
    ResendFindsOriginal(cfg, fleet.lives[s], fleet.disks[s].journal, b);
  }

  /** Starting effects records attempts only, so a session's commits stay what they were. */
  lemma {:induction false} DispatchedCommits<S, E, F>(fleet: Fleet<S, E, F>, limit: nat, s: SessionId)
    requires fleet.lives.Keys == fleet.disks.Keys && s in fleet.disks
    ensures Commits(Dispatched(fleet, limit).disks[s].journal) == Commits(fleet.disks[s].journal)
    decreases |fleet.ready|
  {
    hide ActiveSessions;
    if fleet.ready != [] && |ActiveSessions(fleet)| < limit {
      var next := StartOne(fleet.(ready := fleet.ready[1..]), fleet.ready[0]);
      DispatchedCommits(next, limit, s);
      var journal := fleet.disks[s].journal;
      if next.disks[s].journal != journal {
        assert (journal + [AttemptRecord(fleet.lives[s])])[..|journal|] == journal;
      }
    }
  }

  /** A command that is applied is one more commit, under the sequence it is answered with. */
  lemma SettledCommits<S, E, F>(
    cfg: Config<S, E>, limit: nat, fleet: Fleet<S, E, F>, s: SessionId, request: RequestId, reaction: Reaction<S, E, F>,
    now: nat)
    requires FleetInv(cfg, limit, fleet) && s in fleet.lives && request !in fleet.lives[s].ledger.committed
    ensures var after := Settled(cfg, limit, fleet, s, Some(request), None, reaction, now);
            && s in fleet.disks && s in after.disks
            && Commits(after.disks[s].journal)
               == Commits(fleet.disks[s].journal) + [Commitment(request, fleet.lives[s].ledger.sequence + 1)]
  {
    hide SessionInv, Dispatched, Commits, QueueInv, ActiveSessions, TransitionRecord, AfterTransition, Ledgers.Valid;
    assert SessionInv(cfg, fleet.lives[s], fleet.disks[s]);
    LedgerHolds(cfg, fleet.lives[s], fleet.disks[s]);
    TransitionCommits(cfg, fleet.lives[s], fleet.disks[s].journal, request, reaction, now);
    DispatchedCommits(Schedule(Transitioned(cfg, fleet, s, Some(request), None, reaction, now), s), limit, s);
  }

  lemma TransitionCommits<S, E, F>(
    cfg: Config<S, E>, live: Live<S, E, F>, journal: Journal<E, F>, request: RequestId, reaction: Reaction<S, E, F>,
    now: nat)
    requires Ledgers.Valid(live.ledger, cfg.window) && cfg.window >= 1 && request !in live.ledger.committed
    ensures Commits(journal + [TransitionRecord(cfg, live, Some(request), None, reaction, now)])
            == Commits(journal) + [Commitment(request, live.ledger.sequence + 1)]
  {
    hide Allocate, Commits, Ledgers.Valid;
    AllocateFacts(live.ledger, Some(request), |reaction.events|, cfg.window);
    CommitsAppend(journal, TransitionRecord(cfg, live, Some(request), None, reaction, now));
  }

  lemma LedgerHolds<S, E, F>(cfg: Config<S, E>, live: Live<S, E, F>, disk: Disk<S, E, F>)
    requires SessionInv(cfg, live, disk)
    ensures Ledgers.Valid(live.ledger, cfg.window) && cfg.window >= 1
  {
  }

  // ----- removal, checkpoints and reload -----

  function RemoveOne(ready: seq<SessionId>, s: SessionId): (r: seq<SessionId>)
    ensures forall t :: t in r <==> t in ready && t != s
  {
    if ready == [] then []
    else (if ready[0] == s then [] else [ready[0]]) + RemoveOne(ready[1..], s)
  }

  /** The others keep their places. */
  lemma {:induction false} RemoveOneSnoc(ready: seq<SessionId>, t: SessionId, s: SessionId)
    ensures RemoveOne(ready + [t], s) == RemoveOne(ready, s) + if t == s then [] else [t]
  {
    if ready == [] {
      assert ready + [t] == [t] && [t][1..] == [];
    } else {
      var head, rest := if ready[0] == s then [] else [ready[0]], RemoveOne(ready[1..], s);
      assert (ready + [t])[1..] == ready[1..] + [t];
      RemoveOneSnoc(ready[1..], t, s);
      assert head + (rest + if t == s then [] else [t]) == head + rest + if t == s then [] else [t];
    }
  }

  lemma {:induction false} RemoveOneNoDup(ready: seq<SessionId>, s: SessionId)
    requires NoDup(ready)
    ensures NoDup(RemoveOne(ready, s))
  {
    if ready != [] {
      RemoveOneNoDup(ready[1..], s);
      var rest := RemoveOne(ready[1..], s);
      assert ready[0] !in rest;
      if ready[0] != s {
        assert RemoveOne(ready, s) == [ready[0]] + rest;
      } else {
        assert RemoveOne(ready, s) == rest;
      }
    }
  }

  function Removed<S, E, F>(fleet: Fleet<S, E, F>, s: SessionId): Fleet<S, E, F> {
    fleet.(lives := fleet.lives - {s}, disks := fleet.disks - {s}, ready := RemoveOne(fleet.ready, s))
  }

  /** Stopping a session keeps the scheduler sound; the slot it frees is only used at the next
      dispatch. */
  lemma RemovedKeeps<S, E, F>(cfg: Config<S, E>, limit: nat, fleet: Fleet<S, E, F>, s: SessionId)
    requires FleetInv(cfg, limit, fleet)
    ensures FleetInv(cfg, limit, Removed(fleet, s))
  {
    hide SessionInv, StartedInv;
    RemoveOneNoDup(fleet.ready, s);
    StillStarted(fleet, Removed(fleet, s));
    Fewer(ActiveSessions(Removed(fleet, s)), ActiveSessions(fleet));
  }

  /** Stopping a session leaves a free slot unused exactly when the session was running an
      effect while another one waits. */
  lemma RemovedConserves<S, E, F>(cfg: Config<S, E>, limit: nat, fleet: Fleet<S, E, F>, s: SessionId)
    requires FleetInv(cfg, limit, fleet) && Conserving(limit, fleet) && s in fleet.lives
    ensures Conserving(limit, Removed(fleet, s)) <==> fleet.ready == [] || s !in ActiveSessions(fleet)
  {
    hide SessionInv, StartedInv;
    assert ActiveSessions(Removed(fleet, s)) == ActiveSessions(fleet) - {s};
    if s in ActiveSessions(fleet) {
      assert s !in fleet.ready;
      if fleet.ready != [] {
        assert fleet.ready[0] in RemoveOne(fleet.ready, s);
      }
    }
  }

  /** Such a fleet: with one slot, session 0 runs an effect and session 1 waits with another.
      Stopping session 0 leaves the slot free and session 1 waiting. */
  lemma StoppingLeavesASlot<S, E, F>(cfg: Config<S, E>, app: S, effect: F) returns (fleet: Fleet<S, E, F>)
    requires cfg.window >= 1
    ensures FleetInv(cfg, 1, fleet) && Conserving(1, fleet) && 0 in fleet.lives
    ensures Removed(fleet, 0).ready == [1] && ActiveSessions(Removed(fleet, 0)) == {}
    ensures !Conserving(1, Removed(fleet, 0))
  {
    hide FleetInv, StartOne, AfterDispatch;
    var none: Fleet<S, E, F> := Fleet(map[], map[], [], []);
    EmptyFleet(cfg, none);
    AddedKeeps(cfg, 1, none, 0, app);
    AddedKeeps(cfg, 1, Added(none, 0, app), 1, app);
    var idle := Added(Added(none, 0, app), 1, app);
    assert ActiveSessions(idle) == {};
    var queued := FirstEffect(cfg, idle, 0, app, effect);
    StartOneKeeps(cfg, 1, queued);
    StartOneElsewhere(queued.(ready := queued.ready[1..]), 0);
    var busy := StartOne(queued.(ready := queued.ready[1..]), 0);
    fleet := FirstEffect(cfg, busy, 1, app, effect);
    assert ActiveSessions(Removed(fleet, 0)) == ActiveSessions(fleet) - {0};
    assert RemoveOne(fleet.ready, 0) == [1] by {
      assert fleet.ready[1..] == [];
    }
  }

  lemma EmptyFleet<S, E, F>(cfg: Config<S, E>, none: Fleet<S, E, F>)
    requires none == Fleet(map[], map[], [], [])
    ensures FleetInv(cfg, 1, none)
  {
    assert ActiveSessions(none) == {};
  }

  lemma StartOneElsewhere<S, E, F>(fleet: Fleet<S, E, F>, s: SessionId)
    requires s in fleet.lives ==> s in fleet.disks
    ensures var after := StartOne(fleet, s);
            && after.ready == fleet.ready
            && after.lives.Keys == fleet.lives.Keys && after.disks.Keys == fleet.disks.Keys
            && (forall t :: t in fleet.lives && t != s ==> after.lives[t] == fleet.lives[t])
            && (forall t :: t in fleet.disks && t != s ==> after.disks[t] == fleet.disks[t])
  {
    hide AfterDispatch, JournalAfterDispatch;
  }

  /** A session that never did anything asks for an effect, and is queued. */
  lemma FirstEffect<S, E, F>(cfg: Config<S, E>, fleet: Fleet<S, E, F>, s: SessionId, app: S, effect: F)
    returns (after: Fleet<S, E, F>)
    requires FleetInv(cfg, 1, fleet) && s in fleet.lives && s in fleet.disks
    requires fleet.lives[s] == Created(app) && fleet.disks[s].journal == []
    ensures FleetInv(cfg, 1, after) && after.ready == fleet.ready + [s]
    ensures after.lives.Keys == fleet.lives.Keys && after.disks.Keys == fleet.disks.Keys
    ensures forall t :: t in fleet.lives && t != s ==> after.lives[t] == fleet.lives[t]
    ensures forall t :: t in fleet.disks && t != s ==> after.disks[t] == fleet.disks[t]
    ensures ActiveSessions(after) == ActiveSessions(fleet)
  {
    hide FleetInv, SessionsInv, QueueInvExcept, AfterTransition, TransitionRecord, Lawful, NewIds;
    var asks := FirstAsk<S, E, F>(cfg, app, effect);
    var changed := Transitioned(cfg, fleet, s, None, None, asks, 0);
    TransitionedKeeps(cfg, 1, fleet, s, None, None, asks, 0);
    ScheduleReady(cfg, 1, changed, s);
    NotQueued(cfg, fleet, s);
    after := Schedule(changed, s);
  }

  lemma NotQueued<S, E, F>(cfg: Config<S, E>, fleet: Fleet<S, E, F>, s: SessionId)
    requires FleetInv(cfg, 1, fleet) && s in fleet.lives && fleet.lives[s].hosted.pending == []
    ensures s !in fleet.ready
  {
  }

  lemma FirstAsk<S, E, F>(cfg: Config<S, E>, app: S, effect: F) returns (asks: Reaction<S, E, F>)
    ensures Lawful(cfg, app, asks) && NewIds([], asks)
    ensures var live := AfterTransition(cfg, Created<S, E, F>(app), None, None, asks, 0);
            live.hosted.active.None? && IsReady(live)
  {
    asks := Reaction(app, [], [Pending(0, AtLeastOnce, 0, effect, None)]);
  }

  function Checkpointed<S, E, F>(fleet: Fleet<S, E, F>, s: SessionId): Fleet<S, E, F>
    requires s in fleet.lives && s in fleet.disks
  {
    fleet.(disks := fleet.disks[s := fleet.disks[s].(checkpoint := Capture(fleet.lives[s]))])
  }

  lemma CheckpointedKeeps<S, E, F>(cfg: Config<S, E>, limit: nat, fleet: Fleet<S, E, F>, s: SessionId)
    requires FleetInv(cfg, limit, fleet) && s in fleet.lives
    ensures FleetInv(cfg, limit, Checkpointed(fleet, s))
  {
    hide SessionInv, StartedInv;
    StillStarted(fleet, Checkpointed(fleet, s));
    CheckpointInv(cfg, fleet.lives[s], fleet.disks[s]);
    assert ActiveSessions(Checkpointed(fleet, s)) == ActiveSessions(fleet);
  }

  function CheckpointedAll<S, E, F>(fleet: Fleet<S, E, F>): Fleet<S, E, F>
    requires fleet.lives.Keys == fleet.disks.Keys
  {
    fleet.(disks := map s | s in fleet.disks :: fleet.disks[s].(checkpoint := Capture(fleet.lives[s])))
  }

  /** Every checkpoint rewritten except those still to do. */
  function CheckpointedExcept<S, E, F>(fleet: Fleet<S, E, F>, todo: set<SessionId>): Fleet<S, E, F>
    requires fleet.lives.Keys == fleet.disks.Keys
  {
    fleet.(disks := map s | s in fleet.disks ::
             if s in todo then fleet.disks[s] else fleet.disks[s].(checkpoint := Capture(fleet.lives[s])))
  }

  lemma CheckpointedNone<S, E, F>(fleet: Fleet<S, E, F>)
    requires fleet.lives.Keys == fleet.disks.Keys
    ensures CheckpointedExcept(fleet, fleet.lives.Keys) == fleet
  {
  }

  lemma CheckpointedEvery<S, E, F>(fleet: Fleet<S, E, F>)
    requires fleet.lives.Keys == fleet.disks.Keys
    ensures CheckpointedExcept(fleet, {}) == CheckpointedAll(fleet)
  {
    hide Capture;
  }

  lemma CheckpointedOneMore<S, E, F>(fleet: Fleet<S, E, F>, todo: set<SessionId>, s: SessionId)
    requires fleet.lives.Keys == fleet.disks.Keys && s in todo && s in fleet.lives
    ensures s in CheckpointedExcept(fleet, todo).lives && s in CheckpointedExcept(fleet, todo).disks
    ensures Checkpointed(CheckpointedExcept(fleet, todo), s) == CheckpointedExcept(fleet, todo - {s})
  {
    hide Capture;
  }

  lemma CheckpointedAllKeeps<S, E, F>(cfg: Config<S, E>, limit: nat, fleet: Fleet<S, E, F>)
    requires FleetInv(cfg, limit, fleet)
    ensures FleetInv(cfg, limit, CheckpointedAll(fleet))
  {
    hide SessionInv, StartedInv, Capture;
    StillStarted(fleet, CheckpointedAll(fleet));
    forall s | s in fleet.lives ensures SessionInv(cfg, fleet.lives[s], CheckpointedAll(fleet).disks[s]) {
      CheckpointInv(cfg, fleet.lives[s], fleet.disks[s]);
    }
    assert ActiveSessions(CheckpointedAll(fleet)) == ActiveSessions(fleet);
  }

  lemma NothingStarted<E, F>()
    ensures Accounted<E, F>([], [])
  {
    assert Accounts<E, F>([], [], []);
  }

  function Added<S, E, F>(fleet: Fleet<S, E, F>, s: SessionId, app: S): Fleet<S, E, F> {
    var live: Live<S, E, F> := Created(app);
    fleet.(lives := fleet.lives[s := live], disks := fleet.disks[s := Disk(Capture(live), [])])
  }

  lemma AddedKeeps<S, E, F>(cfg: Config<S, E>, limit: nat, fleet: Fleet<S, E, F>, s: SessionId, app: S)
    requires FleetInv(cfg, limit, fleet) && s !in fleet.lives && cfg.window >= 1
    requires RunsOf(fleet.started, s) == []
    ensures FleetInv(cfg, limit, Added(fleet, s, app))
  {
    hide SessionInv, Accounted;
    NothingStarted<E, F>();
    CreatedInv<S, E, F>(cfg, app);
    assert ActiveSessions(Added(fleet, s, app)) == ActiveSessions(fleet);
  }

  /** What a starting leader holds before it dispatches anything. */
  function Reloaded<S, E, F>(
    cfg: Config<S, E>, disks: map<SessionId, Disk<S, E, F>>, started: seq<Execution>): Fleet<S, E, F> {
    Fleet(map s | s in disks :: Restarted(cfg, disks[s]).0,
          map s | s in disks :: Restarted(cfg, disks[s]).1,
          [], started)
  }

  /** After a crash every session comes back as its last completed append left it. */
  lemma ReloadedKeeps<S, E, F>(cfg: Config<S, E>, fleet: Fleet<S, E, F>)
    requires SessionsInv(cfg, fleet)
    ensures SessionsInv(cfg, Reloaded(cfg, fleet.disks, fleet.started))
    ensures ActiveSessions(Reloaded(cfg, fleet.disks, fleet.started)) == {}
    ensures forall s :: s in fleet.lives ==>
              Reloaded(cfg, fleet.disks, fleet.started).lives[s] == Durable(fleet.lives[s])
  {
    hide SessionInv, StartedInv;
    StillStarted(fleet, Reloaded(cfg, fleet.disks, fleet.started));
    forall s | s in fleet.lives
      ensures SessionInv(cfg, Restarted(cfg, fleet.disks[s]).0, Restarted(cfg, fleet.disks[s]).1)
      ensures Restarted(cfg, fleet.disks[s]).0 == Durable(fleet.lives[s])
    {
      RestartInv(cfg, fleet.lives[s], fleet.disks[s]);
    }
  }
}
