/** The resident host: one actor that owns the sessions, their journals, the effect scheduler
    and the client queues. Each method handles one message of its mailbox. */
module Hosts {
  import opened ControlPlane
  import opened Fleets
  import opened LeaderCores
  import opened Outbounds
  import opened Protocol
  import opened SessionLog
  import EffectHistory
  import EffectQueue
  import Ledgers
  import Recovery
  import RequestHistory
  import Sequences
  import SessionRun
  import Texts

  datatype Label = Label(name: string, epoch: nat)

  class HostState<S, E, F> {
    const cfg: Config<S, E>
    const limit: nat
    const core: LeaderCore
    var sessions: map<SessionId, Hosted<S, E, F>>
    var clients: Channels<S, E>
    var ready: seq<SessionId>
    var readySet: set<SessionId>
    /** Durable state: one checkpoint and one journal per session. */
    var disks: map<SessionId, Disk<S, E, F>>
    /** The name and lease epoch each checkpoint stores. */
    var labels: map<SessionId, Label>
    /** Every execution ever handed to the application, for an observer. */
    var started: seq<Execution>

    /** The host and the core know the same connections. */
    ghost predicate Wired()
      reads this, core
    {
      core.Valid() && clients.Keys == core.clients.Keys
    }

    ghost function FleetOf(): Fleet<S, E, F>
      reads this, core
    {
      Fleet(Lives(core.sessions, sessions), disks, ready, started)
    }

    ghost predicate Shape()
      reads this, core
    {
      && Wired()
      && core.window == cfg.window && limit >= 1
      && sessions.Keys == core.sessions.Keys == disks.Keys
      && (forall s :: s in readySet <==> s in ready)
    }

    /** Besides the fleet: each checkpoint names its session as the core does, and stores an
        epoch the session has reached. */
    ghost predicate Valid()
      reads this, core
    {
      Shape() && LabelsFor(labels, core.sessions) && FleetInv(cfg, limit, FleetOf())
    }

    constructor (cfg: Config<S, E>, limit: nat)
      requires cfg.window >= 1
      ensures Valid() && this.cfg == cfg && this.limit == Max(limit, 1)
      ensures fresh(core) && core.State() == EMPTY_CORE && clients == map[]
      ensures FleetOf() == Fleet(map[], map[], [], []) && sessions == map[] && labels == map[]
    {
      this.cfg := cfg;
      this.limit := Max(limit, 1);
      core := new LeaderCore(cfg.window);
      sessions, clients, ready, readySet, disks, labels, started := map[], map[], [], {}, map[], map[], [];
      new;
      assert FleetOf() == Fleet(map[], map[], [], []);
      assert ActiveSessions(FleetOf()) == {};
    }

    // ----- sending -----

    /** Queues a message for one client; a client whose queue is full or closed is dropped,
        which may in turn notify others of a driver change, and drop those too. */
    method Send(connection: ConnectionId, message: Message<S, E>)
      requires Wired()
      modifies this`clients, core
      ensures Wired()
      ensures Pushed(old(clients), clients, {connection}, One(message))
      ensures Received(old(clients), clients, connection, message)
      ensures core.State() == Without(old(core.State()), old(clients).Keys - clients.Keys)
      ensures Announced(old(core.State()), core.State(), old(clients), clients)
      ensures Spare(old(clients), {connection}, 1) ==> Kept(old(clients), clients, {connection}, 1)
      ensures connection in clients ==> Spare(old(clients), {connection}, 1)
      decreases |clients|, 1
    {
      hide Spare, Kept, CoreInv, LeaderCore.Valid, Without, Pushed, StateOf, Received, Announced;
      CoreHolds(core);
      WithoutNone(core.State());
      AllAnnounced(core.State(), clients, clients);
      if connection !in clients {
        PushedToAbsent(clients, clients, connection, One(message));
        AbsentReceives(clients, clients, connection, message);
        KeptNone(clients, {});
        KeptWithin(clients, clients, {}, {connection}, 1, 1);
        assert old(clients).Keys - clients.Keys == {};
        return;
      }
      SpareOne(clients, connection);
      var client := clients[connection];
      if client.open && |client.queue| < client.capacity {
        PushedOne(clients, connection, message);
        ReceivedNow(clients, connection, message);
        KeptOne(clients, connection, message);
        clients := clients[connection := client.(queue := client.queue + [message])];
        AllAnnounced(core.State(), old(clients), clients);
        assert old(clients).Keys - clients.Keys == {};
      } else {
        Disconnect(connection);
        PushedToAbsent(old(clients), clients, connection, One(message));
        AbsentReceives(old(clients), clients, connection, message);
      }
    }

    /** Removes a client and announces every driver lease this releases. */
    method Disconnect(connection: ConnectionId)
      requires Wired()
      modifies this`clients, core
      ensures Wired()
      ensures connection !in clients
      ensures Pushed(old(clients), clients, {}, [])
      ensures core.State() == Without(old(core.State()), old(clients).Keys - clients.Keys)
      ensures Announced(old(core.State()), core.State(), old(clients), clients)
      ensures Spare(old(clients), old(clients).Keys - {connection}, |old(core.sessions)|) ==>
                clients.Keys == old(clients).Keys - {connection}
      decreases |clients|, 0
    {
      hide Spare, Kept, CoreInv, LeaderCore.Valid, Without, Pushed, Received, Announced, ReportsIn, AllTold;
      ghost var first, before := clients, core.State();
      CoreHolds(core);
      var known := connection in clients;
      clients := clients - {connection};
      var changes := core.Disconnect(connection);
      ghost var left := core.State();
      WithoutClients(before, {connection});
      Sequences.Fewer(clients.Keys + {connection}, first.Keys + {connection});
      PushedDrop(first, connection);
      if !known {
        assert first.Keys - clients.Keys == {};
        WithoutNone(before);
        AllAnnounced(before, first, clients);
        return;
      }
      assert first.Keys - clients.Keys == {connection};
      ghost var remaining := clients;
      OneChangeEach(changes, core.sessions);
      BroadcastAllChanges(changes);
      KeptRest(first, connection, clients, |changes|, |before.sessions|);
      PushedQuietly(first, remaining, clients);
      PushedKeys(remaining, clients, {}, []);
      Rejoin(before, first.Keys, remaining.Keys, clients.Keys);
      FromFirst(before, left, core.State(), connection, changes, first, remaining, clients);
    }

    /** Announces every lease a leaving connection gave up. */
    method BroadcastAllChanges(changes: seq<DriverChange>)
      requires Wired()
      modifies this`clients, core
      ensures Wired()
      ensures Pushed(old(clients), clients, {}, [])
      ensures core.State() == Without(old(core.State()), old(clients).Keys - clients.Keys)
      ensures Announced(old(core.State()), core.State(), old(clients), clients)
      ensures AllTold(changes, old(clients), clients)
      ensures NoRepeats(changes) && Spare(old(clients), old(clients).Keys, |changes|) ==>
                Kept(old(clients), clients, old(clients).Keys, |changes|)
      decreases |clients|, 3
    {
      hide Spare, Kept, CoreInv, LeaderCore.Valid, Without, Pushed, Received, Announced, AllTold, ToldOf;
      ghost var first, before := clients, core.State();
      CoreHolds(core);
      AllAnnounced(before, first, first);
      WithoutNone(before);
      PushedNothing(first, {});
      assert first.Keys - clients.Keys == {};
      assert changes[..0] == [];
      NoneTold(first);
      KeptNone(first, first.Keys);
      for i := 0 to |changes|
        invariant Wired()
        invariant clients.Keys <= first.Keys && |clients| <= |first|
        invariant Pushed(first, clients, {}, [])
        invariant core.State() == Without(before, first.Keys - clients.Keys)
        invariant Announced(before, core.State(), first, clients)
        invariant AllTold(changes[..i], first, clients)
        invariant NoRepeats(changes) && Spare(first, first.Keys, |changes|) ==> Kept(first, clients, first.Keys, i)
      {
        ghost var mid, midway := clients, core.State();
        BroadcastDriver(changes[i]);
        if NoRepeats(changes) && Spare(first, first.Keys, |changes|) {
          KeptOneRound(first, mid, clients, Members(changes[i].subscribers), i, |changes|);
        }
        Sequences.PrefixSnoc(changes, i);
        OneMoreTold(changes[..i], changes[i], first, mid, clients);
        CarryOn(before, midway, core.State(), first, mid, clients);
      }
      assert changes[..|changes|] == changes;
    }

    method BroadcastDriver(change: DriverChange)
      requires Wired()
      modifies this`clients, core
      ensures Wired()
      ensures Pushed(old(clients), clients, {}, [])
      ensures ToldOf(change, change.subscribers, old(clients), clients)
      ensures core.State() == Without(old(core.State()), old(clients).Keys - clients.Keys)
      ensures Announced(old(core.State()), core.State(), old(clients), clients)
      ensures Sequences.NoDup(change.subscribers) && Spare(old(clients), Members(change.subscribers), 1) ==>
                Kept(old(clients), clients, Members(change.subscribers), 1)
      decreases |clients|, 2
    {
      hide Spare, Kept, CoreInv, LeaderCore.Valid, Without, Pushed, Received, Announced, ToldOf;
      ghost var first, before := clients, core.State();
      CoreHolds(core);
      WithoutNone(before);
      PushedNothing(first, {});
      AllAnnounced(before, first, first);
      assert first.Keys - clients.Keys == {};
      assert change.subscribers[..0] == [];
      NobodyTold(change, first);
      KeptNone(first, {});
      assert Members(change.subscribers[..0]) == {};
      for i := 0 to |change.subscribers|
        invariant Wired()
        invariant clients.Keys <= first.Keys && |clients| <= |first|
        invariant Pushed(first, clients, {}, [])
        invariant core.State() == Without(before, first.Keys - clients.Keys)
        invariant Announced(before, core.State(), first, clients)
        invariant ToldOf(change, change.subscribers[..i], first, clients)
        invariant Sequences.NoDup(change.subscribers) && Spare(first, Members(change.subscribers), 1) ==>
                    Kept(first, clients, Members(change.subscribers[..i]), 1)
      {
        ghost var mid, midway := clients, core.State();
        Send(change.subscribers[i], DriverChanged(change.session, change.lease));
        if Sequences.NoDup(change.subscribers) && Spare(first, Members(change.subscribers), 1) {
          KeptNext(first, mid, clients, change.subscribers, i);
        }
        PushedToNobody(mid, clients, change.subscribers[i]);
        Sequences.PrefixSnoc(change.subscribers, i);
        OneMoreSubscriber(change, change.subscribers[..i], change.subscribers[i], first, mid, clients);
        CarryOn(before, midway, core.State(), first, mid, clients);
      }
      assert change.subscribers[..|change.subscribers|] == change.subscribers;
    }

    // ----- the journal -----

    /** Appends one record to a session's journal. An append either reaches the disk or ends
        the leader. */
    method AppendLog(session: SessionId, event: LogEvent<E, F>)
      requires session in sessions && session in disks
      modifies this`sessions, this`disks
      ensures sessions == old(sessions)[session := old(sessions)[session].(logSequence :=
                            old(sessions)[session].logSequence + 1)]
      ensures disks == old(disks)[session := old(disks)[session].(journal :=
                         old(disks)[session].journal + [Record(old(sessions)[session].logSequence + 1, event)])]
    {
      var sequence := sessions[session].logSequence + 1;
      disks := disks[session := disks[session].(journal := disks[session].journal + [Record(sequence, event)])];
      sessions := sessions[session := sessions[session].(logSequence := sequence)];
    }

    /** Rewrites a session's checkpoint: its control record, its state and its queue. */
    method PersistCheckpoint(session: SessionId)
      requires Shape() && session in sessions
      modifies this`disks, this`labels
      ensures Shape() && FleetOf() == Checkpointed(old(FleetOf()), session)
      ensures labels == old(labels)[session := Label(core.sessions[session].name, core.sessions[session].epoch)]
    {
      hide CoreInv, LeaderCore.Valid;
      ghost var before := FleetOf();
      var hosted := sessions[session];
      var table := Ledgers.Pairs(core.sessions[session].ledger.order, core.sessions[session].ledger.committed);
      var control := Ledgers.LedgerSnapshot(core.sessions[session].ledger.sequence,
                                            core.sessions[session].ledger.lastEventAt, table);
      disks := disks[session := disks[session].(checkpoint :=
                 Checkpoint(control, hosted.app, hosted.logSequence, EffectQueue.EncodeAll(hosted.pending)))];
      labels := labels[session := Label(core.sessions[session].name, core.sessions[session].epoch)];
      assert FleetOf() == Checkpointed(before, session);
    }

    /** Rewrites every checkpoint, in no particular order. */
    method CheckpointAll()
      requires Shape() && LabelsFor(labels, core.sessions)
      modifies this`disks, this`labels
      ensures Shape() && FleetOf() == CheckpointedAll(old(FleetOf())) && LabelsFor(labels, core.sessions)
      ensures forall s :: s in sessions ==>
                s in labels && labels[s] == Label(core.sessions[s].name, core.sessions[s].epoch)
    {
      hide LabelsFor, CurrentExcept, CoreInv, LeaderCore.Valid, Lives, Checkpointed, CheckpointedExcept,
           CheckpointedAll;
      ghost var fleet := FleetOf();
      CheckpointedNone(fleet);
      ghost var tags := labels;
      NoneCurrent(labels, core.sessions);
      var todo := sessions.Keys;
      while todo != {}
        invariant todo <= sessions.Keys && Shape()
        invariant FleetOf() == CheckpointedExcept(fleet, todo)
        invariant CurrentExcept(labels, core.sessions, todo)
        decreases |todo|
      {
        var s :| s in todo;
        CheckpointedOneMore(fleet, todo, s);
        CurrentOneMore(labels, core.sessions, todo, s);
        todo := todo - {s};
        PersistCheckpoint(s);
      }
      assert todo == {};
      CheckpointedEvery(fleet);
      LabelsCurrent(tags, labels, core.sessions);
    }

    // ----- the effect scheduler -----

    method ScheduleEffect(session: SessionId)
      requires Shape()
      modifies this`ready, this`readySet
      ensures Shape() && FleetOf() == Schedule(old(FleetOf()), session)
      ensures ready == if && session in sessions && session !in old(ready)
                          && sessions[session].active.None? && sessions[session].pending != []
                       then old(ready) + [session] else old(ready)
    {
      hide LeaderCore.Valid;
      if session !in sessions || session in readySet {
        return;
      }
      if sessions[session].active.None? && sessions[session].pending != [] {
        readySet := readySet + {session};
        ready := ready + [session];
      }
    }

    method CountActive() returns (count: nat)
      requires Shape()
      ensures count == |ActiveSessions(FleetOf())|
    {
      hide LeaderCore.Valid;
      var active := set s | s in sessions && sessions[s].active.Some?;
      assert active == ActiveSessions(FleetOf());
      count := |active|;
    }

    /** Starts effects from the front of the queue while slots are free. */
    method DispatchEffects()
      requires Valid()
      modifies this`sessions, this`ready, this`readySet, this`disks, this`started
      ensures Valid() && FleetOf() == Dispatched(old(FleetOf()), limit)
      ensures || |set s | s in sessions && sessions[s].active.Some?| >= limit
              || forall s :: s in sessions && sessions[s].active.None? ==> sessions[s].pending == []
    {
      hide LabelsFor, FleetInv, CoreInv, LeaderCore.Valid, ActiveSessions, StartOne, Dispatched, Lives;
      ghost var before := FleetOf();
      var count := CountActive();
      while count < limit && ready != []
        invariant Valid() && count == |ActiveSessions(FleetOf())|
        invariant Dispatched(FleetOf(), limit) == Dispatched(before, limit)
        decreases |ready|
      {
        ghost var fleet := FleetOf();
        DispatchedStep(fleet, limit);
        StartOneKeeps(cfg, limit, fleet);
        QueueFront(cfg, limit, fleet);
        var session := ready[0];
        ready := ready[1..];
        readySet := readySet - {session};
        assert FleetOf() == fleet.(ready := fleet.ready[1..]);
        DispatchOneEffect(session);
        count := CountActive();
      }
      DispatchedStep(FleetOf(), limit);
      NobodyWaits(cfg, limit, FleetOf(), core.sessions, sessions);
    }

    /** Starts the oldest effect of an idle session: records the attempt, then hands it to the
        application. An at-most-once effect that may have started already is not executed;
        its outcome is reported as unknown. */
    method DispatchOneEffect(session: SessionId)
      requires Shape()
      modifies this`sessions, this`disks, this`started
      ensures Shape() && FleetOf() == StartOne(old(FleetOf()), session)
      ensures && session in old(sessions)
              && old(sessions)[session].active.None? && old(sessions)[session].pending != []
              ==>
                var front := old(sessions)[session].pending[0];
                && session in sessions && sessions[session].active == Some(front.id)
                && started == if front.delivery == EffectQueue.AtLeastOnce || front.attempts == 0
                              then old(started) + [Execution(session, front.id, front.attempts + 1)]
                              else old(started)
    {
      hide CoreInv, LeaderCore.Valid;
      if session !in sessions || sessions[session].active.Some? || sessions[session].pending == [] {
        return;
      }
      var pending := sessions[session].pending[0];
      if pending.delivery == EffectQueue.AtMostOnce && pending.attempts > 0 {
        LivesUpdate(core.sessions, sessions, session, sessions[session].(active := Some(pending.id)));
        sessions := sessions[session := sessions[session].(active := Some(pending.id))];
        assert disks == disks[session := disks[session].(journal := disks[session].journal)];
        return;
      }
      RecordAndStart(session, pending);
    }

    method RecordAndStart(session: SessionId, pending: EffectQueue.Pending<F>)
      requires Shape() && session in sessions && sessions[session].active.None?
      requires sessions[session].pending != [] && pending == sessions[session].pending[0] && !OutcomeUnknown(pending)
      modifies this`sessions, this`disks, this`started
      ensures Shape() && FleetOf() == StartOne(old(FleetOf()), session)
      ensures session in sessions && sessions[session].active == Some(pending.id)
      ensures started == old(started) + [Execution(session, pending.id, pending.attempts + 1)]
    {
      hide CoreInv, LeaderCore.Valid, Lives;
      ghost var hosts := sessions;
      ghost var live := Live(core.sessions[session].ledger, sessions[session]);
      var attempt := pending.attempts + 1;
      var queue := [pending.(attempts := attempt)] + sessions[session].pending[1..];
      sessions := sessions[session := sessions[session].(pending := queue)];
      AppendLog(session, Attempted(pending.id, attempt));
      sessions := sessions[session := sessions[session].(active := Some(pending.id))];
      started := started + [Execution(session, pending.id, attempt)];
      assert sessions == hosts[session := AfterDispatch(live).hosted];
      LivesUpdate(core.sessions, hosts, session, AfterDispatch(live).hosted);
    }

    // ----- transitions -----

    /** Allocates sequences for the events of a transition, the first one to the request. */
    method EmitEvents(
      session: SessionId, request: Option<RequestId>, events: seq<E>) returns (emitted: seq<Sequenced<E>>)
      requires core.Valid() && session in core.sessions && core.window == cfg.window
      requires request.Some? ==> request.value !in core.sessions[session].ledger.committed
      modifies core`sessions
      ensures core.Valid() && emitted == Numbered(events, old(core.sessions)[session].ledger.sequence)
      ensures core.State() == SetLedger(old(core.State()), session,
                                        Allocate(old(core.sessions)[session].ledger, request, |events|, cfg.window))
    {
      hide CoreInv, LeaderCore.Valid, Allocate, SetLedger, Ledgers.Commit, Ledgers.Publish;
      ghost var before, l := core.State(), core.sessions[session].ledger;
      SessionLedger(core, session);
      SetLedgerFacts(before, session, l, l);
      emitted := [];
      for i := 0 to |events|
        invariant core.Valid() && session in core.sessions
        invariant core.sessions[session].ledger == AllocatedSoFar(l, request, i, cfg.window)
        invariant core.State() == SetLedger(before, session, AllocatedSoFar(l, request, i, cfg.window))
        invariant emitted == Numbered(events, l.sequence)[..i]
      {
        AllocateStep(l, request, i, cfg.window);
        var sequence: nat;
        if i == 0 && request.Some? {
          sequence := core.Commit(session, request.value);
        } else {
          sequence := core.Publish(session);
        }
        SetLedgerFacts(before, session, AllocatedSoFar(l, request, i, cfg.window),
                       AllocatedSoFar(l, request, i + 1, cfg.window));
        emitted := emitted + [Sequenced(sequence, events[i])];
      }
      if events == [] {
        AllocateStep(l, request, 0, cfg.window);
        if request.Some? {
          var _ := core.Commit(session, request.value);
          SetLedgerFacts(before, session, l, Allocate(l, request, 0, cfg.window));
        }
      }
    }

    /** Puts one durable event into the bounded history and sends it to every subscriber. */
    method RecordAndBroadcast(session: SessionId, entry: Sequenced<E>)
      requires Wired() && session in sessions && session in core.sessions
      modifies this`sessions, this`clients, core
      ensures Wired()
      ensures sessions == old(sessions)[session := old(sessions)[session].(events :=
                            Sequences.LastN(old(sessions)[session].events + [entry], cfg.history))]
      ensures core.State() == Without(old(core.State()), old(clients).Keys - clients.Keys)
      ensures Pushed(old(clients), clients, old(core.sessions)[session].subscribers,
                     [Event(session, entry.sequence, entry.event)])
      ensures Spare(old(clients), old(core.sessions)[session].subscribers, 1) ==>
                Kept(old(clients), clients, old(core.sessions)[session].subscribers, 1)
    {
      hide Spare, Kept, CoreInv, Without, Pushed;
      var history := Prune(sessions[session].events + [entry], cfg.history);
      sessions := sessions[session := sessions[session].(events := history)];
      ghost var first, before := clients, core.State();
      ghost var targets := core.sessions[session].subscribers;
      var message := Event(session, entry.sequence, entry.event);
      var subscribers := core.Subscribers(session);
      WithoutNone(before);
      assert first.Keys - clients.Keys == {};
      PushedBegin(first, [message]);
      ghost var told: set<ConnectionId> := {};
      KeptNone(first, {});
      ghost var recorded := sessions;
      for i := 0 to |subscribers|
        invariant Wired() && clients.Keys <= first.Keys && sessions == recorded
        invariant told == set k | 0 <= k < i :: subscribers[k]
        invariant Pushed(first, clients, told, [message])
        invariant core.State() == Without(before, first.Keys - clients.Keys)
        invariant Spare(first, targets, 1) ==> Kept(first, clients, told, 1)
      {
        ghost var mid := clients;
        Send(subscribers[i], message);
        if Spare(first, targets, 1) {
          KeptOneMore(first, mid, told, subscribers[i], targets);
        }
        PushedMore(first, mid, clients, told, subscribers[i], [message]);
        PushedKeys(first, clients, told + {subscribers[i]}, [message]);
        PushedKeys(mid, clients, {subscribers[i]}, [message]);
        Rejoin(before, first.Keys, mid.Keys, clients.Keys);
        told := told + {subscribers[i]};
      }
      assert told == targets;
    }

    /** Records and broadcasts the events of one durable transition, in order. */
    method BroadcastAll(session: SessionId, emitted: seq<Sequenced<E>>)
      requires Wired() && session in sessions && session in core.sessions
      requires |sessions[session].events| <= cfg.history
      modifies this`sessions, this`clients, core
      ensures Wired()
      ensures sessions == old(sessions)[session := old(sessions)[session].(events :=
                            Sequences.LastN(old(sessions)[session].events + emitted, cfg.history))]
      ensures core.State() == Without(old(core.State()), old(clients).Keys - clients.Keys)
      ensures Pushed(old(clients), clients, old(core.sessions)[session].subscribers, EventMessages(session, emitted))
      ensures Spare(old(clients), old(core.sessions)[session].subscribers, |emitted|) ==>
                Kept(old(clients), clients, old(core.sessions)[session].subscribers, |emitted|)
    {
      hide Spare, Kept, CoreInv, Without, Pushed, Left;
      ghost var first, before, hosts := clients, core.State(), sessions;
      ghost var targets := core.sessions[session].subscribers;
      WithoutNone(before);
      PushedNothing(first, targets);
      KeptNone(first, targets);
      assert first.Keys - clients.Keys == {};
      assert EventMessages<S, E>(session, emitted[..0]) == [];
      assert hosts[session].events + emitted[..0] == hosts[session].events;
      for i := 0 to |emitted|
        invariant Wired() && clients.Keys <= first.Keys
        invariant sessions == hosts[session := hosts[session].(events :=
                                Sequences.LastN(hosts[session].events + emitted[..i], cfg.history))]
        invariant Pushed(first, clients, targets, EventMessages(session, emitted[..i]))
        invariant core.State() == Without(before, first.Keys - clients.Keys)
        invariant Spare(first, targets, |emitted|) ==> Kept(first, clients, targets, i)
      {
        ghost var mid := clients;
        WithoutSession(before, first.Keys - mid.Keys, session);
        RecordAndBroadcast(session, emitted[i]);
        if Spare(first, targets, |emitted|) {
          NobodyGone(first, mid, targets, i);
          KeptNextRound(first, mid, clients, targets, i, |emitted|);
        }
        ghost var message := Event(session, emitted[i].sequence, emitted[i].event);
        PushedKeys(mid, clients, targets - (first.Keys - mid.Keys), [message]);
        PushedSameTargets(mid, clients, targets - (first.Keys - mid.Keys), targets, [message]);
        PushedThen(first, mid, clients, targets, EventMessages(session, emitted[..i]), [message]);
        assert EventMessages<S, E>(session, emitted[..i + 1]) == EventMessages(session, emitted[..i]) + [message];
        assert hosts[session].events + emitted[..i] + [emitted[i]] == hosts[session].events + emitted[..i + 1];
        Sequences.LastNAppend(hosts[session].events + emitted[..i], [emitted[i]], cfg.history);
        Rejoin(before, first.Keys, mid.Keys, clients.Keys);
      }
      assert emitted[..|emitted|] == emitted;
    }

    // ----- one transition, from the handler to the scheduler -----

    /** The durable half: the handler's new state, sequence allocation, the activity stamp,
        the journal record, and the pending queue. */
    method CommitTransition(session: SessionId, request: Option<RequestId>, completed: Option<EffectId>,
                            reaction: Reaction<S, E, F>, now: nat)
      returns (emitted: seq<Sequenced<E>>, sequence: nat)
      requires Shape() && session in sessions
      requires request.Some? ==> request.value !in core.sessions[session].ledger.committed
      modifies this`sessions, this`disks, core`sessions
      ensures Wired() && session in core.sessions
      ensures emitted == Numbered(reaction.events, old(core.sessions)[session].ledger.sequence)
      ensures var live := Live(old(core.sessions)[session].ledger, old(sessions)[session]);
              var after := AfterTransition(cfg, live, request, completed, reaction, now);
              && sequence == TransitionSequence(live, request, reaction)
              && core.State() == SetLedger(old(core.State()), session, after.ledger)
              && sessions == old(sessions)[session := after.hosted.(events := old(sessions)[session].events)]
              && disks == old(disks)[session := old(disks)[session].(journal :=
                   old(disks)[session].journal + [TransitionRecord(cfg, live, request, completed, reaction, now)])]
    {
      hide CoreInv, LeaderCore.Valid, EffectQueue.RetainIf, Reported, SetLedger, TransitionSequence, AfterTransition,
           TransitionRecord, Sequences.LastN, Lives;
      ghost var live := LiveOf(session);
      SessionLedger(core, session);
      TransitionParts(cfg, live, request, completed, reaction, now);
      sessions := sessions[session := sessions[session].(app := reaction.after)];
      var committedAt, control;
      emitted, committedAt, control := CommitEvents(session, request, reaction.events, now);
      AppendLog(session, Transition(request, control, committedAt, emitted, EffectQueue.EncodeAll(reaction.effects),
                                    completed));
      Requeue(session, completed, reaction.effects);
      sequence := Reported(request, emitted, control);
    }

    /** Allocates the sequences of a transition and stamps the session's activity. */
    method CommitEvents(session: SessionId, request: Option<RequestId>, events: seq<E>, now: nat)
      returns (emitted: seq<Sequenced<E>>, committedAt: Option<nat>, control: nat)
      requires core.Valid() && session in core.sessions && core.window == cfg.window
      requires request.Some? ==> request.value !in core.sessions[session].ledger.committed
      modifies core`sessions
      ensures core.Valid() && session in core.sessions
      ensures emitted == Numbered(events, old(core.sessions)[session].ledger.sequence)
      ensures committedAt == if events != [] || request.Some? then Some(now) else None
      ensures var advanced := Allocate(old(core.sessions)[session].ledger, request, |events|, cfg.window);
              && control == advanced.sequence
              && core.State() == SetLedger(old(core.State()), session, Ledgers.StampIf(advanced, committedAt))
    {
      hide CoreInv, LeaderCore.Valid, Allocate, SetLedger;
      ghost var before, l := core.State(), core.sessions[session].ledger;
      SetLedgerFacts(before, session, Allocate(l, request, |events|, cfg.window),
                     Ledgers.StampIf(Allocate(l, request, |events|, cfg.window), Some(now)));
      emitted := EmitEvents(session, request, events);
      committedAt := None;
      if emitted != [] || request.Some? {
        committedAt := Some(now);
        core.StampActivity(session, now);
      }
      control := core.sessions[session].ledger.sequence;
    }

    /** Retires a completed effect and queues the new ones behind the rest. */
    method Requeue(session: SessionId, completed: Option<EffectId>, effects: seq<EffectQueue.Pending<F>>)
      requires session in sessions
      modifies this`sessions
      ensures sessions == old(sessions)[session := old(sessions)[session].(
                            pending := EffectQueue.RetainIf(old(sessions)[session].pending, completed) + effects,
                            active := if completed.Some? then None else old(sessions)[session].active)]
    {
      var hosted := sessions[session];
      if completed.Some? {
        hosted := hosted.(pending := EffectQueue.Retain(hosted.pending, completed.value), active := None);
      }
      sessions := sessions[session := hosted.(pending := hosted.pending + effects)];
    }

    /** Every subscriber that is not dropped received exactly these events, numbered on, and
        none is dropped that was reading and had room for them. */
    twostate predicate Told(session: SessionId, events: seq<E>)
      reads this, core
    {
      && session in old(core.sessions)
      && Pushed(old(clients), clients, old(core.sessions)[session].subscribers,
                EventMessages(session, Numbered(events, old(core.sessions)[session].ledger.sequence)))
      && (Spare(old(clients), old(core.sessions)[session].subscribers, |events|) ==>
            Kept(old(clients), clients, old(core.sessions)[session].subscribers, |events|))
    }

    /** The journal of the session continues with exactly the record of this transition. */
    twostate predicate Appended(
      session: SessionId, request: Option<RequestId>, completed: Option<EffectId>, reaction: Reaction<S, E, F>)
      reads this, core
    {
      && session in old(disks) && session in disks && session in old(core.sessions)
      && old(disks)[session].journal <= disks[session].journal
      && Recorded(disks[session].journal, |old(disks)[session].journal|, request, completed, reaction,
                  old(core.sessions)[session].ledger.sequence)
    }

    /** The journal of the session holds exactly one more commit. */
    twostate predicate Committed(session: SessionId, commit: RequestHistory.Commitment)
      reads this
    {
      && session in old(disks) && session in disks
      && RequestHistory.Commits(disks[session].journal)
         == RequestHistory.Commits(old(disks)[session].journal) + [commit]
    }

    /** Makes one handler's outcome durable, then tells the subscribers. */
    method RecordTransition(session: SessionId, request: Option<RequestId>, completed: Option<EffectId>,
                            reaction: Reaction<S, E, F>, now: nat) returns (sequence: nat)
      requires Valid() && session in sessions
      requires request.Some? ==> request.value !in core.sessions[session].ledger.committed
      modifies this`sessions, this`clients, this`disks, core
      ensures Shape()
      ensures FleetOf() == Transitioned(cfg, old(FleetOf()), session, request, completed, reaction, now)
      ensures sequence == TransitionSequence(old(LiveOf(session)), request, reaction)
      ensures core.State() == Without(
                SetLedger(old(core.State()), session,
                          AfterTransition(cfg, old(LiveOf(session)), request, completed, reaction, now).ledger),
                old(clients).Keys - clients.Keys)
      ensures Told(session, reaction.events)
    {
      hide Spare, Kept, LabelsFor, CoreInv, LeaderCore.Valid, Without, Pushed, FleetInv, Lives, SetLedger,
           AfterTransition,
           TransitionRecord, Sequences.LastN, Transitioned,
           TransitionSequence, EventMessages, Numbered;
      ghost var fleet, before, hosts := FleetOf(), core.State(), sessions;
      ghost var live := LiveOf(session);
      ghost var after := AfterTransition(cfg, live, request, completed, reaction, now);
      LivesUpdate(core.sessions, sessions, session, sessions[session]);
      assert |hosts[session].events| <= cfg.history
             && after.hosted.events
                == Sequences.LastN(hosts[session].events + Numbered(reaction.events, live.ledger.sequence), cfg.history)
      by {
        HistoryBounded(cfg, limit, fleet, session);
        TransitionParts(cfg, live, request, completed, reaction, now);
      }
      SetLedgerFacts(before, session, after.ledger, after.ledger);
      var emitted;
      emitted, sequence := CommitTransition(session, request, completed, reaction, now);
      BroadcastAll(session, emitted);
      assert sessions == hosts[session := after.hosted];
      FleetTransition(cfg, before, hosts, fleet, session, old(clients).Keys - clients.Keys, request, completed,
                      reaction, now);
      assert FleetOf() == Transitioned(cfg, fleet, session, request, completed, reaction, now);
      assert Shape();
    }

    /** Applies one handler's outcome: makes it durable, tells the subscribers, and starts
        whatever the scheduler allows. */
    method ApplyTransition(session: SessionId, request: Option<RequestId>, completed: Option<EffectId>,
                           reaction: Reaction<S, E, F>, now: nat) returns (sequence: nat)
      requires Valid() && session in sessions
      requires Recovery.Lawful(cfg, sessions[session].app, reaction)
      requires EffectHistory.NewIds(disks[session].journal, reaction)
      requires EffectHistory.Completes(LiveOf(session), completed)
      requires request.Some? ==> request.value !in core.sessions[session].ledger.committed
      modifies this`sessions, this`clients, this`ready, this`readySet, this`disks, this`started, core
      ensures Valid()
      ensures FleetOf() == Settled(cfg, limit, old(FleetOf()), session, request, completed, reaction, now)
      ensures sequence == TransitionSequence(old(LiveOf(session)), request, reaction)
      ensures core.State() == Without(
                SetLedger(old(core.State()), session,
                          AfterTransition(cfg, old(LiveOf(session)), request, completed, reaction, now).ledger),
                old(clients).Keys - clients.Keys)
      ensures Told(session, reaction.events)
    {
      hide Spare, Kept, LabelsFor, CoreInv, LeaderCore.Valid, Without, Pushed, FleetInv, Lives, SetLedger,
           AfterTransition,
           Transitioned, TransitionSequence,
           EffectHistory.Completes, EffectHistory.NewIds, Recovery.Lawful, SessionsInv, QueueInvExcept, Schedule,
           Dispatched, EventMessages, Numbered;
      ghost var fleet := FleetOf();
      LivesUpdate(core.sessions, sessions, session, sessions[session]);
      TransitionedKeeps(cfg, limit, fleet, session, request, completed, reaction, now);
      ScheduleReady(cfg, limit, Transitioned(cfg, fleet, session, request, completed, reaction, now), session);
      ghost var first, before := clients, core.State();
      ghost var ledger := AfterTransition(cfg, LiveOf(session), request, completed, reaction, now).ledger;
      sequence := RecordTransition(session, request, completed, reaction, now);
      LabelsUnderLedger(labels, before, session, ledger, first.Keys - clients.Keys);
      ScheduleEffect(session);
      DispatchEffects();
    }

    // ----- mailbox messages -----

    method Connected(connection: ConnectionId, client: ClientId, capacity: nat)
      requires Valid() && connection !in clients
      modifies this`clients, core
      ensures Valid() && FleetOf() == old(FleetOf())
      ensures core.State() == Connect(old(core.State()), connection, client)
      ensures clients == old(clients)[connection := Outbound([], capacity, true)]
    {
      hide LabelsFor, FleetInv, CoreInv, LeaderCore.Valid;
      core.Connect(connection, client);
      clients := clients[connection := Outbound([], capacity, true)];
    }

    method Disconnected(connection: ConnectionId)
      requires Valid()
      modifies this`clients, core
      ensures Valid() && Unaffected() && connection !in clients
      ensures Announced(old(core.State()), core.State(), old(clients), clients)
      ensures Spare(old(clients), old(clients).Keys - {connection}, |old(core.sessions)|) ==>
                clients.Keys == old(clients).Keys - {connection}
    {
      hide Spare, Kept, LabelsFor, FleetInv, CoreInv, LeaderCore.Valid, Without, Pushed, Lives, Announced;
      ghost var before, fleet := core.State(), FleetOf();
      Disconnect(connection);
      OnlyConnections(labels, before, old(clients).Keys - clients.Keys, sessions);
      assert FleetOf() == fleet;
      assert Shape();
    }

    /** Answers a request; the answer changes nobody's picture of a session. */
    method Respond(connection: ConnectionId, request: RequestId, reply: Reply)
      requires Valid()
      modifies this`clients, core
      ensures Valid() && FleetOf() == old(FleetOf())
      ensures Pushed(old(clients), clients, {}, [])
      ensures Received(old(clients), clients, connection, Response(request, reply))
      ensures core.State() == Without(old(core.State()), old(clients).Keys - clients.Keys)
      ensures Spare(old(clients), {connection}, 1) ==> Kept(old(clients), clients, {connection}, 1)
      ensures RoomFor(old(clients), 1) ==> clients.Keys == old(clients).Keys
    {
      hide Spare, Kept, LabelsFor, FleetInv, CoreInv, LeaderCore.Valid, Without, Pushed, Lives, Received, Announced;
      ghost var before := core.State();
      Send(connection, Response(request, reply));
      RoomForAnswer(old(clients), clients, connection);
      PushedToNobody(old(clients), clients, connection);
      OnlyConnections(labels, before, old(clients).Keys - clients.Keys, sessions);
    }

    /** A domain command. `outcome` is what the application's handler produced, if it accepts. */
    method Command(connection: ConnectionId, request: RequestId, session: SessionId, lease: nat,
                   outcome: Option<Reaction<S, E, F>>, now: nat) returns (reply: Reply)
      requires Valid()
      requires outcome.Some? ==> Handles(cfg, FleetOf(), session, outcome.value)
      modifies this`sessions, this`clients, this`ready, this`readySet, this`disks, this`started, core
      ensures Valid() && Received(old(clients), clients, connection, Response(request, reply))
      ensures ReplyRules(old(core.State()), connection, session, lease, request, outcome.Some?, reply)
      ensures reply.Accepted? && !reply.duplicate ==>
                && outcome.Some? && Appended(session, Some(request), None, outcome.value)
                && Committed(session, RequestHistory.Commitment(request, reply.sequence))
                && session in sessions && sessions[session].app == outcome.value.after
      ensures !(reply.Accepted? && !reply.duplicate) ==> FleetOf() == old(FleetOf())
      ensures session in old(disks) ==>
                ResendRules(cfg.window, old(disks)[session].journal, old(core.State()), connection, session, request,
                            reply)
      ensures RoomFor(old(clients), 1 + if outcome.Some? then |outcome.value.events| else 0) ==>
                clients.Keys == old(clients).Keys
      ensures match Authorize(old(core.State()), connection, session, lease, request)
              case Err(error) =>
                reply == Refused(error) && Unaffected()
              case Ok(Duplicate(sequence)) =>
                reply == Accepted(session, sequence, true) && Unaffected()
              case Ok(Apply) =>
                if outcome.None? then reply == Rejected && Unaffected()
                else
                  && session in old(sessions) && session in old(core.sessions)
                  && reply == Accepted(session, old(core.sessions)[session].ledger.sequence + 1, false)
                  && FleetOf() == Settled(cfg, limit, old(FleetOf()), session, Some(request), None, outcome.value, now)
                  && Pushed(old(clients), clients, old(core.sessions)[session].subscribers,
                            EventMessages(session,
                                          Numbered(outcome.value.events, old(core.sessions)[session].ledger.sequence)))
                  && core.State() == Without(
                       SetLedger(old(core.State()), session,
                                 AfterTransition(cfg, old(LiveOf(session)), Some(request), None, outcome.value,
                                                 now).ledger),
                       old(clients).Keys - clients.Keys)
    {
      hide Spare, Kept, LabelsFor, FleetInv, CoreInv, LeaderCore.Valid, Without, Pushed, Lives, Settled, SetLedger,
           AfterTransition, Recovery.Lawful, EffectHistory.NewIds, EventMessages, Numbered, Received, Rules, RoomFor,
           Entitled, ReplyRules, ResendRules, Recorded, RequestHistory.Commits;
      var verdict := core.Authorize(connection, session, lease, request);
      ghost var room := 1 + if outcome.Some? then |outcome.value.events| else 0;
      if RoomFor(clients, room) {
        RoomForLess(clients, room, 1);
      }
      ResendsKnown(cfg, limit, FleetOf(), core, sessions, connection, session, lease, request, verdict);
      if verdict.Err? {
        reply := Refused(verdict.error);
        Respond(connection, request, reply);
        return;
      }
      if verdict.value.Duplicate? {
        reply := Accepted(session, verdict.value.sequence, true);
        Respond(connection, request, reply);
        return;
      }
      if outcome.None? {
        reply := Rejected;
        Respond(connection, request, reply);
        return;
      }
      reply := ApplyCommand(connection, request, session, outcome.value, now);
    }

    /** Applies an accepted command once, tells the subscribers, and answers with its sequence. */
    method ApplyCommand(connection: ConnectionId, request: RequestId, session: SessionId,
                        reaction: Reaction<S, E, F>, now: nat) returns (reply: Reply)
      requires Valid() && session in sessions && Handles(cfg, FleetOf(), session, reaction)
      requires request !in core.sessions[session].ledger.committed
      modifies this`sessions, this`clients, this`ready, this`readySet, this`disks, this`started, core
      ensures Valid() && Received(old(clients), clients, connection, Response(request, reply))
      ensures reply == Accepted(session, old(core.sessions)[session].ledger.sequence + 1, false)
      ensures FleetOf() == Settled(cfg, limit, old(FleetOf()), session, Some(request), None, reaction, now)
      ensures Pushed(old(clients), clients, old(core.sessions)[session].subscribers,
                     EventMessages(session, Numbered(reaction.events, old(core.sessions)[session].ledger.sequence)))
      ensures core.State() == Without(
                SetLedger(old(core.State()), session,
                          AfterTransition(cfg, old(LiveOf(session)), Some(request), None, reaction, now).ledger),
                old(clients).Keys - clients.Keys)
      ensures Appended(session, Some(request), None, reaction)
      ensures Committed(session, RequestHistory.Commitment(request, reply.sequence))
      ensures session in sessions && sessions[session].app == reaction.after
      ensures RoomFor(old(clients), 1 + |reaction.events|) ==> clients.Keys == old(clients).Keys
    {
      hide Spare, Kept, LabelsFor, FleetInv, CoreInv, LeaderCore.Valid, Without, Pushed, Lives, Settled, SetLedger,
           AfterTransition, Recovery.Lawful, EffectHistory.NewIds, EventMessages, Numbered, Received, RoomFor, Recorded,
           RequestHistory.Commits;
      LivesUpdate(core.sessions, sessions, session, sessions[session]);
      ghost var targets := core.sessions[session].subscribers;
      ghost var pushes: seq<Message<S, E>> :=
        EventMessages(session, Numbered(reaction.events, core.sessions[session].ledger.sequence));
      ghost var applied := SetLedger(core.State(), session,
                                     AfterTransition(cfg, LiveOf(session), Some(request), None, reaction,
                                                     now).ledger);
      CoreHolds(core);
      KeepsUnderLedger(core.State(), session,
                       AfterTransition(cfg, LiveOf(session), Some(request), None, reaction, now).ledger);
      SettledRecords(cfg, limit, FleetOf(), session, Some(request), None, reaction, now);
      SettledCommits(cfg, limit, FleetOf(), session, request, reaction, now);
      var sequence := ApplyTransition(session, Some(request), None, reaction, now);
      reply := Accepted(session, sequence, false);
      LivesUpdate(core.sessions, sessions, session, sessions[session]);
      ghost var mid := clients;
      RoomAfter(old(clients), mid, targets, |reaction.events|);
      PushedKeys(old(clients), mid, targets, pushes);
      Respond(connection, request, reply);
      PushedKeys(mid, clients, {}, []);
      Rejoin(applied, old(clients).Keys, mid.Keys, clients.Keys);
      PushedThenQuiet(old(clients), mid, clients, targets, pushes);
      ThenReceived(old(clients), mid, clients, targets, pushes, connection, Response(request, reply));
    }

    /** Nothing but connections changed. */
    twostate predicate Unaffected()
      reads this, core
    {
      && FleetOf() == old(FleetOf())
      && Pushed(old(clients), clients, {}, [])
      && core.State() == Without(old(core.State()), old(clients).Keys - clients.Keys)
    }

    method PollSession(session: SessionId, reaction: Reaction<S, E, F>, now: nat)
      requires Valid() && Handles(cfg, FleetOf(), session, reaction)
      modifies this`sessions, this`clients, this`ready, this`readySet, this`disks, this`started, core
      ensures Valid() && FleetOf() == Polled(cfg, limit, old(FleetOf()), session, reaction, now)
      ensures if session in old(sessions)
              then Advanced(old(core.State()), old(clients), session, reaction.events)
              else clients == old(clients) && core.State() == old(core.State())
      ensures session in old(sessions) && (reaction.events != [] || reaction.effects != []) ==>
                && Appended(session, None, None, reaction)
                && session in sessions && sessions[session].app == reaction.after
      ensures session !in old(sessions) || (reaction.events == [] && reaction.effects == []) ==>
                FleetOf() == old(FleetOf())
      ensures RoomFor(old(clients), |reaction.events|) ==> clients.Keys == old(clients).Keys
      ensures session in old(sessions) && RoomFor(old(clients), |reaction.events|) ==>
                Kept(old(clients), clients, old(clients).Keys, |reaction.events|)
    {
      hide Spare, Kept, LabelsFor, FleetInv, CoreInv, LeaderCore.Valid, Without, Pushed, Lives, Settled, SetLedger,
           AfterTransition,
           Recovery.Lawful, EffectHistory.NewIds, EventMessages, Numbered, RoomFor, Recorded;
      if session !in sessions {
        return;
      }
      ghost var first, before := clients, core.State();
      CoreHolds(core);
      KeptNone(first, first.Keys);
      if reaction.events == [] && reaction.effects == [] {
        NothingAdvances(before, session, first);
        return;
      }
      LivesUpdate(core.sessions, sessions, session, sessions[session]);
      ghost var next := AfterTransition(cfg, LiveOf(session), None, None, reaction, now).ledger;
      ghost var targets := core.sessions[session].subscribers;
      SettledRecords(cfg, limit, FleetOf(), session, None, None, reaction, now);
      var _ := ApplyTransition(session, None, None, reaction, now);
      LivesUpdate(core.sessions, sessions, session, sessions[session]);
      AdvancedTo(before, session, next, first.Keys - clients.Keys);
      RoomKept(first, clients, targets, |reaction.events|);
    }

    /** A transition as subscribers and the control plane see it: of `before` and `from` some
        connections may be gone, every subscriber that remains gained exactly these events,
        numbered on, and apart from that only the session's ledger moved. */
    ghost predicate Advanced(before: Core, from: Channels<S, E>, session: SessionId, events: seq<E>)
      reads this, core
    {
      && session in before.sessions && session in core.sessions
      && Pushed(from, clients, before.sessions[session].subscribers,
                EventMessages(session, Numbered(events, before.sessions[session].ledger.sequence)))
      && core.State() == Without(SetLedger(before, session, core.sessions[session].ledger), from.Keys - clients.Keys)
    }

    /** A completion counts only for the running effect at the front of the queue. The session
        is polled once afterwards; `polled` is what that poll finds. */
    method CompleteEffect(session: SessionId, effect: EffectId, reaction: Reaction<S, E, F>,
                          polled: Reaction<S, E, F>, now: nat)
      requires Valid() && Handles(cfg, FleetOf(), session, reaction)
      requires Handles(cfg, Finished(cfg, limit, FleetOf(), session, effect, reaction, now), session, polled)
      modifies this`sessions, this`clients, this`ready, this`readySet, this`disks, this`started, core
      ensures Valid()
      ensures if session in old(sessions) && SessionRun.IsRunning(old(LiveOf(session)), effect)
              then FleetOf() == Polled(cfg, limit, Finished(cfg, limit, old(FleetOf()), session, effect, reaction, now),
                                       session, polled, now)
                   && Advanced(old(core.State()), old(clients), session, reaction.events + polled.events)
              else FleetOf() == old(FleetOf()) && clients == old(clients) && core.State() == old(core.State())
      ensures session in old(sessions) && old(sessions)[session].active == Some(effect) ==>
                && Appended(session, None, Some(effect), reaction)
                && session in FleetOf().lives && Gone(FleetOf().lives[session], disks[session].journal, effect)
      ensures !(session in old(sessions) && old(sessions)[session].active == Some(effect)) ==>
                FleetOf() == old(FleetOf()) && clients == old(clients) && core.State() == old(core.State())
      ensures RoomFor(old(clients), |reaction.events| + |polled.events|) ==> clients.Keys == old(clients).Keys
    {
      hide Spare, Kept, LabelsFor, FleetInv, CoreInv, LeaderCore.Valid, Without, Pushed, Lives, Settled, SetLedger,
           AfterTransition,
           Recovery.Lawful, EffectHistory.NewIds, Polled, EventMessages, Numbered, RoomFor, Recorded, Gone;
      if session !in sessions {
        return;
      }
      var hosted := sessions[session];
      if hosted.active != Some(effect) || hosted.pending == [] || hosted.pending[0].id != effect {
        if hosted.active == Some(effect) {
          LivesUpdate(core.sessions, sessions, session, sessions[session]);
          FrontRuns(cfg, limit, FleetOf(), session, effect);
        }
        return;
      }
      LivesUpdate(core.sessions, sessions, session, sessions[session]);
      ghost var first, before := clients, core.State();
      CoreHolds(core);
      SessionLedger(core, session);
      FinishedRetires(cfg, limit, FleetOf(), session, effect, reaction, polled, now);
      ghost var next := AfterTransition(cfg, LiveOf(session), None, Some(effect), reaction, now).ledger;
      LedgerMoves(cfg, LiveOf(session), Some(effect), reaction, now);
      var _ := ApplyTransition(session, None, Some(effect), reaction, now);
      ghost var mid, midway := clients, core.State();
      AdvancedTo(before, session, next, first.Keys - mid.Keys);
      RoomForBoth(before, first, mid, session, |reaction.events|, |polled.events|);
      PollSession(session, polled, now);
      AdvancedTwice(before, midway, core.State(), session, first, mid, clients, reaction.events, polled.events, next);
    }

    /** A deadline completes the effect with a failure, if it is still running. */
    method TimeoutEffect(session: SessionId, effect: EffectId, reaction: Reaction<S, E, F>,
                         polled: Reaction<S, E, F>, now: nat)
      requires Valid() && Handles(cfg, FleetOf(), session, reaction)
      requires Handles(cfg, Finished(cfg, limit, FleetOf(), session, effect, reaction, now), session, polled)
      modifies this`sessions, this`clients, this`ready, this`readySet, this`disks, this`started, core
      ensures Valid()
      ensures if session in old(sessions) && SessionRun.IsRunning(old(LiveOf(session)), effect)
              then FleetOf() == Polled(cfg, limit, Finished(cfg, limit, old(FleetOf()), session, effect, reaction, now),
                                       session, polled, now)
                   && Advanced(old(core.State()), old(clients), session, reaction.events + polled.events)
              else FleetOf() == old(FleetOf()) && clients == old(clients) && core.State() == old(core.State())
      ensures session in old(sessions) && old(sessions)[session].active == Some(effect) ==>
                && Appended(session, None, Some(effect), reaction)
                && session in FleetOf().lives && Gone(FleetOf().lives[session], disks[session].journal, effect)
      ensures !(session in old(sessions) && old(sessions)[session].active == Some(effect)) ==>
                FleetOf() == old(FleetOf()) && clients == old(clients) && core.State() == old(core.State())
      ensures RoomFor(old(clients), |reaction.events| + |polled.events|) ==> clients.Keys == old(clients).Keys
    {
      hide Spare, Kept, LabelsFor, FleetInv, CoreInv, LeaderCore.Valid, Lives, Settled, Handles, Polled, Finished,
           Pushed, Without, SetLedger, EventMessages, Numbered, RoomFor, Recorded, Gone;
      if session in sessions && sessions[session].active == Some(effect) {
        CompleteEffect(session, effect, reaction, polled, now);
      }
    }

    /** Brings an attaching client up to date: the events it missed while the history still
        has them, otherwise the whole state. */
    method ReplayOrSnapshot(connection: ConnectionId, session: SessionId, after: Option<nat>)
      requires Valid() && session in sessions
      modifies this`clients, core
      ensures Valid() && FleetOf() == old(FleetOf())
      ensures Pushed(old(clients), clients, {connection},
                     CatchUp(session, old(sessions)[session].events, old(sessions)[session].app,
                             old(core.sessions)[session].ledger.sequence, after))
      ensures core.State() == Without(old(core.State()), old(clients).Keys - clients.Keys)
      ensures RoomFor(old(clients), Max(1, |old(sessions)[session].events|)) ==> clients.Keys == old(clients).Keys
    {
      hide Spare, Kept, RoomFor, LabelsFor, FleetInv, Without, Pushed, Lives, CoreInv, Ledgers.Valid, Received,
           Announced;
      ghost var first, before, fleet := clients, core.State(), FleetOf();
      var hosted := sessions[session];
      ghost var room := Max(1, |hosted.events|);
      if !Covers(hosted.events, after) {
        if RoomFor(first, room) {
          RoomForLess(first, room, 1);
        }
        Send(connection, Snapshot(session, core.sessions[session].ledger.sequence, hosted.app));
        RoomForAnswer(first, clients, connection);
      } else {
        var missed := Above(hosted.events, after.value);
        AboveIsFilter(hosted.events, after.value);
        if RoomFor(first, room) {
          RoomForLess(first, room, |missed|);
          RoomForTarget(first, connection, |missed|);
        }
        Replay(connection, session, missed);
      }
      OnlyConnections(labels, before, first.Keys - clients.Keys, sessions);
      assert FleetOf() == fleet;
      assert Shape();
    }

    /** Sends one client events of the history, in order. */
    method Replay(connection: ConnectionId, session: SessionId, missed: seq<Sequenced<E>>)
      requires Wired()
      modifies this`clients, core
      ensures Wired()
      ensures Pushed(old(clients), clients, {connection}, EventMessages(session, missed))
      ensures core.State() == Without(old(core.State()), old(clients).Keys - clients.Keys)
      ensures Spare(old(clients), {connection}, |missed|) ==> clients.Keys == old(clients).Keys
    {
      hide Spare, Kept, Without, Pushed, CoreInv, Received, Announced;
      ghost var first, before := clients, core.State();
      KeptNone(first, {connection});
      WithoutNone(before);
      PushedNothing(first, {connection});
      assert first.Keys - clients.Keys == {};
      assert EventMessages<S, E>(session, missed[..0]) == [];
      for k := 0 to |missed|
        invariant Wired() && clients.Keys <= first.Keys
        invariant Pushed(first, clients, {connection}, EventMessages(session, missed[..k]))
        invariant core.State() == Without(before, first.Keys - clients.Keys)
        invariant Spare(first, {connection}, |missed|) ==> Kept(first, clients, {connection}, k)
      {
        ghost var mid := clients;
        ghost var message: Message<S, E> := Event(session, missed[k].sequence, missed[k].event);
        Send(connection, Event(session, missed[k].sequence, missed[k].event));
        if Spare(first, {connection}, |missed|) {
          KeptNextRound(first, mid, clients, {connection}, k, |missed|);
        }
        PushedThen(first, mid, clients, {connection}, EventMessages(session, missed[..k]), [message]);
        assert EventMessages<S, E>(session, missed[..k + 1]) == EventMessages(session, missed[..k]) + [message];
        PushedKeys(mid, clients, {connection}, [message]);
        Rejoin(before, first.Keys, mid.Keys, clients.Keys);
      }
      assert missed[..|missed|] == missed;
      if Spare(first, {connection}, |missed|) {
        NobodyGone(first, clients, {connection}, |missed|);
      }
    }

    /** Tells the subscribers of a session who drives it now. */
    method AnnounceDriver(session: SessionId)
      requires Valid() && session in core.sessions
      modifies this`clients, core
      ensures Valid() && Unaffected()
      ensures SubscribersTold(old(core.State()), session, old(clients), clients)
      ensures RoomFor(old(clients), 1) ==> Kept(old(clients), clients, old(clients).Keys, 1)
    {
      hide Spare, Kept, LabelsFor, FleetInv, Without, Pushed, Lives, CoreInv, Ledgers.Valid, Received, Announced;
      ghost var before := core.State();
      var subscribers := core.Subscribers(session);
      BroadcastDriver(DriverChange(session, core.sessions[session].driver, subscribers));
      RoomKeptBy(old(clients), clients, Members(subscribers));
      OnlyConnections(labels, before, old(clients).Keys - clients.Keys, sessions);
    }

    /** What a session owes a client whose last sequence is `after`. */
    ghost function Owed(session: SessionId, after: Option<nat>): seq<Message<S, E>>
      requires session in sessions && session in core.sessions
      reads this, core
    {
      CatchUp(session, sessions[session].events, sessions[session].app, core.sessions[session].ledger.sequence, after)
    }

    /** Seen from outside, that is the missed events, or one snapshot. */
    ghost predicate CaughtUpBy(session: SessionId, after: Option<nat>, sent: seq<Message<S, E>>)
      reads this, core
    {
      && session in sessions && session in core.sessions
      && CaughtUp(session, sessions[session].events, sessions[session].app, core.sessions[session].ledger.sequence,
                  after, sent)
    }

    ghost predicate RoomToAttach(session: SessionId)
      reads this
    {
      session in sessions && RoomFor(clients, 1 + Max(1, |sessions[session].events|))
    }

    /** Announces a new lease, and brings the client that just joined up to date. */
    method Welcome(connection: ConnectionId, session: SessionId, after: Option<nat>, changed: bool)
      requires Valid() && session in sessions && session in core.sessions
      modifies this`clients, core
      ensures Valid() && FleetOf() == old(FleetOf())
      ensures core.State() == Without(old(core.State()), old(clients).Keys - clients.Keys)
      ensures changed ==> SubscribersTold(old(core.State()), session, old(clients), clients)
      ensures Pushed(old(clients), clients, {connection}, old(Owed(session, after)))
      ensures old(RoomToAttach(session)) ==> clients.Keys == old(clients).Keys
    {
      hide Spare, Kept, LabelsFor, FleetInv, Without, Pushed, Lives, CoreInv, CatchUp, LeaderCore.Valid,
           SubscribersTold, RoomFor;
      ghost var first, joined, fleet := clients, core.State(), FleetOf();
      ghost var pushes, history := Owed(session, after), Max(1, |sessions[session].events|);
      CoreHolds(core);
      WithoutNone(joined);
      PushedNothing(first, {});
      KeptNone(first, first.Keys);
      KeptWithin(first, first, first.Keys, first.Keys, 0, 1);
      if RoomFor(first, 1 + history) {
        RoomForLess(first, 1 + history, 1);
      }
      assert first.Keys - clients.Keys == {};
      if changed {
        AnnounceDriver(session);
      }
      ghost var mid := clients;
      if RoomFor(first, 1 + history) {
        RoomStill(first, mid, history);
      }
      PushedKeys(first, mid, {}, []);
      WithoutSession(joined, first.Keys - mid.Keys, session);
      ReplayOrSnapshot(connection, session, after);
      PushedKeys(mid, clients, {connection}, pushes);
      PushedAfterQuiet(first, mid, clients, {connection}, pushes);
      if changed {
        StillSubscribersTold(joined, session, first, mid, clients, {connection}, pushes);
      }
      Rejoin(joined, first.Keys, mid.Keys, clients.Keys);
      assert FleetOf() == fleet;
    }

    /** A client joins a session, to watch it or to drive it. */
    method AttachSession(
      connection: ConnectionId, session: SessionId, mode: AttachmentMode, after: Option<nat>, force: bool)
      returns (outcome: Result<Attachment, CoreError>)
      requires Valid()
      modifies this`clients, core
      ensures Valid() && FleetOf() == old(FleetOf())
      ensures var check := AttachCheck(old(core.State()), connection, session, mode, force);
              if check.Some?
              then outcome == Err(check.value) && core.State() == old(core.State()) && clients == old(clients)
              else
                && session in old(sessions) && session in old(core.sessions) && outcome.Ok?
                && var joined := ControlPlane.Attach(old(core.State()), connection, session, mode);
                && session in joined.sessions
                && outcome.value.changed == Grants(old(core.State()), connection, session, mode)
                && outcome.value.lease == (if mode == Drive then Some(joined.sessions[session].epoch) else None)
                && core.State() == Without(joined, old(clients).Keys - clients.Keys)
                && (outcome.value.changed ==> SubscribersTold(joined, session, old(clients), clients))
                && Pushed(old(clients), clients, {connection}, old(Owed(session, after)))
      ensures AttachRules(old(core.State()), connection, session, mode, force, outcome)
      ensures outcome.Err? ==> core.State() == old(core.State()) && clients == old(clients)
      ensures outcome.Ok? ==>
                && connection in old(core.clients) && session in old(core.sessions) && session in old(sessions)
                && old(CaughtUpBy(session, after, Owed(session, after)))
      ensures outcome.Ok? && old(RoomToAttach(session)) ==>
                && clients.Keys == old(clients).Keys
                && connection in old(core.clients) && session in old(core.sessions)
                && Joins(old(core.State()), core.State(), connection, session, outcome.value)
    {
      hide Spare, Kept, LabelsFor, FleetInv, Without, Pushed, Lives, CoreInv, CatchUp, ControlPlane.Attach, AttachCheck,
           LeaderCore.Valid, Grants, SubscribersTold, AttachRules, Joins, CaughtUp, RoomFor;
      ghost var before := core.State();
      AttachFacts(before, connection, session, mode, force, sessions);
      outcome := core.Attach(connection, session, mode, force);
      if outcome.Err? {
        return;
      }
      LabelsAttach(labels, before, connection, session, mode);
      CatchUpCatchesUp<S, E>(session, sessions[session].events, sessions[session].app,
                             before.sessions[session].ledger.sequence, after);
      CoreHolds(core);
      WithoutNone(core.State());
      Welcome(connection, session, after, outcome.value.changed);
      assert old(clients).Keys - old(clients).Keys == {};
    }

    /** A client takes over a session it already watches, without catching up again. */
    method AcquireDriver(
      connection: ConnectionId, session: SessionId, force: bool) returns (outcome: Result<Attachment, CoreError>)
      requires Valid()
      modifies this`clients, core
      ensures Valid() && FleetOf() == old(FleetOf()) && Pushed(old(clients), clients, {}, [])
      ensures var check := AttachCheck(old(core.State()), connection, session, Drive, force);
              if check.Some?
              then outcome == Err(check.value) && core.State() == old(core.State()) && clients == old(clients)
              else
                && session in old(sessions) && outcome.Ok?
                && var joined := ControlPlane.Attach(old(core.State()), connection, session, Drive);
                && session in joined.sessions
                && outcome.value.lease == Some(joined.sessions[session].epoch)
                && core.State() == Without(joined, old(clients).Keys - clients.Keys)
                && (outcome.value.changed ==> SubscribersTold(joined, session, old(clients), clients))
      ensures AttachRules(old(core.State()), connection, session, Drive, force, outcome)
      ensures outcome.Err? ==> core.State() == old(core.State()) && clients == old(clients)
      ensures outcome.Ok? && RoomFor(old(clients), 1) ==>
                && clients.Keys == old(clients).Keys
                && connection in old(core.clients) && session in old(core.sessions)
                && Joins(old(core.State()), core.State(), connection, session, outcome.value)
    {
      hide Spare, Kept, LabelsFor, FleetInv, Without, Pushed, Lives, CoreInv, ControlPlane.Attach, AttachCheck,
           LeaderCore.Valid, Grants, SubscribersTold, AttachRules, Joins, RoomFor;
      ghost var before := core.State();
      AttachFacts(before, connection, session, Drive, force, sessions);
      outcome := core.Attach(connection, session, Drive, force);
      if outcome.Ok? {
        LabelsAttach(labels, before, connection, session, Drive);
      }
      CoreHolds(core);
      WithoutNone(core.State());
      PushedNothing(clients, {});
      assert old(clients).Keys - clients.Keys == {};
      if outcome.Ok? && outcome.value.changed {
        AnnounceDriver(session);
      }
      KeptKeys(old(clients), clients);
    }

    method DetachSession(connection: ConnectionId, session: SessionId) returns (outcome: Result<bool, CoreError>)
      requires Valid()
      modifies this`clients, core
      ensures Valid() && FleetOf() == old(FleetOf()) && Pushed(old(clients), clients, {}, [])
      ensures var check := DetachCheck(old(core.State()), connection, session);
              if check.Some?
              then
                && outcome == Err(check.value)
                && core.State() == Without(old(core.State()), old(clients).Keys - clients.Keys)
              else
                var left := ControlPlane.Detach(old(core.State()), connection, session);
                && outcome == Ok(Owns(old(core.State()), connection, session))
                && core.State() == Without(left, old(clients).Keys - clients.Keys)
                && (outcome.value ==> SubscribersTold(left, session, old(clients), clients))
      ensures outcome.Ok? <==>
                && connection in old(core.clients) && session in old(core.clients)[connection].sessions
                && session in old(core.sessions)
      ensures outcome.Ok? && RoomFor(old(clients), 1) ==>
                && clients.Keys == old(clients).Keys && session in old(core.sessions)
                && Leaves(old(core.State()), core.State(), connection, session)
    {
      hide Spare, Kept, LabelsFor, FleetInv, Without, Pushed, Lives, CoreInv, ControlPlane.Detach, LeaderCore.Valid,
           SubscribersTold, Owns;
      ghost var before := core.State();
      DetachFacts(before, connection, session, sessions);
      outcome := core.Detach(connection, session);
      if outcome.Ok? {
        LabelsDetach(labels, before, connection, session);
      }
      CoreHolds(core);
      WithoutNone(core.State());
      PushedNothing(clients, {});
      assert old(clients).Keys - clients.Keys == {};
      if outcome.Ok? && outcome.value {
        AnnounceDriver(session);
      }
      KeptKeys(old(clients), clients);
    }

    method ReleaseDriver(connection: ConnectionId, session: SessionId) returns (error: Option<CoreError>)
      requires Valid()
      modifies this`clients, core
      ensures Valid() && FleetOf() == old(FleetOf()) && Pushed(old(clients), clients, {}, [])
      ensures error == ReleaseCheck(old(core.State()), connection, session)
      ensures core.State() == Without(if error.Some? then old(core.State()) else Release(old(core.State()), session),
                                      old(clients).Keys - clients.Keys)
      ensures error.None? ==> session in old(core.sessions)
                              && SubscribersTold(Release(old(core.State()), session), session, old(clients), clients)
      ensures error.None? <==>
                && connection in old(core.clients) && session in old(core.clients)[connection].sessions
                && session in old(core.sessions) && old(core.sessions)[session].driver.Some?
                && old(core.sessions)[session].driver.value.owner == old(core.clients)[connection].instance
      ensures error.None? && RoomFor(old(clients), 1) ==>
                && clients.Keys == old(clients).Keys && session in core.sessions && core.sessions[session].driver.None?
    {
      hide Spare, Kept, LabelsFor, FleetInv, Without, Pushed, Lives, CoreInv, Release, LeaderCore.Valid,
           SubscribersTold;
      ghost var before := core.State();
      ReleaseFacts(before, connection, session, sessions);
      error := core.ReleaseDriver(connection, session);
      if error.None? {
        LabelsRelease(labels, before, session);
      }
      CoreHolds(core);
      WithoutNone(core.State());
      PushedNothing(clients, {});
      assert old(clients).Keys - clients.Keys == {};
      if error.None? {
        AnnounceDriver(session);
      }
      KeptKeys(old(clients), clients);
    }

    /** Creates a session under an identity that was never used before. */
    method CreateSession(id: SessionId, name: string, app: S) returns (error: Option<CoreError>)
      requires Valid() && id !in sessions && forall x :: x in started ==> x.session != id
      modifies this`sessions, this`disks, this`labels, core
      ensures Valid()
      ensures error == if !ValidName(Texts.Trim(name)) then Some(InvalidName)
                       else if Texts.Trim(name) in old(core.names) then Some(DuplicateName)
                       else None
      ensures FleetOf() == if error.Some? then old(FleetOf()) else Added(old(FleetOf()), id, app)
      ensures core.State() == if error.Some? then old(core.State())
                              else AddSession(old(core.State()), id, NewControl(Texts.Trim(name)))
      ensures labels == if error.Some? then old(labels) else old(labels)[id := Label(Texts.Trim(name), 0)]
    {
      hide LabelsFor, FleetInv, CoreInv, LeaderCore.Valid, Lives, AddSession, Ledgers.Snapshot, Ledgers.Pairs,
           Texts.Trim, ValidName;
      CoreHolds(core);
      NeverRan(started, id);
      TrimTwice(name);
      LabelsAdd(labels, core.State(), id, NewControl(Texts.Trim(name)), Label(Texts.Trim(name), 0));
      AddedKeeps(cfg, limit, FleetOf(), id, app);
      AddedLives(core.State(), sessions, id, Texts.Trim(name), app);
      error := core.CreateSession(id, name);
      if error.None? {
        var hosted := Hosted(app, [], [], None, 0);
        sessions := sessions[id := hosted];
        disks := disks[id := Disk(Checkpoint(Ledgers.Snapshot(core.sessions[id].ledger), app, 0,
                                             EffectQueue.EncodeAll(hosted.pending)), [])];
        labels := labels[id := Label(core.sessions[id].name, 0)];
      }
    }

    /** Ends a session and erases its directory. No queued effect is started in its place. */
    method StopSession(session: SessionId) returns (error: Option<CoreError>)
      requires Valid()
      modifies this`sessions, this`disks, this`labels, this`ready, this`readySet, core
      ensures Valid() && error == if session in old(sessions) then None else Some(UnknownSession)
      ensures FleetOf() == if error.Some? then old(FleetOf()) else Removed(old(FleetOf()), session)
      ensures core.State() == if error.Some? then old(core.State())
                              else ControlPlane.RemoveSession(old(core.State()), session)
      ensures labels == old(labels) - {session}
      ensures error.None? && old(Conserving(limit, FleetOf())) ==>
                (Conserving(limit, FleetOf()) <==> old(ready) == [] || old(sessions)[session].active.None?)
    {
      hide LabelsFor, FleetInv, CoreInv, LeaderCore.Valid, Lives, ControlPlane.RemoveSession, Conserving, RemoveOne;
      if session !in sessions {
        assert session !in labels by {
          LabelKeys(labels, core.sessions);
        }
        return Some(UnknownSession);
      }
      ghost var fleet := FleetOf();
      LabelsRemove(labels, core.State(), session);
      StoppedFacts(cfg, limit, FleetOf(), core.State(), sessions, session);
      disks := disks - {session};
      labels := labels - {session};
      sessions := sessions - {session};
      readySet := readySet - {session};
      ready := RemoveOne(ready, session);
      error := core.RemoveSession(session);
      assert FleetOf() == Removed(fleet, session);
    }

    /** Loads every stored session, in no particular order; stops at a name that is taken. */
    method AdoptAll(stored: map<SessionId, Disk<S, E, F>>, tags: map<SessionId, Label>,
                    ghost before: Fleet<S, E, F>) returns (ok: bool)
      requires Shape() && core.State() == EMPTY_CORE && clients == map[]
      requires FleetOf() == Fleet(map[], map[], [], before.started) && labels == map[]
      requires SessionsInv(cfg, before) && before.disks == stored && tags.Keys == stored.Keys
      modifies this`sessions, this`disks, this`labels, core
      ensures Shape()
      ensures ok ==> LabelsFor(labels, core.sessions)
      ensures !ok ==> NamesClash(tags)
      ensures ok ==> FleetOf() == Fleet(Loaded(cfg, stored), stored, [], before.started)
                     && ControlsFor(cfg, core.sessions, stored, tags)
    {
      hide LabelsFor, FleetInv, CoreInv, LeaderCore.Valid, Lives, Load, Ledgers.Valid, AddSession, Loaded, ControlsFor,
           SessionsInv, Texts.Trim, NamesClash;
      LoadedNone(cfg, stored, tags);
      LabelsNone();
      var todo := stored.Keys;
      while todo != {}
        invariant Shape() && todo <= stored.Keys && LabelsFor(labels, core.sessions)
        invariant FleetOf() == Fleet(Loaded(cfg, stored - todo), stored - todo, [], before.started)
        invariant ControlsFor(cfg, core.sessions, stored - todo, tags)
        decreases |todo|
      {
        var s :| s in todo;
        var live := LoadSession(cfg, stored[s]);
        Recovered(cfg, before, s);
        LoadedOne(cfg, stored, tags, todo, s, core.sessions);
        if Texts.Trim(tags[s].name) in core.names {
          CoreHolds(core);
          Clash(cfg, core.State(), stored - todo, tags, s);
        }
        AddedFacts(core.State(), s, Reopened(tags[s], live.ledger));
        ok := Adopt(s, stored[s], tags[s], live);
        if !ok {
          return;
        }
        todo := todo - {s};
      }
      assert stored - todo == stored;
      ok := true;
    }

    /** Refreshes the checkpoints of freshly loaded sessions and resumes their effects. */
    method Resume(ghost before: Fleet<S, E, F>)
      requires Shape() && SessionsInv(cfg, before) && LabelsFor(labels, core.sessions)
      requires FleetOf() == Fleet(Loaded(cfg, before.disks), before.disks, [], before.started)
      modifies this`sessions, this`disks, this`labels, this`ready, this`readySet, this`started
      ensures Valid() && exists queue :: Resumes(cfg, before, queue, limit, FleetOf())
    {
      hide LabelsFor, FleetInv, CoreInv, LeaderCore.Valid, Lives, Loaded, CheckpointedAll, Fleets.Reloaded,
           Dispatched, SessionsInv, QueueInv;
      Fleets.ReloadedKeeps(cfg, before);
      ReloadedChecked(cfg, before.disks, before.started);
      CheckpointAll();
      ScheduleAll();
      ghost var queue := ready;
      ReloadedReady(cfg, limit, before, queue);
      DispatchEffects();
      assert Resumes(cfg, before, queue, limit, FleetOf()) by {
        ReloadedKeysFact(cfg, before);
      }
    }

    method RenameSession(session: SessionId, name: string) returns (error: Option<CoreError>)
      requires Valid()
      modifies this`disks, this`labels, core
      ensures Valid()
      ensures error == if !ValidName(Texts.Trim(name)) then Some(InvalidName)
                       else if Texts.Trim(name) in old(core.names) && old(core.names)[Texts.Trim(name)] != session
                       then Some(DuplicateName)
                       else if session !in old(sessions) then Some(UnknownSession)
                       else None
      ensures FleetOf() == if error.Some? then old(FleetOf()) else Checkpointed(old(FleetOf()), session)
      ensures core.State() == if error.Some? then old(core.State())
                              else Rename(old(core.State()), session, Texts.Trim(name))
      ensures error.None? ==> session in labels && labels[session].name == Texts.Trim(name)
    {
      hide LabelsFor, FleetInv, CoreInv, LeaderCore.Valid, Lives, Checkpointed, Rename;
      if session in sessions {
        CheckpointedKeeps(cfg, limit, FleetOf(), session);
        RenamedLives(core.State(), sessions, session, Texts.Trim(name));
        LabelsRename(labels, core.State(), session, name);
      }
      error := core.RenameSession(session, name);
      if error.None? {
        PersistCheckpoint(session);
      }
    }

    /** A graceful end: every checkpoint is brought up to date. */
    method Shutdown()
      requires Valid()
      modifies this`disks, this`labels
      ensures Valid() && FleetOf() == CheckpointedAll(old(FleetOf()))
      ensures forall s :: s in sessions ==>
                s in labels && labels[s] == Label(core.sessions[s].name, core.sessions[s].epoch)
    {
      hide LabelsFor, FleetInv, CoreInv, LeaderCore.Valid, Lives, CheckpointedAll;
      CheckpointedAllKeeps(cfg, limit, FleetOf());
      CheckpointAll();
    }

    /** Takes one recovered session in. Fails when its name is taken. */
    method Adopt(session: SessionId, disk: Disk<S, E, F>, tag: Label, live: Live<S, E, F>) returns (ok: bool)
      requires Shape() && session !in sessions && ready == [] && LabelsFor(labels, core.sessions)
      requires Ledgers.Valid(live.ledger, cfg.window)
      modifies this`sessions, this`disks, this`labels, core
      ensures Shape() && core.clients == old(core.clients)
      ensures ok <==> Texts.Trim(tag.name) !in old(core.names)
      ensures labels == (if ok then old(labels)[session := tag] else old(labels)) && LabelsFor(labels, core.sessions)
      ensures !ok ==> core.State() == old(core.State()) && sessions == old(sessions) && disks == old(disks)
      ensures ok ==>
                && core.State() == AddSession(old(core.State()), session, Reopened(tag, live.ledger))
                && FleetOf() == old(FleetOf()).(lives := old(FleetOf()).lives[session := live],
                                                disks := old(disks)[session := disk])
    {
      hide LabelsFor, CoreInv, Lives, Ledgers.Valid, Ledgers.Snapshot, Ledgers.Restore, LeaderCore.Valid, AddSession,
           Texts.Trim;
      ghost var control := Reopened(tag, live.ledger);
      Ledgers.SnapshotRoundTrip(live.ledger, cfg.window);
      var snapshot := Ledgers.Snapshot(live.ledger);
      assert RestoredControl(Texts.Trim(tag.name), tag.epoch, snapshot) == control;
      LabelsAdd(labels, core.State(), session, control, tag);
      AdoptedLives(core.State(), sessions, session, control, live.hosted);
      var error := core.RestoreSession(session, tag.name, tag.epoch, snapshot);
      ok := error.None?;
      if ok {
        sessions := sessions[session := live.hosted];
        disks := disks[session := disk];
        labels := labels[session := tag];
      }
    }

    /** Queues every session with pending effects, in no particular order. */
    method ScheduleAll()
      requires Shape() && ready == []
      modifies this`ready, this`readySet
      ensures Shape() && FleetOf() == old(FleetOf()).(ready := ready) && QueueInv(FleetOf())
    {
      hide CoreInv, LeaderCore.Valid, Lives;
      ghost var fleet := FleetOf();
      var todo := sessions.Keys;
      while todo != {}
        invariant todo <= sessions.Keys && Shape() && FleetOf() == fleet.(ready := ready)
        invariant Sequences.NoDup(ready)
        invariant forall s :: s in ready ==> s in fleet.lives && s !in todo && IsReady(fleet.lives[s])
        invariant forall s :: s in fleet.lives && s !in todo && IsReady(fleet.lives[s]) ==> s in ready
        decreases |todo|
      {
        var s :| s in todo;
        todo := todo - {s};
        ScheduleEffect(s);
      }
    }

    ghost function LiveOf(session: SessionId): Live<S, E, F>
      requires session in sessions && session in core.sessions
      reads this, core
    {
      Live(core.sessions[session].ledger, sessions[session])
    }
  }

  // ----- what checkpoints say about names and epochs -----

  ghost predicate LabelsFor(labels: map<SessionId, Label>, controls: map<SessionId, Control>) {
    labels.Keys == controls.Keys && forall s :: s in controls ==> Names(labels[s], controls[s])
  }

  /** The label gives the session's name back, and an epoch the session has reached. */
  predicate Names(tag: Label, control: Control) {
    Texts.Trim(tag.name) == control.name && Texts.Trim(control.name) == control.name && tag.epoch <= control.epoch
  }

  lemma {:induction false} TrimTwice(name: string)
    ensures Texts.Trim(Texts.Trim(name)) == Texts.Trim(name)
  {
  }

  lemma LabelsNone()
    ensures LabelsFor(map[], map[])
  {
  }

  lemma LabelKeys(labels: map<SessionId, Label>, controls: map<SessionId, Control>)
    requires LabelsFor(labels, controls)
    ensures labels.Keys == controls.Keys
  {
  }

  lemma LabelsStay(labels: map<SessionId, Label>, before: map<SessionId, Control>, after: map<SessionId, Control>)
    requires LabelsFor(labels, before) && after.Keys == before.Keys
    requires forall s :: s in before ==> after[s].name == before[s].name && before[s].epoch <= after[s].epoch
    ensures LabelsFor(labels, after)
  {
  }

  lemma LabelsWithout(labels: map<SessionId, Label>, core: Core, gone: set<ConnectionId>)
    requires LabelsFor(labels, core.sessions)
    ensures LabelsFor(labels, Without(core, gone).sessions)
  {
    LabelsStay(labels, core.sessions, Without(core, gone).sessions);
  }

  /** Connections that go touch no session and no label. */
  lemma OnlyConnections<S, E, F>(
    labels: map<SessionId, Label>, core: Core, gone: set<ConnectionId>, hosts: map<SessionId, Hosted<S, E, F>>)
    requires LabelsFor(labels, core.sessions)
    ensures LabelsFor(labels, Without(core, gone).sessions)
    ensures Lives(Without(core, gone).sessions, hosts) == Lives(core.sessions, hosts)
    ensures Without(core, gone).clients == core.clients - gone
    ensures Without(core, gone).sessions.Keys == core.sessions.Keys
  {
    LabelsWithout(labels, core, gone);
  }

  lemma LabelsUnderLedger(labels: map<SessionId, Label>, core: Core, s: SessionId, ledger: Ledgers.Ledger,
                          gone: set<ConnectionId>)
    requires LabelsFor(labels, core.sessions) && s in core.sessions
    ensures LabelsFor(labels, Without(SetLedger(core, s, ledger), gone).sessions)
  {
    LabelsStay(labels, core.sessions, SetLedger(core, s, ledger).sessions);
    LabelsWithout(labels, SetLedger(core, s, ledger), gone);
  }

  lemma LabelsAttach(
    labels: map<SessionId, Label>, core: Core, connection: ConnectionId, s: SessionId, mode: AttachmentMode)
    requires LabelsFor(labels, core.sessions) && connection in core.clients && s in core.sessions
    ensures LabelsFor(labels, ControlPlane.Attach(core, connection, s, mode).sessions)
  {
    LabelsStay(labels, core.sessions, ControlPlane.Attach(core, connection, s, mode).sessions);
  }

  lemma LabelsDetach(labels: map<SessionId, Label>, core: Core, connection: ConnectionId, s: SessionId)
    requires LabelsFor(labels, core.sessions) && connection in core.clients && s in core.sessions
    ensures LabelsFor(labels, ControlPlane.Detach(core, connection, s).sessions)
  {
    LabelsStay(labels, core.sessions, ControlPlane.Detach(core, connection, s).sessions);
  }

  lemma LabelsRelease(labels: map<SessionId, Label>, core: Core, s: SessionId)
    requires LabelsFor(labels, core.sessions) && s in core.sessions
    ensures LabelsFor(labels, Release(core, s).sessions)
  {
    LabelsStay(labels, core.sessions, Release(core, s).sessions);
  }

  lemma LabelsPut(
    labels: map<SessionId, Label>, controls: map<SessionId, Control>, s: SessionId, tag: Label, control: Control)
    requires LabelsFor(labels, controls) && Names(tag, control)
    ensures LabelsFor(labels[s := tag], controls[s := control])
  {
    hide Names;
  }

  lemma LabelsAdd(labels: map<SessionId, Label>, core: Core, s: SessionId, control: Control, tag: Label)
    requires LabelsFor(labels, core.sessions)
    requires control.name == Texts.Trim(tag.name) && tag.epoch <= control.epoch
    ensures LabelsFor(labels[s := tag], AddSession(core, s, control).sessions)
  {
    hide LabelsFor, Texts.Trim;
    TrimTwice(tag.name);
    LabelsPut(labels, core.sessions, s, tag, control);
  }

  lemma LabelsRename(labels: map<SessionId, Label>, core: Core, s: SessionId, name: string)
    requires LabelsFor(labels, core.sessions) && s in core.sessions
    ensures var renamed := Rename(core, s, Texts.Trim(name));
            && s in renamed.sessions
            && LabelsFor(labels[s := Label(renamed.sessions[s].name, renamed.sessions[s].epoch)], renamed.sessions)
  {
    hide LabelsFor, Texts.Trim;
    TrimTwice(name);
    var control := core.sessions[s].(name := Texts.Trim(name));
    LabelsPut(labels, core.sessions, s, Label(control.name, control.epoch), control);
  }

  lemma LabelsRemove(labels: map<SessionId, Label>, core: Core, s: SessionId)
    requires LabelsFor(labels, core.sessions) && s in core.sessions
    ensures LabelsFor(labels - {s}, ControlPlane.RemoveSession(core, s).sessions)
  {
  }

  /** Every label is current except those still to do. */
  ghost predicate CurrentExcept(
    labels: map<SessionId, Label>, controls: map<SessionId, Control>, todo: set<SessionId>)
  {
    && labels.Keys == controls.Keys
    && forall s :: s in controls && s !in todo ==> labels[s] == Label(controls[s].name, controls[s].epoch)
  }

  lemma NoneCurrent(labels: map<SessionId, Label>, controls: map<SessionId, Control>)
    requires LabelsFor(labels, controls)
    ensures CurrentExcept(labels, controls, controls.Keys)
  {
  }

  lemma CurrentOneMore(
    labels: map<SessionId, Label>, controls: map<SessionId, Control>, todo: set<SessionId>, s: SessionId)
    requires CurrentExcept(labels, controls, todo) && s in controls
    ensures CurrentExcept(labels[s := Label(controls[s].name, controls[s].epoch)], controls, todo - {s})
  {
  }

  /** A rewritten checkpoint names the session and stores its epoch as they stand. */
  lemma LabelsCurrent(labels: map<SessionId, Label>, now: map<SessionId, Label>, controls: map<SessionId, Control>)
    requires LabelsFor(labels, controls) && CurrentExcept(now, controls, {})
    ensures LabelsFor(now, controls)
    ensures forall s :: s in controls ==> s in now && now[s] == Label(controls[s].name, controls[s].epoch)
  {
  }

  // ----- what a command is answered -----

  /** A request its own client sends on an attached connection is answered with its first
      sequence when it is remembered, and otherwise is put to the application exactly for the
      driver; everything else is refused. */
  ghost predicate ReplyRules(
    core: Core, connection: ConnectionId, session: SessionId, lease: nat, request: RequestId, accepts: bool,
    reply: Reply)
  {
    var entitled := Entitled(core, connection, session, request);
    && (entitled && request in core.sessions[session].ledger.committed ==>
          reply == Accepted(session, core.sessions[session].ledger.committed[request], true))
    && (entitled && request !in core.sessions[session].ledger.committed && Drives(core, session, request, lease) ==>
          reply == if accepts then Accepted(session, core.sessions[session].ledger.sequence + 1, false) else Rejected)
    && (reply.Refused? <==>
          !entitled
          || (request !in core.sessions[session].ledger.committed && !Drives(core, session, request, lease)))
    && (reply.Refused? || reply.Rejected? || reply.Accepted?)
  }

  /** A resend of any of the newest window of commits in the journal is answered with the
      sequence that was journaled, whatever its lease and whoever drives. */
  ghost predicate ResendRules<E, F>(
    window: nat, journal: Journal<E, F>, core: Core, connection: ConnectionId, session: SessionId, request: RequestId,
    reply: Reply)
  {
    var commits := RequestHistory.Commits(journal);
    Entitled(core, connection, session, request) ==>
      forall b: nat :: b < |commits| && |commits| - window <= b && commits[b].request == request ==>
        reply == Accepted(session, commits[b].sequence, true)
  }

  lemma ResendsKnown<S, E, F>(
    cfg: Config<S, E>, limit: nat, fleet: Fleet<S, E, F>, core: LeaderCore, hosts: map<SessionId, Hosted<S, E, F>>,
    connection: ConnectionId, session: SessionId, lease: nat, request: RequestId,
    verdict: Result<Authorization, CoreError>)
    requires FleetInv(cfg, limit, fleet)
    requires fleet.lives == Lives(core.sessions, hosts) && hosts.Keys == core.sessions.Keys
    requires Rules(core.State(), connection, session, lease, request, verdict)
    ensures match verdict
            case Err(e) =>
              ReplyRules(core.State(), connection, session, lease, request, true, Refused(e))
              && ReplyRules(core.State(), connection, session, lease, request, false, Refused(e))
            case Ok(Duplicate(n)) =>
              && Entitled(core.State(), connection, session, request)
              && ReplyRules(core.State(), connection, session, lease, request, true, Accepted(session, n, true))
              && ReplyRules(core.State(), connection, session, lease, request, false, Accepted(session, n, true))
            case Ok(Apply) =>
              && session in core.sessions
              && ReplyRules(core.State(), connection, session, lease, request, false, Rejected)
              && ReplyRules(core.State(), connection, session, lease, request, true,
                            Accepted(session, core.sessions[session].ledger.sequence + 1, false))
    ensures session in fleet.disks ==>
              forall reply :: ReplyRules(core.State(), connection, session, lease, request, true, reply)
                              || ReplyRules(core.State(), connection, session, lease, request, false, reply) ==>
                ResendRules(cfg.window, fleet.disks[session].journal, core.State(), connection, session, request, reply)
  {
    hide SessionRun.SessionInv;
    if Entitled(core.State(), connection, session, request) && session in fleet.disks {
      LivesUpdate(core.sessions, hosts, session, hosts[session]);
      var commits := RequestHistory.Commits(fleet.disks[session].journal);
      forall b: nat | b < |commits| && |commits| - cfg.window <= b && commits[b].request == request
        ensures request in core.sessions[session].ledger.committed
        ensures core.sessions[session].ledger.committed[request] == commits[b].sequence
      {
        NewestAreKnown(cfg, fleet, session, b);
      }
    }
  }

  lemma FrontRuns<S, E, F>(cfg: Config<S, E>, limit: nat, fleet: Fleet<S, E, F>, s: SessionId, effect: EffectId)
    requires FleetInv(cfg, limit, fleet) && s in fleet.lives && fleet.lives[s].hosted.active == Some(effect)
    ensures SessionRun.IsRunning(fleet.lives[s], effect)
  {
    RunningIsFront(cfg, fleet, s, effect);
  }

  lemma NobodyWaits<S, E, F>(
    cfg: Config<S, E>, limit: nat, fleet: Fleet<S, E, F>, controls: map<SessionId, Control>,
    hosts: map<SessionId, Hosted<S, E, F>>)
    requires FleetInv(cfg, limit, fleet) && fleet.lives == Lives(controls, hosts) && hosts.Keys == controls.Keys
    requires fleet.ready == [] || |ActiveSessions(fleet)| >= limit
    ensures || |set s | s in hosts && hosts[s].active.Some?| >= limit
            || forall s :: s in hosts && hosts[s].active.None? ==> hosts[s].pending == []
  {
    hide SessionsInv;
    assert (set s | s in hosts && hosts[s].active.Some?) == ActiveSessions(fleet);
    forall s | s in hosts && fleet.ready == [] && hosts[s].active.None? ensures hosts[s].pending == [] {
      assert s !in fleet.ready && fleet.lives[s].hosted == hosts[s];
    }
  }

  // ----- clients with room are kept -----

  /** Every client is reading and has room for `n` more messages. */
  ghost predicate RoomFor<S, E>(channels: Channels<S, E>, n: nat) {
    Spare(channels, channels.Keys, n)
  }

  lemma RoomForLess<S, E>(channels: Channels<S, E>, n: nat, m: nat)
    requires RoomFor(channels, n) && m <= n
    ensures RoomFor(channels, m)
  {
  }

  lemma RoomForAnswer<S, E>(first: Channels<S, E>, last: Channels<S, E>, c: ConnectionId)
    requires Spare(first, {c}, 1) ==> Kept(first, last, {c}, 1)
    ensures RoomFor(first, 1) ==> last.Keys == first.Keys
  {
  }

  /** After everyone in `targets` got `n` messages there is room for the answer. */
  lemma RoomAfter<S, E>(first: Channels<S, E>, mid: Channels<S, E>, targets: set<ConnectionId>, n: nat)
    requires Spare(first, targets, n) ==> Kept(first, mid, targets, n)
    ensures RoomFor(first, 1 + n) ==> RoomFor(mid, 1) && mid.Keys == first.Keys
  {
  }

  lemma RoomKept<S, E>(
    first: Channels<S, E>, last: Channels<S, E>, targets: set<ConnectionId>, n: nat)
    requires Spare(first, targets, n) ==> Kept(first, last, targets, n)
    ensures RoomFor(first, n) ==> last.Keys == first.Keys
    ensures RoomFor(first, n) ==> Kept(first, last, first.Keys, n)
  {
  }

  lemma KeptKeys<S, E>(first: Channels<S, E>, last: Channels<S, E>)
    ensures Kept(first, last, first.Keys, 1) ==> last.Keys == first.Keys
  {
  }

  lemma RoomForTarget<S, E>(channels: Channels<S, E>, c: ConnectionId, n: nat)
    requires RoomFor(channels, n)
    ensures Spare(channels, {c}, n)
  {
  }

  lemma RoomKeptBy<S, E>(first: Channels<S, E>, last: Channels<S, E>, targets: set<ConnectionId>)
    requires Spare(first, targets, 1) ==> Kept(first, last, targets, 1)
    ensures RoomFor(first, 1) ==> Kept(first, last, first.Keys, 1)
  {
  }

  lemma RoomStill<S, E>(first: Channels<S, E>, mid: Channels<S, E>, n: nat)
    requires RoomFor(first, 1 + n) && Kept(first, mid, first.Keys, 1)
    ensures RoomFor(mid, n) && mid.Keys == first.Keys
  {
  }

  lemma RoomForBoth<S, E>(core: Core, first: Channels<S, E>, mid: Channels<S, E>, s: SessionId, n: nat, m: nat)
    requires s in core.sessions
    requires Spare(first, core.sessions[s].subscribers, n) ==> Kept(first, mid, core.sessions[s].subscribers, n)
    ensures RoomFor(first, n + m) ==> RoomFor(mid, m) && mid.Keys == first.Keys
  {
  }

  function Members(connections: seq<ConnectionId>): set<ConnectionId> {
    set c | c in connections
  }

  ghost predicate NoRepeats(changes: seq<DriverChange>) {
    forall k :: 0 <= k < |changes| ==> Sequences.NoDup(changes[k].subscribers)
  }

  lemma SpareOne<S, E>(channels: Channels<S, E>, c: ConnectionId)
    requires c in channels
    ensures Spare(channels, {c}, 1) <==> channels[c].open && |channels[c].queue| < channels[c].capacity
  {
  }

  /** When everyone else has room for all the notices, only the leaving connection is gone. */
  lemma KeptRest<S, E>(first: Channels<S, E>, gone: ConnectionId, last: Channels<S, E>, n: nat, m: nat)
    requires n <= m
    requires Spare(first - {gone}, (first - {gone}).Keys, n) ==> Kept(first - {gone}, last, (first - {gone}).Keys, n)
    ensures Spare(first, first.Keys - {gone}, m) ==> last.Keys == first.Keys - {gone}
  {
  }

  /** One change for each session at most, and each names a subscriber once. */
  lemma OneChangeEach(changes: seq<DriverChange>, sessions: map<SessionId, Control>)
    requires Sequences.NoDup(Sessions(changes))
    requires forall k :: 0 <= k < |changes| ==> ReportsIn(changes[k], sessions)
    ensures |changes| <= |sessions| && NoRepeats(changes)
  {
    var all := Named(Sessions(changes));
    forall s | s in all ensures s in sessions.Keys {
      var k :| 0 <= k < |changes| && Sessions(changes)[k] == s;
      assert ReportsIn(changes[k], sessions);
    }
    Distinct(Sessions(changes));
    Sequences.Fewer(all, sessions.Keys);
  }

  function Named(s: seq<SessionId>): set<SessionId> {
    set x | x in s
  }

  lemma {:induction false} Distinct(s: seq<SessionId>)
    requires Sequences.NoDup(s)
    ensures |Named(s)| == |s|
  {
    if s != [] {
      var rest := s[..|s| - 1];
      assert s == rest + [s[|s| - 1]] && s[|s| - 1] !in rest;
      Distinct(rest);
      assert Named(s) == Named(rest) + {s[|s| - 1]};
    }
  }

  lemma KeptOneRound<S, E>(
    first: Channels<S, E>, mid: Channels<S, E>, last: Channels<S, E>, some: set<ConnectionId>, i: nat, n: nat)
    requires Spare(first, first.Keys, n) && Kept(first, mid, first.Keys, i) && i < n
    requires Spare(mid, some, 1) ==> Kept(mid, last, some, 1)
    ensures Kept(first, last, first.Keys, i + 1)
  {
  }

  lemma NobodyGone<S, E>(first: Channels<S, E>, mid: Channels<S, E>, targets: set<ConnectionId>, n: nat)
    requires Kept(first, mid, targets, n)
    ensures mid.Keys == first.Keys && targets - (first.Keys - mid.Keys) == targets
  {
  }

  lemma KeptNextRound<S, E>(
    first: Channels<S, E>, mid: Channels<S, E>, last: Channels<S, E>, targets: set<ConnectionId>, i: nat, n: nat)
    requires Spare(first, targets, n) && Kept(first, mid, targets, i) && i < n
    requires Spare(mid, targets, 1) ==> Kept(mid, last, targets, 1)
    ensures Kept(first, last, targets, i + 1)
  {
  }

  lemma KeptNext<S, E>(
    first: Channels<S, E>, mid: Channels<S, E>, last: Channels<S, E>, list: seq<ConnectionId>, i: nat)
    requires i < |list| && Sequences.NoDup(list) && Spare(first, Members(list), 1)
    requires Kept(first, mid, Members(list[..i]), 1)
    requires Spare(mid, {list[i]}, 1) ==> Kept(mid, last, {list[i]}, 1)
    ensures Kept(first, last, Members(list[..i + 1]), 1)
  {
    hide Spare, Kept;
    assert Members(list[..i + 1]) == Members(list[..i]) + {list[i]};
    KeptOneMore(first, mid, Members(list[..i]), list[i], Members(list));
  }

  lemma {:induction false} NeverRan(started: seq<Execution>, s: SessionId)
    requires forall x :: x in started ==> x.session != s
    ensures RunsOf(started, s) == []
  {
    if started != [] {
      NeverRan(started[..|started| - 1], s);
    }
  }

  lemma AllAnnounced<S, E>(core: Core, from: Channels<S, E>, to: Channels<S, E>)
    ensures Announced(core, core, from, to)
  {
  }

  /** Nothing happened. */
  lemma NothingAdvances<S, E>(core: Core, s: SessionId, channels: Channels<S, E>)
    requires CoreInv(core) && s in core.sessions
    ensures Without(SetLedger(core, s, core.sessions[s].ledger), channels.Keys - channels.Keys) == core
    ensures Pushed(channels, channels, core.sessions[s].subscribers,
                   EventMessages<S, E>(s, Numbered([], core.sessions[s].ledger.sequence)))
  {
    hide Spare, Kept, CoreInv, Without, Pushed;
    var l := core.sessions[s].ledger;
    SetLedgerFacts(core, s, l, l);
    WithoutNone(core);
    assert channels.Keys - channels.Keys == {};
    PushedNothing(channels, core.sessions[s].subscribers);
    assert EventMessages<S, E>(s, Numbered([], l.sequence)) == [];
  }

  lemma AdvancedTo(core: Core, s: SessionId, ledger: Ledgers.Ledger, gone: set<ConnectionId>)
    requires s in core.sessions
    ensures var after := Without(SetLedger(core, s, ledger), gone);
            && s in after.sessions && after.sessions[s].ledger == ledger
            && after.sessions[s].subscribers == core.sessions[s].subscribers - gone
  {
  }

  lemma LedgerMoves<S, E, F>(
    cfg: Config<S, E>, live: Live<S, E, F>, completed: Option<EffectId>, reaction: Reaction<S, E, F>, now: nat)
    requires Ledgers.Valid(live.ledger, cfg.window) && cfg.window >= 1
    ensures AfterTransition(cfg, live, None, completed, reaction, now).ledger.sequence
            == live.ledger.sequence + |reaction.events|
  {
  }

  /** Two transitions of one session in a row are told and recorded like one. */
  lemma AdvancedTwice<S, E>(
    before: Core, midway: Core, now: Core, s: SessionId, first: Channels<S, E>, mid: Channels<S, E>,
    last: Channels<S, E>, one: seq<E>, two: seq<E>, next: Ledgers.Ledger)
    requires CoreInv(before) && s in before.sessions && s in midway.sessions && s in now.sessions
    requires next.sequence == before.sessions[s].ledger.sequence + |one|
    requires midway == Without(SetLedger(before, s, next), first.Keys - mid.Keys)
    requires now == Without(SetLedger(midway, s, now.sessions[s].ledger), mid.Keys - last.Keys)
    requires Pushed(first, mid, before.sessions[s].subscribers,
                    EventMessages(s, Numbered(one, before.sessions[s].ledger.sequence)))
    requires Pushed(mid, last, midway.sessions[s].subscribers,
                    EventMessages(s, Numbered(two, midway.sessions[s].ledger.sequence)))
    ensures Pushed(first, last, before.sessions[s].subscribers,
                   EventMessages(s, Numbered(one + two, before.sessions[s].ledger.sequence)))
    ensures now == Without(SetLedger(before, s, now.sessions[s].ledger), first.Keys - last.Keys)
  {
    hide Spare, Kept, CoreInv, Without, Pushed, SetLedger, EventMessages, Numbered;
    var start, targets := before.sessions[s].ledger.sequence, before.sessions[s].subscribers;
    var told: seq<Message<S, E>> := EventMessages(s, Numbered(one, start));
    var more: seq<Message<S, E>> := EventMessages(s, Numbered(two, start + |one|));
    AdvancedTo(before, s, next, first.Keys - mid.Keys);
    PushedKeys(first, mid, targets, told);
    PushedKeys(mid, last, targets - (first.Keys - mid.Keys), more);
    PushedSameTargets(mid, last, targets - (first.Keys - mid.Keys), targets, more);
    PushedThen(first, mid, last, targets, told, more);
    MessagesJoin<S, E>(s, one, two, start);
    LedgerOverDeparture(before, s, next, now.sessions[s].ledger, first.Keys - mid.Keys);
    KeepsUnderLedger(before, s, now.sessions[s].ledger);
    Rejoin(SetLedger(before, s, now.sessions[s].ledger), first.Keys, mid.Keys, last.Keys);
  }

  lemma MessagesJoin<S, E>(s: SessionId, one: seq<E>, two: seq<E>, start: nat)
    ensures EventMessages<S, E>(s, Numbered(one + two, start))
            == EventMessages(s, Numbered(one, start)) + EventMessages(s, Numbered(two, start + |one|))
  {
  }

  lemma LedgerOverDeparture(core: Core, s: SessionId, one: Ledgers.Ledger, two: Ledgers.Ledger, gone: set<ConnectionId>)
    requires s in core.sessions
    ensures s in Without(SetLedger(core, s, one), gone).sessions
    ensures SetLedger(Without(SetLedger(core, s, one), gone), s, two) == Without(SetLedger(core, s, two), gone)
  {
  }

  lemma StoppedFacts<S, E, F>(
    cfg: Config<S, E>, limit: nat, fleet: Fleet<S, E, F>, core: Core, hosts: map<SessionId, Hosted<S, E, F>>,
    s: SessionId)
    requires FleetInv(cfg, limit, fleet) && fleet.lives == Lives(core.sessions, hosts)
    requires s in core.sessions && s in hosts
    ensures FleetInv(cfg, limit, Removed(fleet, s))
    ensures Conserving(limit, fleet) ==>
              (Conserving(limit, Removed(fleet, s)) <==> fleet.ready == [] || hosts[s].active.None?)
    ensures var left := ControlPlane.RemoveSession(core, s);
            && left.sessions.Keys == core.sessions.Keys - {s} && left.clients.Keys == core.clients.Keys
            && Lives(left.sessions, hosts - {s}) == Removed(fleet, s).lives
  {
    hide FleetInv, Conserving, ControlPlane.RemoveSession;
    RemovedKeeps(cfg, limit, fleet, s);
    RemovedLives(core, hosts, s);
    LivesUpdate(core.sessions, hosts, s, hosts[s]);
    if Conserving(limit, fleet) {
      RemovedConserves(cfg, limit, fleet, s);
    }
  }

  /** Every subscriber that is still there was told who drives the session. */
  ghost predicate SubscribersTold<S, E>(core: Core, s: SessionId, from: Channels<S, E>, to: Channels<S, E>) {
    s in core.sessions && forall c :: c in core.sessions[s].subscribers ==>
      Received(from, to, c, DriverChanged(s, core.sessions[s].driver))
  }

  lemma StillSubscribersTold<S, E>(
    core: Core, s: SessionId, first: Channels<S, E>, mid: Channels<S, E>, last: Channels<S, E>,
    targets: set<ConnectionId>, more: seq<Message<S, E>>)
    requires SubscribersTold(core, s, first, mid) && Pushed(mid, last, targets, more)
    ensures SubscribersTold(core, s, first, last)
  {
    hide Spare, Kept, Received, Pushed;
    forall c | c in core.sessions[s].subscribers
      ensures Received(first, last, c, DriverChanged(s, core.sessions[s].driver))
    {
      ReceivedThen(first, mid, last, targets, more, c, DriverChanged(s, core.sessions[s].driver));
    }
  }

  /** These connections, as far as they are still there, were sent the driver's new lease. */
  ghost predicate ToldOf<S, E>(
    change: DriverChange, connections: seq<ConnectionId>, from: Channels<S, E>, to: Channels<S, E>)
  {
    forall c :: c in connections ==> Received(from, to, c, DriverChanged(change.session, change.lease))
  }

  ghost predicate AllTold<S, E>(changes: seq<DriverChange>, from: Channels<S, E>, to: Channels<S, E>) {
    forall k :: 0 <= k < |changes| ==> ToldOf(changes[k], changes[k].subscribers, from, to)
  }

  lemma NoneTold<S, E>(channels: Channels<S, E>)
    ensures AllTold([], channels, channels)
  {
  }

  lemma NobodyTold<S, E>(change: DriverChange, channels: Channels<S, E>)
    ensures ToldOf(change, [], channels, channels)
  {
  }

  lemma StillTold<S, E>(
    change: DriverChange, connections: seq<ConnectionId>, first: Channels<S, E>, mid: Channels<S, E>,
    last: Channels<S, E>)
    requires ToldOf(change, connections, first, mid) && Pushed(mid, last, {}, [])
    ensures ToldOf(change, connections, first, last)
  {
    hide Spare, Kept, Received, Pushed;
    forall c | c in connections ensures Received(first, last, c, DriverChanged(change.session, change.lease)) {
      ReceivedThen(first, mid, last, {}, [], c, DriverChanged(change.session, change.lease));
    }
  }

  lemma LaterTold<S, E>(
    change: DriverChange, connections: seq<ConnectionId>, first: Channels<S, E>, mid: Channels<S, E>,
    last: Channels<S, E>)
    requires Pushed(first, mid, {}, []) && ToldOf(change, connections, mid, last)
    ensures ToldOf(change, connections, first, last)
  {
    hide Spare, Kept, Received, Pushed;
    forall c | c in connections ensures Received(first, last, c, DriverChanged(change.session, change.lease)) {
      ThenReceived(first, mid, last, {}, [], c, DriverChanged(change.session, change.lease));
    }
  }

  lemma OneMoreSubscriber<S, E>(
    change: DriverChange, connections: seq<ConnectionId>, c: ConnectionId,
    first: Channels<S, E>, mid: Channels<S, E>, last: Channels<S, E>)
    requires ToldOf(change, connections, first, mid) && Pushed(first, mid, {}, []) && Pushed(mid, last, {}, [])
    requires Received(mid, last, c, DriverChanged(change.session, change.lease))
    ensures ToldOf(change, connections + [c], first, last)
  {
    hide Spare, Kept, Received, Pushed;
    StillTold(change, connections, first, mid, last);
    ThenReceived(first, mid, last, {}, [], c, DriverChanged(change.session, change.lease));
  }

  lemma OneMoreTold<S, E>(
    changes: seq<DriverChange>, change: DriverChange, first: Channels<S, E>, mid: Channels<S, E>, last: Channels<S, E>)
    requires AllTold(changes, first, mid) && Pushed(first, mid, {}, []) && Pushed(mid, last, {}, [])
    requires ToldOf(change, change.subscribers, mid, last)
    ensures AllTold(changes + [change], first, last)
  {
    hide Spare, Kept, ToldOf, Pushed;
    LaterTold(change, change.subscribers, first, mid, last);
    forall k | 0 <= k < |changes| ensures ToldOf(changes[k], changes[k].subscribers, first, last) {
      StillTold(changes[k], changes[k].subscribers, first, mid, last);
    }
  }

  /** Two rounds of notices, each of which may drop connections, are one. */
  lemma CarryOn<S, E>(
    before: Core, midway: Core, now: Core, first: Channels<S, E>, mid: Channels<S, E>, last: Channels<S, E>)
    requires CoreInv(before) && mid.Keys <= first.Keys && |mid| <= |first|
    requires Pushed(first, mid, {},
                    []) && midway == Without(before, first.Keys - mid.Keys) && Announced(before, midway, first, mid)
    requires Pushed(mid, last, {}, []) && now == Without(midway, mid.Keys - last.Keys)
    requires Announced(midway, now, mid, last)
    ensures last.Keys <= first.Keys && |last| <= |first|
    ensures Pushed(first, last, {}, []) && now == Without(before, first.Keys - last.Keys)
    ensures Announced(before, now, first, last)
  {
    hide Spare, Kept, CoreInv, Announced, Pushed, Without;
    PushedQuietly(first, mid, last);
    PushedKeys(mid, last, {}, []);
    Rejoin(before, first.Keys, mid.Keys, last.Keys);
    StillSubscribed(before, first, mid);
    AnnouncedThen(before, midway, now, first, mid, last, {}, [], {}, []);
  }

  lemma StillSubscribed<S, E>(core: Core, first: Channels<S, E>, mid: Channels<S, E>)
    ensures var left := Without(core, first.Keys - mid.Keys);
            && left.sessions.Keys == core.sessions.Keys
            && forall s, c :: s in core.sessions && c in core.sessions[s].subscribers && c in mid ==>
                  c in left.sessions[s].subscribers
  {
  }

  /** The sessions a leaving connection drove are in the changes; the rest were announced
      along the way. */
  lemma FromFirst<S, E>(
    before: Core, left: Core, now: Core, connection: ConnectionId, changes: seq<DriverChange>,
    first: Channels<S, E>, remaining: Channels<S, E>, last: Channels<S, E>)
    requires left == Without(before, {connection}) && remaining == first - {connection}
    requires Announced(left, now, remaining, last) && last.Keys <= remaining.Keys
    requires forall s :: s in Sessions(changes) <==>
               s in before.sessions && before.sessions[s].driver.Some? && left.sessions[s].driver.None?
    requires forall k :: 0 <= k < |changes| ==> ReportsIn(changes[k], left.sessions)
    requires AllTold(changes, remaining, last)
    ensures Announced(before, now, first, last)
  {
    forall s, c | Lost(before, now, s) && c in before.sessions[s].subscribers
      ensures Received(first, last, c, DriverChanged(s, None))
    {
      if c in last {
        assert c in left.sessions[s].subscribers;
        if left.sessions[s].driver.None? {
          assert s in Sessions(changes);
          var k :| 0 <= k < |changes| && Sessions(changes)[k] == s;
          assert c in changes[k].subscribers && ToldOf(changes[k], changes[k].subscribers, remaining, last);
        } else {
          assert Lost(left, now, s);
        }
        assert Received(remaining, last, c, DriverChanged(s, None));
      }
    }
  }

  /** The ledger once `count` events of a transition have their sequences. */
  function AllocatedSoFar(l: Ledgers.Ledger, request: Option<RequestId>, count: nat, window: nat): Ledgers.Ledger {
    if count == 0 then l else Allocate(l, request, count, window)
  }

  lemma AllocateStep(l: Ledgers.Ledger, request: Option<RequestId>, count: nat, window: nat)
    requires Ledgers.Valid(l, window) && window >= 1
    requires request.Some? ==> request.value !in l.committed
    ensures var now := AllocatedSoFar(l, request, count, window);
            var next := AllocatedSoFar(l, request, count + 1, window);
            && next.sequence == l.sequence + count + 1
            && now.sequence == l.sequence + count
            && (count == 0 && request.Some? ==>
                  && next == Ledgers.Commit(now, request.value, window)
                  && Ledgers.CommitSequence(now, request.value) == next.sequence)
            && (count > 0 || request.None? ==> next == Ledgers.Publish(now))
    ensures count == 0 ==>
              Allocate(l, request, 0, window) == if request.Some? then Ledgers.Commit(l, request.value, window) else l
  {
    hide Ledgers.Expire, Ledgers.Valid;
    assert Allocate(l, request, 1, window).sequence == l.sequence + 1;
  }

  /** The sequence a requester is told: that of its own event, else of the last event. */
  function Reported<E>(request: Option<RequestId>, emitted: seq<Sequenced<E>>, control: nat): nat {
    if request.Some? then (if emitted != [] then emitted[0].sequence else control)
    else if emitted != [] then emitted[|emitted| - 1].sequence
    else control
  }

  lemma TransitionParts<S, E, F>(
    cfg: Config<S, E>, live: Live<S, E, F>, request: Option<RequestId>, completed: Option<EffectId>,
    reaction: Reaction<S, E, F>, now: nat)
    requires Ledgers.Valid(live.ledger, cfg.window) && cfg.window >= 1
    requires request.Some? ==> request.value !in live.ledger.committed
    ensures var advanced := Allocate(live.ledger, request, |reaction.events|, cfg.window);
            var after := AfterTransition(cfg, live, request, completed, reaction, now);
            && advanced.sequence
               == live.ledger.sequence + (if reaction.events == [] && request.Some? then 1 else |reaction.events|)
            && after.ledger == Ledgers.StampIf(advanced,
                                               if reaction.events != [] || request.Some? then Some(now) else None)
            && after.hosted == live.hosted.(
                 app := reaction.after,
                 events := Sequences.LastN(live.hosted.events + Numbered(reaction.events, live.ledger.sequence),
                                           cfg.history),
                 pending := EffectQueue.RetainIf(live.hosted.pending, completed) + reaction.effects,
                 active := if completed.Some? then None else live.hosted.active,
                 logSequence := live.hosted.logSequence + 1)
            && TransitionRecord(cfg, live, request, completed, reaction, now)
               == Record(live.hosted.logSequence + 1,
                         Transition(request, advanced.sequence,
                                    if reaction.events != [] || request.Some? then Some(now) else None,
                                    Numbered(reaction.events, live.ledger.sequence),
                                    EffectQueue.EncodeAll(reaction.effects), completed))
            && Reported(request, Numbered(reaction.events, live.ledger.sequence), advanced.sequence)
               == TransitionSequence(live, request, reaction)
  {
    hide Allocate, EffectQueue.RetainIf, Sequences.LastN, Ledgers.StampIf, Ledgers.Valid;
    Recovery.AllocateFacts(live.ledger, request, |reaction.events|, cfg.window);
  }

  lemma HistoryBounded<S, E, F>(cfg: Config<S, E>, limit: nat, fleet: Fleet<S, E, F>, s: SessionId)
    requires FleetInv(cfg, limit, fleet) && s in fleet.lives
    ensures |fleet.lives[s].hosted.events| <= cfg.history
    ensures Ledgers.Valid(fleet.lives[s].ledger, cfg.window) && cfg.window >= 1
  {
    assert SessionRun.SessionInv(cfg, fleet.lives[s], fleet.disks[s]);
  }

  /** The fleet the host stands for once a transition is recorded and some clients are gone. */
  lemma FleetTransition<S, E, F>(
    cfg: Config<S, E>, core: Core, hosts: map<SessionId, Hosted<S, E, F>>, fleet: Fleet<S, E, F>, s: SessionId,
    gone: set<ConnectionId>, request: Option<RequestId>, completed: Option<EffectId>, reaction: Reaction<S, E, F>,
    now: nat)
    requires s in core.sessions && s in hosts && s in fleet.disks && fleet.lives == Lives(core.sessions, hosts)
    ensures s in fleet.lives && fleet.lives[s] == Live(core.sessions[s].ledger, hosts[s])
    ensures var after := AfterTransition(cfg, fleet.lives[s], request, completed, reaction, now);
            var left := Without(SetLedger(core, s, after.ledger), gone);
            && left.sessions.Keys == core.sessions.Keys
            && Transitioned(cfg, fleet, s, request, completed, reaction, now)
               == Fleet(Lives(left.sessions, hosts[s := after.hosted]),
                        fleet.disks[s := fleet.disks[s].(journal := fleet.disks[s].journal
                                      + [TransitionRecord(cfg, fleet.lives[s], request, completed, reaction, now)])],
                        fleet.ready, fleet.started)
  {
    hide AfterTransition, TransitionRecord, CoreInv;
    var after := AfterTransition(cfg, fleet.lives[s], request, completed, reaction, now);
    var left := Without(SetLedger(core, s, after.ledger), gone);
    assert Lives(left.sessions, hosts[s := after.hosted]) == fleet.lives[s := after];
  }

  lemma CoreHolds(core: LeaderCore)
    requires core.Valid()
    ensures CoreInv(core.State()) && core.window >= 1
  {
  }

  lemma SessionLedger(core: LeaderCore, s: SessionId)
    requires core.Valid() && s in core.sessions
    ensures Ledgers.Valid(core.sessions[s].ledger, core.window) && core.window >= 1
  {
  }

  lemma SetLedgerFacts(core: Core, s: SessionId, one: Ledgers.Ledger, two: Ledgers.Ledger)
    requires s in core.sessions
    ensures SetLedger(core, s, core.sessions[s].ledger) == core
    ensures s in SetLedger(core, s, one).sessions && SetLedger(core, s, one).sessions[s].ledger == one
    ensures s in SetLedger(core, s, two).sessions && SetLedger(core, s, two).sessions[s].ledger == two
    ensures SetLedger(SetLedger(core, s, one), s, two) == SetLedger(core, s, two)
    ensures SetLedger(core, s, one).sessions.Keys == core.sessions.Keys
    ensures SetLedger(core, s, one).clients == core.clients
    ensures SetLedger(core, s, one).sessions[s].subscribers == core.sessions[s].subscribers
  {
  }

  lemma WithoutSession(core: Core, gone: set<ConnectionId>, s: SessionId)
    requires s in core.sessions
    ensures s in Without(core, gone).sessions
    ensures Without(core, gone).sessions[s].subscribers == core.sessions[s].subscribers - gone
    ensures Without(core, gone).sessions[s].ledger == core.sessions[s].ledger
    ensures Without(core, gone).sessions[s].epoch == core.sessions[s].epoch
  {
  }

  lemma WithoutLives<S, E, F>(core: Core, gone: set<ConnectionId>, hosts: map<SessionId, Hosted<S, E, F>>)
    ensures Lives(Without(core, gone).sessions, hosts) == Lives(core.sessions, hosts)
  {
  }

  /** Each session as the host and the core hold it together. */
  ghost function Lives<S, E, F>(
    controls: map<SessionId, Control>, hosts: map<SessionId, Hosted<S, E, F>>): (lives: map<SessionId, Live<S, E, F>>)
    ensures hosts.Keys == controls.Keys ==> lives.Keys == hosts.Keys
  {
    map s | s in hosts && s in controls :: Live(controls[s].ledger, hosts[s])
  }

  /** A leader starts from what is on disk: it loads every session, refreshes the checkpoints,
      and resumes the effects that were outstanding. `before` is the leader that wrote the
      disks, as it stood when it died. No host comes up when two sessions claim one name. */
  method LoadHost<S, E, F>(
    cfg: Config<S, E>, limit: nat, disks: map<SessionId, Disk<S, E, F>>, labels: map<SessionId, Label>,
    started: seq<Execution>, ghost before: Fleet<S, E, F>)
    returns (host: Option<HostState<S, E, F>>)
    requires cfg.window >= 1 && SessionsInv(cfg, before)
    requires before.disks == disks && before.started == started && labels.Keys == disks.Keys
    ensures host.None? <==> NamesClash(labels)
    ensures host.Some? ==>
              && fresh(host.value) && fresh(host.value.core) && host.value.Valid() && host.value.limit == Max(limit, 1)
              && host.value.cfg == cfg
              && host.value.clients == map[] && host.value.core.sessions.Keys == disks.Keys
              && (exists queue :: Resumes(cfg, before, queue, host.value.limit, host.value.FleetOf()))
              && before.lives.Keys == disks.Keys
              && forall s :: s in disks ==> host.value.core.sessions[s] == Reopened(labels[s], before.lives[s].ledger)
  {
    hide LabelsFor, FleetInv, CoreInv, LeaderCore.Valid, Lives, Load, Ledgers.Valid, AddSession, Loaded, ControlsFor,
         Resumes,
         Texts.Trim, NamesClash;
    var h := new HostState<S, E, F>(cfg, limit);
    h.started := started;
    var ok := h.AdoptAll(disks, labels, before);
    if !ok {
      return None;
    }
    h.Resume(before);
    AllReopened(cfg, before, labels, h.core.sessions);
    NoClash(labels, h.core);
    host := Some(h);
  }

  /** A leader that dies can always be followed: the files of a valid host come up, whatever it
      was doing when it died. `stood` is where the appends had got to. */
  method ReloadHost<S, E, F>(dead: HostState<S, E, F>, limit: nat) returns (host: HostState<S, E, F>)
    requires dead.Valid()
    ensures fresh(host) && fresh(host.core) && host.Valid() && host.limit == Max(limit, 1) && host.clients == map[]
    ensures host.cfg == dead.cfg
    ensures host.core.sessions.Keys == dead.core.sessions.Keys
    ensures exists queue :: Resumes(dead.cfg, dead.FleetOf(), queue, host.limit, host.FleetOf())
    ensures forall s :: s in dead.core.sessions ==>
              && s in dead.labels && dead.labels[s].epoch <= dead.core.sessions[s].epoch
              && host.core.sessions[s]
                 == Control(dead.core.sessions[s].name, {}, None, dead.labels[s].epoch + 1,
                            dead.core.sessions[s].ledger)
    ensures forall s :: s in dead.disks ==>
              && s in host.disks
              && RequestHistory.Commits(host.disks[s].journal) == RequestHistory.Commits(dead.disks[s].journal)
  {
    hide CoreInv, LeaderCore.Valid, Load, Resumes, QueueInv, SessionsInv, Texts.Trim, NamesClash;
    NoClash(dead.labels, dead.core);
    CoreHolds(dead.core);
    ghost var before := dead.FleetOf();
    var loaded := LoadHost(dead.cfg, limit, dead.disks, dead.labels, dead.started, before);
    host := loaded.value;
    ghost var queue :| Resumes(dead.cfg, before, queue, host.limit, host.FleetOf());
    assert dead.FleetOf() == before;
    CommitsSurvive(dead.cfg, before, queue, host.limit, host.FleetOf());
  }

  lemma CommitsSurvive<S, E, F>(
    cfg: Config<S, E>, before: Fleet<S, E, F>, queue: seq<SessionId>, limit: nat, after: Fleet<S, E, F>)
    requires Resumes(cfg, before, queue, limit, after) && before.lives.Keys == before.disks.Keys
    ensures forall s :: s in before.disks ==>
              && s in after.disks
              && RequestHistory.Commits(after.disks[s].journal) == RequestHistory.Commits(before.disks[s].journal)
  {
    hide Load, QueueInv, Dispatched, ActiveSessions;
    var loaded := Fleets.Reloaded(cfg, before.disks, before.started).(ready := queue);
    forall s | s in before.disks
      ensures s in after.disks
      ensures RequestHistory.Commits(after.disks[s].journal) == RequestHistory.Commits(before.disks[s].journal)
    {
      DispatchedCommits(loaded, limit, s);
    }
  }

  /** A client whose command was applied by a leader that has died attaches to the next one as a
      viewer and resends the command, under any lease: the answer is its first sequence. */
  method ResendAfterCrash<S, E, F>(
    dead: HostState<S, E, F>, limit: nat, connection: ConnectionId, capacity: nat, session: SessionId,
    request: RequestId, lease: nat, now: nat, ghost b: nat) returns (reply: Reply)
    requires dead.Valid() && session in dead.disks && capacity >= 2 + dead.cfg.history
    requires var commits := RequestHistory.Commits(dead.disks[session].journal);
             b < |commits| && |commits| - dead.cfg.window <= b && commits[b].request == request
    ensures reply == Accepted(session, RequestHistory.Commits(dead.disks[session].journal)[b].sequence, true)
  {
    hide Spare, LabelsFor, FleetInv, CoreInv, LeaderCore.Valid, Lives, Resumes, Authorize, AttachCheck,
         ControlPlane.Attach, Without, Pushed, Received, CaughtUp, CatchUp, RequestHistory.Commits, Settled,
         HostState.Appended, Connect, Kept, AttachRules, Joins, Entitled, ReplyRules, ResendRules, RoomFor, Grants,
         SubscribersTold, HostState.CaughtUpBy, HostState.FleetOf, Rules, Dispatched, Fleets.Reloaded;
    var host := ReloadHost(dead, limit);
    ghost var core := host.core.State();
    host.Connected(connection, request.client, capacity);
    HostHistoryBounded(host, session);
    RoomAlone(host.clients, connection, 1 + Max(1, |host.sessions[session].events|));
    var attached := host.AttachSession(connection, session, View, None, false);
    ViewerIsLetIn(core, connection, request.client, session, attached);
    ViewerIsEntitled(core, host.core.State(), connection, session, request, attached.value);
    reply := Resend(host, connection, session, request, lease, now, b);
  }

  /** A command is applied, its leader dies before the answer is read, and the client asks the
      next leader again: it is told the sequence that the first leader gave the command. */
  method AppliedThenResent<S, E, F>(
    host: HostState<S, E, F>, connection: ConnectionId, request: RequestId, session: SessionId, lease: nat,
    reaction: Reaction<S, E, F>, now: nat, limit: nat, other: ConnectionId, capacity: nat, stale: nat, later: nat)
    returns (first: Reply, second: Reply)
    requires host.Valid() && Handles(host.cfg, host.FleetOf(), session, reaction)
    requires capacity >= 2 + host.cfg.history
    modifies host, host.core
    ensures first.Accepted? && !first.duplicate ==> second == Accepted(session, first.sequence, true)
  {
    hide Spare, LabelsFor, FleetInv, CoreInv, LeaderCore.Valid, Lives, Authorize, Without, Pushed, Received, Handles,
         RequestHistory.Commits, Settled, HostState.Appended, Kept, Entitled, ReplyRules, ResendRules, RoomFor;
    first := host.Command(connection, request, session, lease, Some(reaction), now);
    second := first;
    if first.Accepted? && !first.duplicate {
      WindowHolds(host);
      ghost var commits := RequestHistory.Commits(host.disks[session].journal);
      assert commits[|commits| - 1] == RequestHistory.Commitment(request, first.sequence);
      second := ResendAfterCrash(host, limit, other, capacity, session, request, stale, later, |commits| - 1);
    }
  }

  lemma WindowHolds<S, E, F>(host: HostState<S, E, F>)
    requires host.Valid()
    ensures host.cfg.window >= 1
  {
  }

  /** A resend of any of the newest window of commits, on an attached connection of its client. */
  method Resend<S, E, F>(
    host: HostState<S, E, F>, connection: ConnectionId, session: SessionId, request: RequestId, lease: nat, now: nat,
    ghost b: nat) returns (reply: Reply)
    requires host.Valid() && session in host.disks && Entitled(host.core.State(), connection, session, request)
    requires var commits := RequestHistory.Commits(host.disks[session].journal);
             b < |commits| && |commits| - host.cfg.window <= b && commits[b].request == request
    modifies host, host.core
    ensures reply == Accepted(session, RequestHistory.Commits(old(host.disks)[session].journal)[b].sequence, true)
  {
    hide Spare, LabelsFor, FleetInv, CoreInv, LeaderCore.Valid, Lives, Authorize, Without, Pushed, Received,
         RequestHistory.Commits, Settled, HostState.Appended, Kept, Entitled, ReplyRules, ResendRules, RoomFor;
    ghost var before, journal := host.core.State(), host.disks[session].journal;
    reply := host.Command(connection, request, session, lease, None, now);
    ResendIsAnswered(host.cfg.window, journal, before, connection, session, request, reply, b);
  }

  lemma ViewerIsLetIn(
    core: Core, connection: ConnectionId, client: ClientId, session: SessionId, outcome: Result<Attachment, CoreError>)
    requires session in core.sessions
    requires AttachRules(Connect(core, connection, client), connection, session, View, false, outcome)
    ensures outcome.Ok?
  {
  }

  lemma ViewerIsEntitled(
    core: Core, after: Core, connection: ConnectionId, session: SessionId, request: RequestId, outcome: Attachment)
    requires session in core.sessions
    requires Joins(Connect(core, connection, request.client), after, connection, session, outcome)
    ensures Entitled(after, connection, session, request)
  {
  }

  lemma ResendIsAnswered<E, F>(
    window: nat, journal: Journal<E, F>, core: Core, connection: ConnectionId, session: SessionId, request: RequestId,
    reply: Reply, b: nat)
    requires ResendRules(window, journal, core, connection, session, request, reply)
    requires Entitled(core, connection, session, request)
    requires var commits := RequestHistory.Commits(journal);
             b < |commits| && |commits| - window <= b && commits[b].request == request
    ensures reply == Accepted(session, RequestHistory.Commits(journal)[b].sequence, true)
  {
  }

  lemma HostHistoryBounded<S, E, F>(host: HostState<S, E, F>, s: SessionId)
    requires host.Valid() && s in host.sessions
    ensures s in host.core.sessions && |host.sessions[s].events| <= host.cfg.history
  {
    HistoryBounded(host.cfg, host.limit, host.FleetOf(), s);
  }

  lemma RoomAlone<S, E>(channels: Channels<S, E>, c: ConnectionId, n: nat)
    requires channels.Keys == {c} && channels[c].open && |channels[c].queue| + n <= channels[c].capacity
    ensures RoomFor(channels, n)
  {
  }

  /** Two stored sessions claim one name. */
  ghost predicate NamesClash(labels: map<SessionId, Label>) {
    exists s, t :: s in labels && t in labels && s != t && Texts.Trim(labels[s].name) == Texts.Trim(labels[t].name)
  }

  /** The sessions of a host never do. */
  lemma NoClash(labels: map<SessionId, Label>, core: LeaderCore)
    requires core.Valid() && labels.Keys == core.sessions.Keys
    requires forall s :: s in labels ==> Texts.Trim(labels[s].name) == core.sessions[s].name
    ensures !NamesClash(labels)
  {
    hide Texts.Trim;
    forall s, t | s in labels && t in labels && s != t
      ensures Texts.Trim(labels[s].name) != Texts.Trim(labels[t].name)
    {
      assert core.names[core.sessions[s].name] == s && core.names[core.sessions[t].name] == t;
    }
  }

  /** A session's control record in a leader that has just loaded it. */
  function Reopened(tag: Label, ledger: Ledgers.Ledger): Control {
    Control(Texts.Trim(tag.name), {}, None, tag.epoch + 1, ledger)
  }

  /** Every session as its last append left it, with some queue of the sessions that have
      outstanding effects, after one round of the scheduler. */
  ghost predicate Resumes<S, E, F>(
    cfg: Config<S, E>, before: Fleet<S, E, F>, queue: seq<SessionId>, limit: nat, after: Fleet<S, E, F>)
  {
    var loaded := Fleets.Reloaded(cfg, before.disks, before.started).(ready := queue);
    && QueueInv(loaded)
    && loaded.lives.Keys == before.lives.Keys == loaded.disks.Keys
    && (forall s :: s in before.lives ==> loaded.lives[s] == Durable(before.lives[s]))
    && after == Dispatched(loaded, limit)
  }

  lemma Recovered<S, E, F>(cfg: Config<S, E>, fleet: Fleet<S, E, F>, s: SessionId)
    requires SessionsInv(cfg, fleet) && s in fleet.disks
    ensures s in fleet.lives && Load(cfg, fleet.disks[s]).ledger == fleet.lives[s].ledger
    ensures Ledgers.Valid(fleet.lives[s].ledger, cfg.window)
  {
    assert SessionRun.SessionInv(cfg, fleet.lives[s], fleet.disks[s]);
  }

  function Loaded<S, E, F>(cfg: Config<S, E>, disks: map<SessionId, Disk<S, E, F>>): map<SessionId, Live<S, E, F>> {
    map s | s in disks :: Load(cfg, disks[s])
  }

  ghost predicate ControlsFor<S, E, F>(
    cfg: Config<S, E>, controls: map<SessionId, Control>, disks: map<SessionId, Disk<S, E, F>>,
    labels: map<SessionId, Label>)
    requires disks.Keys <= labels.Keys
  {
    && controls.Keys == disks.Keys
    && forall s :: s in disks ==> controls[s] == Reopened(labels[s], Load(cfg, disks[s]).ledger)
  }

  lemma LoadedNone<S, E, F>(cfg: Config<S, E>, disks: map<SessionId, Disk<S, E, F>>, labels: map<SessionId, Label>)
    requires labels.Keys == disks.Keys
    ensures disks - disks.Keys == map[] && Loaded(cfg, disks - disks.Keys) == map[]
    ensures ControlsFor(cfg, map[], disks - disks.Keys, labels)
  {
  }

  lemma LoadedOne<S, E, F>(
    cfg: Config<S, E>, disks: map<SessionId, Disk<S, E, F>>, labels: map<SessionId, Label>, todo: set<SessionId>,
    s: SessionId, controls: map<SessionId, Control>)
    requires labels.Keys == disks.Keys && s in todo && todo <= disks.Keys
    requires ControlsFor(cfg, controls, disks - todo, labels)
    ensures controls.Keys == disks.Keys - todo
    ensures disks - (todo - {s}) == (disks - todo)[s := disks[s]]
    ensures Loaded(cfg, disks - (todo - {s})) == Loaded(cfg, disks - todo)[s := Load(cfg, disks[s])]
    ensures ControlsFor(cfg, controls[s := Reopened(labels[s], Load(cfg, disks[s]).ledger)], disks - (todo - {s}),
                        labels)
  {
    hide Load, Reopened;
  }

  lemma Clash<S, E, F>(
    cfg: Config<S, E>, core: Core, disks: map<SessionId, Disk<S, E, F>>, labels: map<SessionId, Label>, s: SessionId)
    requires CoreInv(core) && disks.Keys <= labels.Keys && ControlsFor(cfg, core.sessions, disks, labels)
    requires s in labels && s !in disks && Texts.Trim(labels[s].name) in core.names
    ensures NamesClash(labels)
  {
    hide Load, Texts.Trim;
    var t := core.names[Texts.Trim(labels[s].name)];
    assert core.sessions[t].name == Texts.Trim(labels[s].name);
  }

  lemma AllReopened<S, E, F>(
    cfg: Config<S, E>, before: Fleet<S, E, F>, labels: map<SessionId, Label>, controls: map<SessionId, Control>)
    requires SessionsInv(cfg, before) && labels.Keys == before.disks.Keys
    requires ControlsFor(cfg, controls, before.disks, labels)
    ensures controls.Keys == before.disks.Keys == before.lives.Keys
    ensures forall s :: s in before.disks ==> controls[s] == Reopened(labels[s], before.lives[s].ledger)
  {
    hide Load, SessionRun.SessionInv, Reopened;
    forall s | s in before.disks ensures controls[s] == Reopened(labels[s], before.lives[s].ledger) {
      Recovered(cfg, before, s);
    }
  }

  lemma AddedFacts(core: Core, id: SessionId, control: Control)
    ensures AddSession(core, id, control).sessions == core.sessions[id := control]
    ensures AddSession(core, id, control).clients == core.clients
  {
  }

  lemma ReloadedKeysFact<S, E, F>(cfg: Config<S, E>, before: Fleet<S, E, F>)
    requires SessionsInv(cfg, before)
    ensures before.lives.Keys == before.disks.Keys
    ensures Fleets.Reloaded(cfg, before.disks, before.started).lives.Keys == before.disks.Keys
    ensures Fleets.Reloaded(cfg, before.disks, before.started).disks.Keys == before.disks.Keys
    ensures Fleets.Reloaded(cfg, before.disks, before.started).ready == []
    ensures Fleets.Reloaded(cfg, before.disks, before.started).started == before.started
  {
  }

  /** Loading every session and then refreshing every checkpoint. */
  lemma ReloadedChecked<S, E, F>(cfg: Config<S, E>, disks: map<SessionId, Disk<S, E, F>>, started: seq<Execution>)
    ensures CheckpointedAll(Fleet(Loaded(cfg, disks), disks, [], started)) == Fleets.Reloaded(cfg, disks, started)
  {
    hide Load, Capture;
  }

  lemma ReloadedReady<S, E, F>(cfg: Config<S, E>, limit: nat, before: Fleet<S, E, F>, queue: seq<SessionId>)
    requires SessionsInv(cfg, Fleets.Reloaded(cfg, before.disks, before.started))
    requires ActiveSessions(Fleets.Reloaded(cfg, before.disks, before.started)) == {}
    requires QueueInv(Fleets.Reloaded(cfg, before.disks, before.started).(ready := queue))
    ensures FleetInv(cfg, limit, Fleets.Reloaded(cfg, before.disks, before.started).(ready := queue))
  {
    hide SessionRun.SessionInv;
    assert ActiveSessions(Fleets.Reloaded(cfg, before.disks, before.started).(ready := queue)) == {};
  }

  lemma AttachFacts<S, E, F>(
    core: Core, connection: ConnectionId, session: SessionId, mode: AttachmentMode, force: bool,
    hosts: map<SessionId, Hosted<S, E, F>>)
    ensures AttachCheck(core, connection, session, mode, force).None? ==>
              && connection in core.clients && session in core.sessions
              && var joined := ControlPlane.Attach(core, connection, session, mode);
              && joined.sessions.Keys == core.sessions.Keys && joined.clients.Keys == core.clients.Keys
              && joined.sessions[session].ledger == core.sessions[session].ledger
              && Lives(joined.sessions, hosts) == Lives(core.sessions, hosts)
  {
  }

  lemma DetachFacts<S, E, F>(
    core: Core, connection: ConnectionId, session: SessionId, hosts: map<SessionId, Hosted<S, E, F>>)
    ensures DetachCheck(core, connection, session).None? ==>
              && connection in core.clients && session in core.sessions
              && var left := ControlPlane.Detach(core, connection, session);
              && left.sessions.Keys == core.sessions.Keys && left.clients.Keys == core.clients.Keys
              && Lives(left.sessions, hosts) == Lives(core.sessions, hosts)
  {
  }

  lemma ReleaseFacts<S, E, F>(
    core: Core, connection: ConnectionId, session: SessionId, hosts: map<SessionId, Hosted<S, E, F>>)
    ensures ReleaseCheck(core, connection, session).None? ==>
              && session in core.sessions
              && var freed := Release(core, session);
              && freed.sessions.Keys == core.sessions.Keys && freed.clients == core.clients
              && Lives(freed.sessions, hosts) == Lives(core.sessions, hosts)
  {
  }

  lemma RenamedLives<S, E, F>(core: Core, hosts: map<SessionId, Hosted<S, E, F>>, s: SessionId, name: string)
    requires s in core.sessions
    ensures var renamed := Rename(core, s, name);
            && renamed.sessions.Keys == core.sessions.Keys && renamed.clients == core.clients
            && renamed.sessions[s].name == name
            && Lives(renamed.sessions, hosts) == Lives(core.sessions, hosts)
  {
  }

  lemma AdoptedLives<S, E, F>(
    core: Core, hosts: map<SessionId, Hosted<S, E, F>>, id: SessionId, control: Control, hosted: Hosted<S, E, F>)
    requires id !in core.sessions && id !in hosts
    ensures Lives(AddSession(core, id, control).sessions, hosts[id := hosted])
            == Lives(core.sessions, hosts)[id := Live(control.ledger, hosted)]
    ensures AddSession(core, id, control).clients == core.clients
    ensures AddSession(core, id, control).sessions.Keys == core.sessions.Keys + {id}
  {
  }

  lemma AddedLives<S, E, F>(core: Core, hosts: map<SessionId, Hosted<S, E, F>>, id: SessionId, name: string, app: S)
    requires id !in core.sessions && id !in hosts
    ensures var added := AddSession(core, id, NewControl(name));
            && added.sessions.Keys == core.sessions.Keys + {id} && added.clients == core.clients
            && added.sessions[id].ledger == Ledgers.EMPTY && added.sessions[id].name == name
            && Lives(added.sessions, hosts[id := Hosted(app, [], [], None, 0)])
               == Lives(core.sessions, hosts)[id := Created(app)]
  {
  }

  lemma RemovedLives<S, E, F>(core: Core, hosts: map<SessionId, Hosted<S, E, F>>, s: SessionId)
    requires s in core.sessions
    ensures var left := ControlPlane.RemoveSession(core, s);
            && left.sessions.Keys == core.sessions.Keys - {s} && left.clients.Keys == core.clients.Keys
            && Lives(left.sessions, hosts - {s}) == Lives(core.sessions, hosts) - {s}
  {
  }

  lemma LivesUpdate<S, E, F>(
    controls: map<SessionId, Control>, hosts: map<SessionId, Hosted<S, E, F>>, s: SessionId, hosted: Hosted<S, E, F>)
    requires s in hosts && s in controls
    ensures s in Lives(controls, hosts) && Lives(controls, hosts)[s] == Live(controls[s].ledger, hosts[s])
    ensures Lives(controls, hosts[s := hosted]) == Lives(controls, hosts)[s := Live(controls[s].ledger, hosted)]
  {
  }

  lemma QueueFront<S, E, F>(cfg: Config<S, E>, limit: nat, fleet: Fleet<S, E, F>)
    requires FleetInv(cfg, limit, fleet) && fleet.ready != []
    ensures fleet.ready[0] !in fleet.ready[1..]
  {
  }

  /** Leaving in two rounds is leaving at once. */
  lemma Rejoin(core: Core, first: set<ConnectionId>, mid: set<ConnectionId>, last: set<ConnectionId>)
    requires CoreInv(core) && last <= mid <= first
    ensures Without(Without(core, first - mid), mid - last) == Without(core, first - last)
  {
    hide CoreInv, LeaderCore.Valid, Without;
    WithoutCompose(core, first - mid, mid - last);
    assert (first - mid) + (mid - last) == first - last;
  }
}
