/** The leader core as the program holds it: tables updated in place, loops included. Every
    method is tied to the value-level control plane. */
module LeaderCores {
  import opened Protocol
  import opened Sequences
  import opened Ledgers
  import opened ControlPlane
  import opened Texts

  class LeaderCore {
    var clients: map<ConnectionId, Client>
    var sessions: map<SessionId, Control>
    var names: map<string, SessionId>
    const window: nat

    ghost function State(): Core
      reads this
    {
      Core(clients, sessions, names)
    }

    ghost predicate Valid()
      reads this
    {
      window >= 1 && CoreInv(State()) && forall s :: s in sessions ==> Ledgers.Valid(sessions[s].ledger, window)
    }

    constructor (window: nat)
      ensures Valid() && State() == EMPTY_CORE && this.window == Max(window, 1)
    {
      clients, sessions, names := map[], map[], map[];
      this.window := Max(window, 1);
    }

    method Connect(connection: ConnectionId, instance: ClientId)
      requires Valid() && connection !in clients
      modifies this
      ensures Valid() && State() == ControlPlane.Connect(old(State()), connection, instance)
    {
      ConnectKeeps(State(), connection, instance);
      clients := clients[connection := Client(instance, {})];
    }

    /** Drops a connection. Reports one change for each session that lost its driver,
        addressed to the subscribers that remain. */
    method Disconnect(connection: ConnectionId) returns (changes: seq<DriverChange>)
      requires Valid()
      modifies this
      ensures Valid() && State() == Without(old(State()), {connection})
      ensures Departed(old(State()), State(), {connection})
      ensures connection !in old(clients) ==> changes == [] && State() == old(State())
      ensures forall i :: 0 <= i < |changes| ==> Reports(changes[i])
      ensures NoDup(Sessions(changes))
      ensures forall s :: s in Sessions(changes) <==>
                s in old(sessions) && old(sessions)[s].driver.Some? && sessions[s].driver.None?
    {
      hide CoreInv, Departed;
      changes := [];
      WithoutKeeps(State(), {connection});
      WithoutDeparts(State(), {connection});
      if connection !in clients {
        AbsentLeaves(State(), connection);
        return;
      }
      ghost var before := State();
      var client := clients[connection];
      MemberSessions(before, connection);
      OthersStay(before, connection);
      clients := clients - {connection};
      sessions, changes := DropConnection(sessions, clients, client, connection);
      assert State() == Without(before, {connection}) by {
        NonMembersUntouched(before, connection);
      }
    }

    /** A driver change names the session's current driver and exactly its subscribers. */
    ghost predicate Reports(change: DriverChange)
      reads this
    {
      ReportsIn(change, sessions)
    }

    method CreateSession(id: SessionId, name: string) returns (error: Option<CoreError>)
      requires Valid() && id !in sessions
      modifies this
      ensures Valid()
      ensures error == if !ValidName(Trim(name)) then Some(InvalidName)
                       else if Trim(name) in old(names) then Some(DuplicateName)
                       else None
      ensures State() == if error.Some? then old(State()) else AddSession(old(State()), id, NewControl(Trim(name)))
      ensures error.None? ==>
                && clients == old(clients)
                && sessions == old(sessions)[id := Control(Trim(name), {}, None, 0, Ledger(0, None, map[], []))]
    {
      var clean := Trim(name);
      if !ValidName(clean) {
        return Some(InvalidName);
      }
      if clean in names {
        return Some(DuplicateName);
      }
      AddSessionKeeps(State(), id, NewControl(clean));
      names := names[clean := id];
      sessions := sessions[id := NewControl(clean)];
      error := None;
    }

    method RestoreSession(
      id: SessionId, name: string, epoch: nat, snapshot: LedgerSnapshot) returns (error: Option<CoreError>)
      requires Valid() && id !in sessions && Ledgers.Valid(Restore(snapshot), window)
      modifies this
      ensures Valid()
      ensures error == if Trim(name) in old(names) then Some(DuplicateName) else None
      ensures State() == if error.Some? then old(State())
                        else AddSession(old(State()), id, RestoredControl(Trim(name), epoch, snapshot))
    {
      var clean := Trim(name);
      if clean in names {
        return Some(DuplicateName);
      }
      AddSessionKeeps(State(), id, RestoredControl(clean, epoch, snapshot));
      names := names[clean := id];
      sessions := sessions[id := RestoredControl(clean, epoch, snapshot)];
      error := None;
    }

    method RenameSession(id: SessionId, name: string) returns (error: Option<CoreError>)
      requires Valid()
      modifies this
      ensures Valid()
      ensures error == if !ValidName(Trim(name)) then Some(InvalidName)
                       else if Trim(name) in old(names) && old(names)[Trim(name)] != id then Some(DuplicateName)
                       else if id !in old(sessions) then Some(UnknownSession)
                       else None
      ensures State() == if error.Some? then old(State()) else Rename(old(State()), id, Trim(name))
      ensures error.None? ==>
                && clients == old(clients)
                && sessions == old(sessions)[id := old(sessions)[id].(name := Trim(name))]
                && Trim(name) in names && names[Trim(name)] == id
    {
      var clean := Trim(name);
      if !ValidName(clean) {
        return Some(InvalidName);
      }
      if clean in names && names[clean] != id {
        return Some(DuplicateName);
      }
      if id !in sessions {
        return Some(UnknownSession);
      }
      RenameKeeps(State(), id, clean);
      names := names - {sessions[id].name};
      sessions := sessions[id := sessions[id].(name := clean)];
      names := names[clean := id];
      error := None;
    }

    method Attach(connection: ConnectionId, id: SessionId, mode: AttachmentMode, force: bool)
      returns (outcome: Result<Attachment, CoreError>)
      requires Valid()
      modifies this
      ensures Valid()
      ensures var check := AttachCheck(old(State()), connection, id, mode, force);
              if check.Some? then outcome == Err(check.value) && State() == old(State())
              else
                && State() == ControlPlane.Attach(old(State()), connection, id, mode)
                && outcome.Ok?
                && outcome.value.changed == Grants(old(State()), connection, id, mode)
                && outcome.value.lease == (if mode == Drive then Some(sessions[id].epoch) else None)
      ensures AttachRules(old(State()), connection, id, mode, force, outcome)
      ensures outcome.Ok? ==>
                && connection in old(clients) && id in old(sessions)
                && Joins(old(State()), State(), connection, id, outcome.value)
    {
      hide CoreInv;
      if connection !in clients {
        return Err(UnknownConnection);
      }
      if id !in sessions {
        return Err(UnknownSession);
      }
      var instance := clients[connection].instance;
      var existing := sessions[id].driver;
      if mode == Drive && existing.Some? && existing.value.owner != instance && !force {
        return Err(DriverBusy(existing.value));
      }
      AttachKeeps(State(), connection, id, mode);
      DriverEpoch(State(), id);
      clients := clients[connection := clients[connection].(sessions := clients[connection].sessions + {id})];
      sessions := sessions[id := sessions[id].(subscribers := sessions[id].subscribers + {connection})];
      if mode == View {
        return Ok(Attachment(None, false));
      }
      if existing.Some? && existing.value.owner == instance {
        return Ok(Attachment(Some(existing.value.epoch), false));
      }
      var epoch := sessions[id].epoch + 1;
      sessions := sessions[id := sessions[id].(epoch := epoch, driver := Some(DriverLease(instance, epoch)))];
      outcome := Ok(Attachment(Some(epoch), true));
    }

    /** Ends one subscription; a driver that detaches gives up its lease. */
    method Detach(connection: ConnectionId, id: SessionId) returns (outcome: Result<bool, CoreError>)
      requires Valid()
      modifies this
      ensures Valid()
      ensures var check := DetachCheck(old(State()), connection, id);
              if check.Some? then outcome == Err(check.value) && State() == old(State())
              else State() == ControlPlane.Detach(old(State()), connection, id)
                   && outcome == Ok(Owns(old(State()), connection, id))
      ensures connection !in old(clients) ==> outcome == Err(UnknownConnection)
      ensures outcome.Ok? <==>
                connection in old(clients) && id in old(clients)[connection].sessions && id in old(sessions)
      ensures outcome.Ok? ==>
                && Leaves(old(State()), State(), connection, id)
                && (outcome.value <==> old(sessions)[id].driver.Some? && sessions[id].driver.None?)
    {
      hide CoreInv;
      if connection !in clients {
        return Err(UnknownConnection);
      }
      if id !in clients[connection].sessions {
        return Err(NotAttached);
      }
      if id !in sessions {
        return Err(UnknownSession);
      }
      DetachKeeps(State(), connection, id);
      var client, control := clients[connection], sessions[id];
      clients := clients[connection := client.(sessions := client.sessions - {id})];
      control := control.(subscribers := control.subscribers - {connection});
      var owned := control.driver.Some? && control.driver.value.owner == client.instance;
      if owned {
        control := control.(driver := None);
      }
      sessions := sessions[id := control];
      outcome := Ok(owned);
    }

    method ReleaseDriver(connection: ConnectionId, id: SessionId) returns (error: Option<CoreError>)
      requires Valid()
      modifies this
      ensures Valid() && error == ReleaseCheck(old(State()), connection, id)
      ensures State() == if error.Some? then old(State()) else Release(old(State()), id)
      ensures error.None? <==>
                && connection in old(clients) && id in old(clients)[connection].sessions && id in old(sessions)
                && old(sessions)[id].driver.Some?
                && old(sessions)[id].driver.value.owner == old(clients)[connection].instance
      ensures error.None? ==>
                clients == old(clients) && sessions == old(sessions)[id := old(sessions)[id].(driver := None)]
    {
      hide CoreInv;
      if connection !in clients {
        return Some(UnknownConnection);
      }
      if id !in clients[connection].sessions {
        return Some(NotAttached);
      }
      if id !in sessions {
        return Some(UnknownSession);
      }
      if sessions[id].driver.Some? && sessions[id].driver.value.owner == clients[connection].instance {
        ReleaseKeeps(State(), id);
        sessions := sessions[id := sessions[id].(driver := None)];
        return None;
      }
      error := Some(NotDriver);
    }

    /** Whether a request may change a session: the first check that fails decides the answer. */
    method Authorize(connection: ConnectionId, id: SessionId, lease: nat, request: RequestId)
      returns (verdict: Result<Authorization, CoreError>)
      requires Valid()
      ensures verdict == ControlPlane.Authorize(State(), connection, id, lease, request)
      ensures Rules(State(), connection, id, lease, request, verdict)
    {
      AuthorizeRules(State(), connection, id, lease, request);
      if connection !in clients {
        return Err(UnknownConnection);
      }
      var client := clients[connection];
      if request.client != client.instance {
        return Err(ForeignRequest);
      }
      if id !in sessions {
        return Err(UnknownSession);
      }
      if id !in client.sessions {
        return Err(NotAttached);
      }
      var control := sessions[id];
      if request in control.ledger.committed {
        return Ok(Duplicate(control.ledger.committed[request]));
      }
      if control.driver.None? || control.driver.value.owner != client.instance {
        return Err(NotDriver);
      }
      if control.driver.value.epoch != lease {
        return Err(StaleLease(control.driver.value.epoch));
      }
      verdict := Ok(Apply);
    }

    method RemoveSession(id: SessionId) returns (error: Option<CoreError>)
      requires Valid()
      modifies this
      ensures Valid() && error == if id in old(sessions) then None else Some(UnknownSession)
      ensures State() == if error.Some? then old(State()) else ControlPlane.RemoveSession(old(State()), id)
      ensures error.None? ==>
                && sessions == old(sessions) - {id}
                && clients.Keys == old(clients).Keys
                && forall c :: c in clients ==>
                     clients[c] == old(clients)[c].(sessions := old(clients)[c].sessions - {id})
    {
      hide CoreInv;
      if id !in sessions {
        return Some(UnknownSession);
      }
      RemoveSessionKeeps(State(), id);
      ghost var before := State();
      names := names - {sessions[id].name};
      sessions := sessions - {id};
      clients := Unlist(clients, id);
      assert State() == ControlPlane.RemoveSession(before, id);
      error := None;
    }

    method StampActivity(id: SessionId, millis: nat)
      requires Valid()
      modifies this`sessions
      ensures Valid()
      ensures State() == if id in old(sessions)
                         then SetLedger(old(State()), id, Stamp(old(sessions)[id].ledger, millis))
                         else old(State())
      ensures id in sessions ==>
                var before, after := old(sessions)[id].ledger.lastEventAt, sessions[id].ledger.lastEventAt;
                && after.Some? && after.value >= millis && (before.Some? ==> after.value >= before.value)
                && (after == Some(millis) || after == before)
    {
      if id in sessions {
        KeepsUnderLedger(State(), id, Stamp(sessions[id].ledger, millis));
        sessions := sessions[id := sessions[id].(ledger := Stamp(sessions[id].ledger, millis))];
      }
    }

    /** Commits a request and allocates its event sequence, forgetting the oldest requests
        beyond the window. */
    method Commit(id: SessionId, request: RequestId) returns (sequence: nat)
      requires Valid() && id in sessions
      modifies this`sessions
      ensures Valid()
      ensures State() == SetLedger(old(State()), id, Ledgers.Commit(old(sessions)[id].ledger, request, window))
      ensures sequence == CommitSequence(old(sessions)[id].ledger, request)
    {
      hide CoreInv;
      var l := sessions[id].ledger;
      if request in l.committed {
        sequence := l.committed[request];
        return;
      }
      ghost var first := l;
      sequence := l.sequence + 1;
      l := l.(sequence := sequence, committed := l.committed[request := sequence], order := l.order + [request]);
      RememberValid(first, request, sequence, window);
      l := Forget(l);
      KeepsUnderLedger(State(), id, l);
      sessions := sessions[id := sessions[id].(ledger := l)];
    }

    /** Allocates a sequence for an event no request asked for. */
    method Publish(id: SessionId) returns (sequence: nat)
      requires Valid() && id in sessions
      modifies this`sessions
      ensures Valid()
      ensures State() == SetLedger(old(State()), id, Ledgers.Publish(old(sessions)[id].ledger))
      ensures sequence == old(sessions)[id].ledger.sequence + 1
    {
      hide CoreInv;
      sequence := sessions[id].ledger.sequence + 1;
      KeepsUnderLedger(State(), id, Ledgers.Publish(sessions[id].ledger));
      sessions := sessions[id := sessions[id].(ledger := sessions[id].ledger.(sequence := sequence))];
    }

    method Forget(ledger: Ledger) returns (kept: Ledger)
      ensures kept == Expire(ledger, window)
    {
      kept := ledger;
      while |kept.order| > window
        invariant Expire(kept, window) == Expire(ledger, window)
        decreases |kept.order|
      {
        kept := kept.(order := kept.order[1..], committed := kept.committed - {kept.order[0]});
      }
    }

    /** The connections subscribed to a session, in some order, each once. */
    method Subscribers(id: SessionId) returns (connections: seq<ConnectionId>)
      requires Valid() && id in sessions
      ensures NoDup(connections) && forall c :: c in connections <==> c in sessions[id].subscribers
    {
      connections := Enumerate(sessions[id].subscribers);
    }
  }

  ghost predicate ReportsIn(change: DriverChange, sessions: map<SessionId, Control>) {
    && change.session in sessions
    && change.lease == sessions[change.session].driver
    && NoDup(change.subscribers)
    && forall c :: c in change.subscribers <==> c in sessions[change.session].subscribers
  }

  function Sessions(changes: seq<DriverChange>): (r: seq<SessionId>)
    ensures |r| == |changes| && forall i :: 0 <= i < |r| ==> r[i] == changes[i].session
  {
    seq(|changes|, i requires 0 <= i < |changes| => changes[i].session)
  }

  lemma StillReports(changes: seq<DriverChange>, sessions: map<SessionId, Control>, s: SessionId, control: Control)
    ensures forall i :: 0 <= i < |changes| && changes[i].session != s && ReportsIn(changes[i], sessions) ==>
              ReportsIn(changes[i], sessions[s := control])
  {
  }

  /** Takes a leaving connection off one session; tells whether the session lost its driver. */
  method DropFromSession(
    control: Control, s: SessionId, rest: map<ConnectionId, Client>, client: Client, connection: ConnectionId)
    returns (after: Control, lost: bool)
    requires control.driver.Some? && control.driver.value.owner != client.instance ==>
               Attached(rest, s, control.driver.value.owner)
    ensures after == Left(control, s, {connection}, rest)
    ensures lost == (control.driver.Some? && after.driver.None?)
  {
    after := control.(subscribers := control.subscribers - {connection});
    var remains := exists c :: c in rest && rest[c].instance == client.instance && s in rest[c].sessions;
    assert remains <==> Attached(rest, s, client.instance);
    lost := !remains && control.driver.Some? && control.driver.value.owner == client.instance;
    if lost {
      after := after.(driver := None);
    }
  }

  /** Visits the sessions of a connection that is leaving, in no particular order: each loses
      the subscriber, and its driver when no other connection of that client remains. */
  method DropConnection(
    sessions: map<SessionId, Control>, rest: map<ConnectionId, Client>, client: Client, connection: ConnectionId)
    returns (after: map<SessionId, Control>, changes: seq<DriverChange>)
    requires client.sessions <= sessions.Keys
    requires forall s :: s in client.sessions && sessions[s].driver.Some?
               && sessions[s].driver.value.owner != client.instance
               ==> Attached(rest, s, sessions[s].driver.value.owner)
    ensures after.Keys == sessions.Keys
    ensures forall s :: s in client.sessions ==> after[s] == Left(sessions[s], s, {connection}, rest)
    ensures forall s :: s in sessions && s !in client.sessions ==> after[s] == sessions[s]
    ensures forall i :: 0 <= i < |changes| ==> ReportsIn(changes[i], after)
    ensures NoDup(Sessions(changes))
    ensures forall s :: s in Sessions(changes) <==> s in sessions && sessions[s].driver.Some? && after[s].driver.None?
  {
    hide ReportsIn, Left, NoDup, Attached;
    after, changes := sessions, [];
    NoChanges();
    var todo := client.sessions;
    while todo != {}
      invariant todo <= client.sessions && after.Keys == sessions.Keys
      invariant forall s :: s in client.sessions - todo ==> after[s] == Left(sessions[s], s, {connection}, rest)
      invariant forall s :: s in sessions && (s in todo || s !in client.sessions) ==> after[s] == sessions[s]
      invariant forall i :: 0 <= i < |changes| ==> ReportsIn(changes[i], after)
      invariant NoDup(Sessions(changes))
      invariant forall s :: s in Sessions(changes) <==>
                  s in sessions && sessions[s].driver.Some? && after[s].driver.None?
      decreases |todo|
    {
      var s :| s in todo;
      todo := todo - {s};
      var control, lost := DropFromSession(after[s], s, rest, client, connection);
      if lost {
        var recipients := Enumerate(control.subscribers);
        assert s !in Sessions(changes);
        OneMoreChange(changes, DriverChange(s, None, recipients), after, control);
        changes := changes + [DriverChange(s, None, recipients)];
      } else {
        StillReports(changes, after, s, control);
      }
      after := after[s := control];
    }
  }

  lemma NoChanges()
    ensures NoDup(Sessions([])) && Sessions([]) == []
  {
  }

  lemma OneMoreChange(
    changes: seq<DriverChange>, change: DriverChange, sessions: map<SessionId, Control>, control: Control)
    requires NoDup(Sessions(changes)) && change.session !in Sessions(changes)
    requires forall i :: 0 <= i < |changes| ==> ReportsIn(changes[i], sessions)
    requires change.lease == control.driver && NoDup(change.subscribers)
    requires forall c :: c in change.subscribers <==> c in control.subscribers
    ensures Sessions(changes + [change]) == Sessions(changes) + [change.session] && NoDup(Sessions(changes + [change]))
    ensures forall i :: 0 <= i < |changes + [change]| ==>
              ReportsIn((changes + [change])[i], sessions[change.session := control])
  {
    assert Sessions(changes + [change]) == Sessions(changes) + [change.session];
    forall i | 0 <= i < |changes| ensures ReportsIn(changes[i], sessions[change.session := control]) {
      assert Sessions(changes)[i] == changes[i].session;
    }
  }

  /** Strikes a removed session from every connection's list. */
  method Unlist(clients: map<ConnectionId, Client>, id: SessionId) returns (after: map<ConnectionId, Client>)
    ensures after == map c | c in clients :: clients[c].(sessions := clients[c].sessions - {id})
  {
    after := clients;
    var todo := clients.Keys;
    while todo != {}
      invariant todo <= clients.Keys == after.Keys
      invariant forall c :: c in todo ==> after[c] == clients[c]
      invariant forall c :: c in clients && c !in todo ==>
                  after[c] == clients[c].(sessions := clients[c].sessions - {id})
      decreases |todo|
    {
      var c :| c in todo;
      todo := todo - {c};
      after := after[c := after[c].(sessions := after[c].sessions - {id})];
    }
  }

  method Enumerate(connections: set<ConnectionId>) returns (list: seq<ConnectionId>)
    ensures NoDup(list) && forall c :: c in list <==> c in connections
  {
    list := [];
    var todo := connections;
    while todo != {}
      invariant todo <= connections && NoDup(list)
      invariant forall c :: c in list <==> c in connections - todo
      decreases |todo|
    {
      var c :| c in todo;
      todo := todo - {c};
      assert c !in list;
      list := list + [c];
    }
  }

  lemma MemberSessions(core: Core, connection: ConnectionId)
    requires CoreInv(core) && connection in core.clients
    ensures forall s :: s in core.clients[connection].sessions ==> s in core.sessions
  {
  }

  lemma DriverEpoch(core: Core, s: SessionId)
    requires CoreInv(core) && s in core.sessions
    ensures core.sessions[s].driver.Some? ==> core.sessions[s].driver.value.epoch == core.sessions[s].epoch
  {
  }

  /** A driver that is not the leaving client stays attached. */
  lemma OthersStay(core: Core, connection: ConnectionId)
    requires CoreInv(core) && connection in core.clients
    ensures forall s :: s in core.sessions && core.sessions[s].driver.Some?
              && (core.sessions[s].driver.value.owner != core.clients[connection].instance
                  || s !in core.clients[connection].sessions)
              ==> Attached(core.clients - {connection}, s, core.sessions[s].driver.value.owner)
  {
    forall s | s in core.sessions && core.sessions[s].driver.Some?
        && (core.sessions[s].driver.value.owner != core.clients[connection].instance
            || s !in core.clients[connection].sessions)
      ensures Attached(core.clients - {connection}, s, core.sessions[s].driver.value.owner)
    {
      var owner := core.sessions[s].driver.value.owner;
      var c :| c in core.clients && core.clients[c].instance == owner && s in core.clients[c].sessions;
      assert c in core.clients - {connection};
    }
  }

  lemma NonMembersUntouched(core: Core, connection: ConnectionId)
    requires CoreInv(core) && connection in core.clients
    ensures forall s :: s in core.sessions && s !in core.clients[connection].sessions ==>
              Left(core.sessions[s], s, {connection}, core.clients - {connection}) == core.sessions[s]
  {
    OthersStay(core, connection);
    forall s | s in core.sessions && s !in core.clients[connection].sessions
      ensures Left(core.sessions[s], s, {connection}, core.clients - {connection}) == core.sessions[s]
    {
      assert core.sessions[s].subscribers - {connection} == core.sessions[s].subscribers;
    }
  }

  lemma AbsentLeaves(core: Core, connection: ConnectionId)
    requires CoreInv(core) && connection !in core.clients
    ensures Without(core, {connection}) == core
  {
    assert core.clients - {connection} == core.clients;
    forall s | s in core.sessions
      ensures Left(core.sessions[s], s, {connection}, core.clients) == core.sessions[s]
    {
      assert core.sessions[s].subscribers - {connection} == core.sessions[s].subscribers;
    }
  }

  lemma KeepsUnderLedger(core: Core, id: SessionId, ledger: Ledger)
    requires CoreInv(core) && id in core.sessions
    ensures CoreInv(SetLedger(core, id, ledger))
  {
  }
}
