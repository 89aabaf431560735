/** The leader's control plane as values: connections, sessions, names and driver leases. */
module ControlPlane {
  import opened Protocol
  import opened Ledgers
  import opened Texts

  datatype Client = Client(instance: ClientId, sessions: set<SessionId>)

  datatype Control = Control(
    name: string,
    subscribers: set<ConnectionId>,
    driver: Option<DriverLease>,
    epoch: nat,
    ledger: Ledger)

  datatype Core = Core(
    clients: map<ConnectionId, Client>,
    sessions: map<SessionId, Control>,
    names: map<string, SessionId>)

  datatype CoreError =
    | UnknownConnection
    | UnknownSession
    | DuplicateName
    | InvalidName
    | NotAttached
    | NotDriver
    | StaleLease(current: nat)
    | ForeignRequest
    | DriverBusy(lease: DriverLease)

  datatype Authorization = Apply | Duplicate(sequence: nat)

  /** A driver transition and the connections to notify. */
  datatype DriverChange = DriverChange(session: SessionId, lease: Option<DriverLease>, subscribers: seq<ConnectionId>)

  /** The lease granted to a driving client, and whether the driver changed. */
  datatype Attachment = Attachment(lease: Option<nat>, changed: bool)

  // ----- names -----

  const MAX_NAME := 64

  predicate ValidName(name: string) {
    name != [] && |name| <= MAX_NAME && forall i :: 0 <= i < |name| ==> !IsControl(name[i])
  }

  // ----- invariants -----

  /** Some connection of this client instance is attached to the session. */
  ghost predicate Attached(clients: map<ConnectionId, Client>, session: SessionId, owner: ClientId) {
    exists c :: c in clients && clients[c].instance == owner && session in clients[c].sessions
  }

  /** Names and sessions are in bijection. */
  ghost predicate NamesInv(core: Core) {
    && (forall n :: n in core.names ==> core.names[n] in core.sessions && core.sessions[core.names[n]].name == n)
    && (forall s :: s in core.sessions ==>
          core.sessions[s].name in core.names && core.names[core.sessions[s].name] == s)
  }

  /** A connection lists a session exactly when the session lists the connection. */
  ghost predicate SymmetryInv(core: Core) {
    && (forall c, s :: c in core.clients && s in core.clients[c].sessions ==>
          s in core.sessions && c in core.sessions[s].subscribers)
    && (forall s, c :: s in core.sessions && c in core.sessions[s].subscribers ==>
          c in core.clients && s in core.clients[c].sessions)
  }

  /** A driver holds the current epoch and is still attached. */
  ghost predicate DriverInv(core: Core) {
    forall s :: s in core.sessions && core.sessions[s].driver.Some? ==>
      var lease := core.sessions[s].driver.value;
      lease.epoch == core.sessions[s].epoch && Attached(core.clients, s, lease.owner)
  }

  ghost predicate CoreInv(core: Core) {
    NamesInv(core) && SymmetryInv(core) && DriverInv(core)
  }

  // ----- operations -----

  const EMPTY_CORE := Core(map[], map[], map[])

  function Connect(core: Core, connection: ConnectionId, instance: ClientId): Core {
    core.(clients := core.clients[connection := Client(instance, {})])
  }

  /** The session after a set of connections is gone: they no longer subscribe, and its driver
      stays only while a connection of the same client instance remains attached. */
  ghost function Left(
    control: Control, session: SessionId, gone: set<ConnectionId>, rest: map<ConnectionId, Client>): Control {
    control.(subscribers := control.subscribers - gone,
             driver := if control.driver.Some? && Attached(rest, session, control.driver.value.owner)
                       then control.driver else None)
  }

  ghost function Without(core: Core, gone: set<ConnectionId>): Core {
    var rest := core.clients - gone;
    core.(clients := rest,
          sessions := map s | s in core.sessions :: Left(core.sessions[s], s, gone, rest))
  }

  function AddSession(core: Core, id: SessionId, control: Control): Core {
    core.(names := core.names[control.name := id], sessions := core.sessions[id := control])
  }

  function NewControl(name: string): Control {
    Control(name, {}, None, 0, EMPTY)
  }

  function RestoredControl(name: string, epoch: nat, snapshot: LedgerSnapshot): Control {
    Control(name, {}, None, epoch + 1, Restore(snapshot))
  }

  function Rename(core: Core, id: SessionId, name: string): Core
    requires id in core.sessions
  {
    core.(names := (core.names - {core.sessions[id].name})[name := id],
          sessions := core.sessions[id := core.sessions[id].(name := name)])
  }

  function RemoveSession(core: Core, id: SessionId): Core
    requires id in core.sessions
  {
    Core(map c | c in core.clients :: core.clients[c].(sessions := core.clients[c].sessions - {id}),
         core.sessions - {id},
         core.names - {core.sessions[id].name})
  }

  function AttachCheck(
    core: Core, connection: ConnectionId, id: SessionId, mode: AttachmentMode, force: bool): Option<CoreError> {
    if connection !in core.clients then Some(UnknownConnection)
    else if id !in core.sessions then Some(UnknownSession)
    else
      var driver := core.sessions[id].driver;
      if mode == Drive && driver.Some? && driver.value.owner != core.clients[connection].instance && !force
      then Some(DriverBusy(driver.value))
      else None
  }

  /** Whether an accepted attachment grants a new lease. */
  predicate Grants(core: Core, connection: ConnectionId, id: SessionId, mode: AttachmentMode)
    requires connection in core.clients && id in core.sessions
  {
    mode == Drive
    && (core.sessions[id].driver.None? || core.sessions[id].driver.value.owner != core.clients[connection].instance)
  }

  function Subscribe(core: Core, connection: ConnectionId, id: SessionId): Core
    requires connection in core.clients && id in core.sessions
  {
    var client := core.clients[connection];
    var control := core.sessions[id];
    core.(clients := core.clients[connection := client.(sessions := client.sessions + {id})],
          sessions := core.sessions[id := control.(subscribers := control.subscribers + {connection})])
  }

  function Grant(core: Core, connection: ConnectionId, id: SessionId): Core
    requires connection in core.clients && id in core.sessions
  {
    var control := core.sessions[id];
    core.(sessions := core.sessions[id := control.(
                        epoch := control.epoch + 1,
                        driver := Some(DriverLease(core.clients[connection].instance, control.epoch + 1)))])
  }

  function Attach(core: Core, connection: ConnectionId, id: SessionId, mode: AttachmentMode): Core
    requires connection in core.clients && id in core.sessions
  {
    var joined := Subscribe(core, connection, id);
    if Grants(core, connection, id, mode) then Grant(joined, connection, id) else joined
  }

  function DetachCheck(core: Core, connection: ConnectionId, id: SessionId): Option<CoreError> {
    if connection !in core.clients then Some(UnknownConnection)
    else if id !in core.clients[connection].sessions then Some(NotAttached)
    else if id !in core.sessions then Some(UnknownSession)
    else None
  }

  predicate Owns(core: Core, connection: ConnectionId, id: SessionId)
    requires connection in core.clients && id in core.sessions
  {
    core.sessions[id].driver.Some? && core.sessions[id].driver.value.owner == core.clients[connection].instance
  }

  function Detach(core: Core, connection: ConnectionId, id: SessionId): Core
    requires connection in core.clients && id in core.sessions
  {
    var client := core.clients[connection];
    var control := core.sessions[id];
    core.(clients := core.clients[connection := client.(sessions := client.sessions - {id})],
          sessions := core.sessions[id := control.(
                        subscribers := control.subscribers - {connection},
                        driver := if Owns(core, connection, id) then None else control.driver)])
  }

  function ReleaseCheck(core: Core, connection: ConnectionId, id: SessionId): Option<CoreError> {
    var detach := DetachCheck(core, connection, id);
    if detach.Some? then detach
    else if Owns(core, connection, id) then None
    else Some(NotDriver)
  }

  function Release(core: Core, id: SessionId): Core
    requires id in core.sessions
  {
    core.(sessions := core.sessions[id := core.sessions[id].(driver := None)])
  }

  function Authorize(
    core: Core, connection: ConnectionId, id: SessionId, lease: nat, request: RequestId): Result<Authorization,
    CoreError> {
    if connection !in core.clients then Err(UnknownConnection)
    else if request.client != core.clients[connection].instance then Err(ForeignRequest)
    else if id !in core.sessions then Err(UnknownSession)
    else if id !in core.clients[connection].sessions then Err(NotAttached)
    else if request in core.sessions[id].ledger.committed then
      Ok(Duplicate(core.sessions[id].ledger.committed[request]))
    else
      var driver := core.sessions[id].driver;
      if driver.None? then Err(NotDriver)
      else if driver.value.owner != core.clients[connection].instance then Err(NotDriver)
      else if driver.value.epoch != lease then Err(StaleLease(driver.value.epoch))
      else Ok(Apply)
  }

  function SetLedger(core: Core, id: SessionId, ledger: Ledger): Core
    requires id in core.sessions
  {
    core.(sessions := core.sessions[id := core.sessions[id].(ledger := ledger)])
  }

  function Epochs(core: Core): map<SessionId, nat> {
    map s | s in core.sessions :: core.sessions[s].epoch
  }

  /** A restarted leader's control plane: no connections, no drivers, and every session one
      epoch past the one its checkpoint stored. */
  function LoadedFrom(core: Core, stored: map<SessionId, nat>): Core
    requires core.sessions.Keys <= stored.Keys
  {
    Core(map[],
         map s | s in core.sessions ::
           core.sessions[s].(subscribers := {}, driver := None, epoch := stored[s] + 1),
         core.names)
  }

  // ----- what the answers mean -----

  /** The request comes from its own client, on a connection attached to the session. */
  predicate Entitled(core: Core, connection: ConnectionId, id: SessionId, request: RequestId) {
    && connection in core.clients && core.clients[connection].instance == request.client
    && id in core.sessions && id in core.clients[connection].sessions
  }

  /** The client of the request drives the session under this lease. */
  predicate Drives(core: Core, id: SessionId, request: RequestId, lease: nat) {
    id in core.sessions && core.sessions[id].driver == Some(DriverLease(request.client, lease))
  }

  /** An entitled resend of a remembered request is answered with its first sequence, whatever
      the lease and whoever drives; a new request is let through exactly for the driver. */
  ghost predicate Rules(
    core: Core, connection: ConnectionId, id: SessionId, lease: nat, request: RequestId,
    verdict: Result<Authorization, CoreError>)
  {
    && (verdict.Ok? ==> Entitled(core, connection, id, request))
    && (Entitled(core, connection, id, request) ==>
          var known := core.sessions[id].ledger.committed;
          && (request in known ==> verdict == Ok(Duplicate(known[request])))
          && (request !in known ==>
                && (verdict == Ok(Authorization.Apply) <==> Drives(core, id, request, lease))
                && (verdict.Ok? ==> verdict.value.Apply?)
                && (verdict.Err? ==> verdict.error == Denied(core, id, request))))
    && (!Entitled(core, connection, id, request) ==>
          && verdict.Err?
          && (verdict.error == UnknownConnection <==> connection !in core.clients)
          && (verdict.error == ForeignRequest <==>
                connection in core.clients && core.clients[connection].instance != request.client)
          && (verdict.error == UnknownSession || verdict.error == NotAttached ==>
                connection in core.clients && core.clients[connection].instance == request.client)
          && (verdict.error == UnknownSession ==> id !in core.sessions)
          && (verdict.error == NotAttached ==> id in core.sessions)
          && verdict.error in {UnknownConnection, ForeignRequest, UnknownSession, NotAttached})
  }

  /** Why an attached client's new request is turned down. */
  function Denied(core: Core, id: SessionId, request: RequestId): CoreError
    requires id in core.sessions
  {
    var driver := core.sessions[id].driver;
    if driver.Some? && driver.value.owner == request.client then StaleLease(driver.value.epoch) else NotDriver
  }

  lemma AuthorizeRules(core: Core, connection: ConnectionId, id: SessionId, lease: nat, request: RequestId)
    ensures Rules(core, connection, id, lease, request, Authorize(core, connection, id, lease, request))
  {
  }

  /** Another client drives the session and is not to be displaced. */
  predicate Busy(core: Core, connection: ConnectionId, id: SessionId, mode: AttachmentMode, force: bool) {
    && connection in core.clients && id in core.sessions
    && mode == Drive && !force && core.sessions[id].driver.Some?
    && core.sessions[id].driver.value.owner != core.clients[connection].instance
  }

  /** The answer to an attachment: refused for an unknown connection or session or a busy driver;
      a viewer gets no lease, a driver keeps the lease it holds, anyone else gets a new one. */
  ghost predicate AttachRules(
    core: Core, connection: ConnectionId, id: SessionId, mode: AttachmentMode, force: bool,
    outcome: Result<Attachment, CoreError>)
  {
    && (connection !in core.clients ==> outcome == Err(UnknownConnection))
    && (connection in core.clients && id !in core.sessions ==> outcome == Err(UnknownSession))
    && (connection in core.clients && id in core.sessions ==>
          var driver, me := core.sessions[id].driver, core.clients[connection].instance;
          && (Busy(core, connection, id, mode, force) <==> outcome.Err?)
          && (outcome.Err? ==> outcome.error == DriverBusy(driver.value))
          && (outcome.Ok? && mode == View ==> outcome.value == Attachment(None, false))
          && (outcome.Ok? && mode == Drive ==>
                outcome.value == if driver.Some? && driver.value.owner == me
                                 then Attachment(Some(driver.value.epoch), false)
                                 else Attachment(Some(core.sessions[id].epoch + 1), true)))
  }

  /** What an accepted attachment changes: the connection subscribes, and the lease is the one
      that was answered. */
  ghost predicate Joins(
    core: Core, after: Core, connection: ConnectionId, id: SessionId, outcome: Attachment)
    requires connection in core.clients && id in core.sessions
  {
    var client, control := core.clients[connection], core.sessions[id];
    && after.names == core.names
    && after.clients == core.clients[connection := client.(sessions := client.sessions + {id})]
    && id in after.sessions
    && after == core.(clients := after.clients, sessions := core.sessions[id := after.sessions[id]])
    && after.sessions[id] == control.(subscribers := control.subscribers + {connection},
                                      epoch := after.sessions[id].epoch, driver := after.sessions[id].driver)
    && if outcome.changed
       then after.sessions[id].epoch == control.epoch + 1
            && after.sessions[id].driver == Some(DriverLease(client.instance, control.epoch + 1))
       else after.sessions[id].epoch == control.epoch && after.sessions[id].driver == control.driver
  }

  lemma AttachedAsRuled(
    core: Core, connection: ConnectionId, id: SessionId, mode: AttachmentMode, force: bool, outcome: Attachment)
    requires CoreInv(core) && connection in core.clients && id in core.sessions
    requires AttachRules(core, connection, id, mode, force, Ok(outcome))
    ensures Joins(core, Attach(core, connection, id, mode), connection, id, outcome)
  {
  }

  /** One connection of a client leaves a session: it is no subscriber any more, and the lease
      ends exactly when this client held it. Nothing else changes. */
  ghost predicate Leaves(core: Core, after: Core, connection: ConnectionId, id: SessionId)
    requires connection in core.clients && id in core.sessions
  {
    var client, control := core.clients[connection], core.sessions[id];
    && after.names == core.names
    && after.clients == core.clients[connection := client.(sessions := client.sessions - {id})]
    && id in after.sessions && after.sessions == core.sessions[id := after.sessions[id]]
    && after.sessions[id] == control.(subscribers := control.subscribers - {connection},
                                      driver := after.sessions[id].driver)
    && (after.sessions[id].driver.None? <==>
          control.driver.None? || control.driver.value.owner == client.instance)
    && (after.sessions[id].driver.Some? ==> after.sessions[id].driver == control.driver)
  }

  /** Connections are gone: they subscribe to nothing, and a driver stays exactly while some
      connection of its client is still attached. */
  ghost predicate Departed(core: Core, after: Core, gone: set<ConnectionId>) {
    && after.names == core.names && after.clients == core.clients - gone
    && after.sessions.Keys == core.sessions.Keys
    && forall s :: s in core.sessions ==>
         && after.sessions[s] == core.sessions[s].(subscribers := core.sessions[s].subscribers - gone,
                                                   driver := after.sessions[s].driver)
         && (after.sessions[s].driver.Some? ==> after.sessions[s].driver == core.sessions[s].driver)
         && (core.sessions[s].driver.Some? ==>
               (after.sessions[s].driver.Some? <==>
                  exists c :: c in after.clients && s in after.clients[c].sessions
                              && after.clients[c].instance == core.sessions[s].driver.value.owner))
  }

  lemma WithoutDeparts(core: Core, gone: set<ConnectionId>)
    ensures Departed(core, Without(core, gone), gone)
  {
  }

  // ----- every operation keeps the invariants -----

  lemma ConnectKeeps(core: Core, connection: ConnectionId, instance: ClientId)
    requires CoreInv(core) && connection !in core.clients
    ensures CoreInv(Connect(core, connection, instance))
  {
    var after := Connect(core, connection, instance);
    forall s | s in core.sessions && core.sessions[s].driver.Some?
      ensures Attached(after.clients, s, core.sessions[s].driver.value.owner)
    {
      var c :| c in core.clients && core.clients[c].instance == core.sessions[s].driver.value.owner
          && s in core.clients[c].sessions;
      assert after.clients[c] == core.clients[c];
    }
  }

  lemma WithoutKeeps(core: Core, gone: set<ConnectionId>)
    requires CoreInv(core)
    ensures CoreInv(Without(core, gone))
  {
    hide Attached;
    var after := Without(core, gone);
    assert NamesInv(after);
    assert SymmetryInv(after);
    forall s | s in after.sessions && after.sessions[s].driver.Some?
      ensures after.sessions[s].driver.value.epoch == after.sessions[s].epoch
              && Attached(after.clients, s, after.sessions[s].driver.value.owner)
    {
      assert after.sessions[s] == Left(core.sessions[s], s, gone, after.clients);
    }
  }

  /** Connections can leave one by one or together, in any order. */
  lemma WithoutCompose(core: Core, a: set<ConnectionId>, b: set<ConnectionId>)
    requires CoreInv(core)
    ensures Without(Without(core, a), b) == Without(core, a + b)
  {
    var once, both := Without(core, a), Without(core, a + b);
    assert once.clients - b == both.clients;
    forall s | s in core.sessions ensures Without(once, b).sessions[s] == both.sessions[s] {
      assert core.sessions[s].subscribers - a - b == core.sessions[s].subscribers - (a + b);
      if core.sessions[s].driver.Some? && Attached(both.clients, s, core.sessions[s].driver.value.owner) {
        var owner := core.sessions[s].driver.value.owner;
        var c :| c in both.clients && both.clients[c].instance == owner && s in both.clients[c].sessions;
        assert c in once.clients && once.clients[c] == both.clients[c];
        assert Attached(once.clients, s, owner);
      }
    }
  }

  lemma WithoutClients(core: Core, gone: set<ConnectionId>)
    ensures Without(core, gone).clients == core.clients - gone
    ensures Without(core, gone).sessions.Keys == core.sessions.Keys
  {
  }

  lemma WithoutNone(core: Core)
    requires CoreInv(core)
    ensures Without(core, {}) == core
  {
    assert core.clients - {} == core.clients;
    forall s | s in core.sessions ensures Left(core.sessions[s], s, {}, core.clients) == core.sessions[s] {
      assert core.sessions[s].subscribers - {} == core.sessions[s].subscribers;
    }
  }

  lemma AddSessionKeeps(core: Core, id: SessionId, control: Control)
    requires CoreInv(core) && id !in core.sessions && control.name !in core.names
    requires control.subscribers == {} && control.driver.None?
    ensures CoreInv(AddSession(core, id, control))
  {
  }

  lemma RenameKeeps(core: Core, id: SessionId, name: string)
    requires CoreInv(core) && id in core.sessions && (name in core.names ==> core.names[name] == id)
    ensures CoreInv(Rename(core, id, name))
  {
  }

  lemma RemoveSessionKeeps(core: Core, id: SessionId)
    requires CoreInv(core) && id in core.sessions
    ensures CoreInv(RemoveSession(core, id))
  {
    var after := RemoveSession(core, id);
    forall s | s in after.sessions && after.sessions[s].driver.Some?
      ensures Attached(after.clients, s, after.sessions[s].driver.value.owner)
    {
      var c :| c in core.clients && core.clients[c].instance == core.sessions[s].driver.value.owner
          && s in core.clients[c].sessions;
      assert after.clients[c].instance == core.clients[c].instance && s in after.clients[c].sessions;
    }
  }

  lemma SubscribeKeeps(core: Core, connection: ConnectionId, id: SessionId)
    requires CoreInv(core) && connection in core.clients && id in core.sessions
    ensures CoreInv(Subscribe(core, connection, id))
  {
    var after := Subscribe(core, connection, id);
    forall s | s in core.sessions && core.sessions[s].driver.Some?
      ensures Attached(after.clients, s, core.sessions[s].driver.value.owner)
    {
      var c :| c in core.clients && core.clients[c].instance == core.sessions[s].driver.value.owner
          && s in core.clients[c].sessions;
      assert after.clients[c].instance == core.clients[c].instance && s in after.clients[c].sessions;
    }
  }

  lemma AttachKeeps(core: Core, connection: ConnectionId, id: SessionId, mode: AttachmentMode)
    requires CoreInv(core) && connection in core.clients && id in core.sessions
    ensures CoreInv(Attach(core, connection, id, mode))
  {
    SubscribeKeeps(core, connection, id);
    var joined := Subscribe(core, connection, id);
    if Grants(core, connection, id, mode) {
      assert connection in joined.clients && id in joined.clients[connection].sessions;
      assert Attached(joined.clients, id, joined.clients[connection].instance);
    }
  }

  lemma DetachKeeps(core: Core, connection: ConnectionId, id: SessionId)
    requires CoreInv(core) && connection in core.clients && id in core.sessions
    ensures CoreInv(Detach(core, connection, id))
  {
    var after := Detach(core, connection, id);
    forall s | s in after.sessions && after.sessions[s].driver.Some?
      ensures Attached(after.clients, s, after.sessions[s].driver.value.owner)
    {
      var c :| c in core.clients && core.clients[c].instance == core.sessions[s].driver.value.owner
          && s in core.clients[c].sessions;
      assert after.clients[c].instance == core.clients[c].instance && s in after.clients[c].sessions;
    }
  }

  lemma ReleaseKeeps(core: Core, id: SessionId)
    requires CoreInv(core) && id in core.sessions
    ensures CoreInv(Release(core, id))
  {
  }

  lemma LoadedFromKeeps(core: Core, stored: map<SessionId, nat>)
    requires CoreInv(core) && core.sessions.Keys <= stored.Keys
    ensures CoreInv(LoadedFrom(core, stored))
  {
  }
}
