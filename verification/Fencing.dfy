/** Fencing tokens over whole runs: which lease epochs the leader grants for one session, and
    which commands it lets through, in one leader life, across graceful restarts and across
    crashes. Epochs are stored in checkpoints only, so a crash forgets the latest grants. */
module Fencing {
  import opened Protocol
  import opened Ledgers
  import opened ControlPlane

  /** An applied command: who issued it, and the epoch of the lease it carried. */
  datatype Applied = Applied(client: ClientId, epoch: nat)

  /** `stored` is the epoch in each session's checkpoint. `grants` counts the leases granted for
      the observed session since its checkpoint was written; `applied` and `granted` are an
      observer's history of that session, over all leaders. */
  datatype World = World(
    core: Core, stored: map<SessionId, nat>, grants: nat, applied: seq<Applied>, granted: map<nat, ClientId>)

  datatype Step =
    | Connect(connection: ConnectionId, instance: ClientId)
    | Disconnect(connection: ConnectionId)
    | Attach(connection: ConnectionId, target: SessionId, mode: AttachmentMode, force: bool)
    | Detach(connection: ConnectionId, target: SessionId)
    | Release(connection: ConnectionId, target: SessionId)
    /** A domain command; `after` is the request table once it is applied. */
    | Command(connection: ConnectionId, lease: nat, request: RequestId, after: Ledger)
    /** Anything else that only moves a session's ledger. */
    | Progress(target: SessionId, after: Ledger)
    /** A session's checkpoint is rewritten, as when it is renamed. */
    | Checkpoint(target: SessionId)
    /** A graceful shutdown, which rewrites every checkpoint, followed by a load. */
    | Reload
    /** The leader dies and another one loads what the checkpoints hold. */
    | Crash

  /** A new leader: it loads these epochs and rewrites every checkpoint at once. */
  function Loaded(w: World, stored: map<SessionId, nat>): World
    requires w.core.sessions.Keys <= stored.Keys
  {
    var core := LoadedFrom(w.core, stored);
    w.(core := core, stored := Epochs(core), grants := 0)
  }

  ghost function Next(w: World, session: SessionId, step: Step): World
    requires w.core.sessions.Keys <= w.stored.Keys
  {
    match step
    case Connect(c, instance) => w.(core := ControlPlane.Connect(w.core, c, instance))
    case Disconnect(c) => w.(core := Without(w.core, {c}))
    case Attach(c, target, mode, force) =>
      if AttachCheck(w.core, c, target, mode, force).Some? then w
      else
        var core := ControlPlane.Attach(w.core, c, target, mode);
        if target == session && Grants(w.core, c, target, mode)
        then w.(core := core, grants := w.grants + 1,
                granted := w.granted[core.sessions[session].epoch := w.core.clients[c].instance])
        else w.(core := core)
    case Detach(c, target) =>
      if DetachCheck(w.core, c, target).Some? then w else w.(core := ControlPlane.Detach(w.core, c, target))
    case Release(c, target) =>
      if ReleaseCheck(w.core, c, target).Some? then w else w.(core := ControlPlane.Release(w.core, target))
    case Command(c, lease, request, after) =>
      if Authorize(w.core, c, session, lease, request) != Ok(Authorization.Apply) then w
      else w.(core := SetLedger(w.core, session, after),
              applied := w.applied + [Applied(w.core.clients[c].instance, lease)])
    case Progress(target, after) =>
      if target !in w.core.sessions then w else w.(core := SetLedger(w.core, target, after))
    case Checkpoint(target) =>
      if target !in w.core.sessions then w
      else w.(stored := w.stored[target := w.core.sessions[target].epoch],
              grants := if target == session then 0 else w.grants)
    case Reload => Loaded(w, Epochs(w.core))
    case Crash => Loaded(w, w.stored)
  }

  /** Connection numbers are never reused. */
  ghost predicate Possible(w: World, step: Step) {
    step.Connect? ==> step.connection !in w.core.clients
  }

  // ----- what every step keeps -----

  /** The session is as many epochs past its checkpoint as leases were granted since, each of
      those epochs was granted, and the driver holds the newest. */
  ghost predicate Inv(w: World, session: SessionId) {
    && CoreInv(w.core)
    && session in w.core.sessions && w.stored.Keys == w.core.sessions.Keys
    && w.core.sessions[session].epoch == w.stored[session] + w.grants
    && (forall e :: w.stored[session] < e <= w.core.sessions[session].epoch ==> e in w.granted)
    && DriverWasGranted(w, session)
  }

  ghost predicate DriverWasGranted(w: World, session: SessionId)
    requires session in w.core.sessions
  {
    var control := w.core.sessions[session];
    control.driver.Some? ==>
      control.driver.value.epoch == control.epoch
      && control.epoch in w.granted && w.granted[control.epoch] == control.driver.value.owner
  }

  /** The session has reached epoch `p`: nobody drives it below `p`, and no grant will be below. */
  ghost predicate Reached(w: World, session: SessionId, p: nat)
    requires session in w.core.sessions && session in w.stored
  {
    && p <= Max(w.core.sessions[session].epoch, w.stored[session] + 1)
    && (w.core.sessions[session].driver.Some? ==> p <= w.core.sessions[session].epoch)
  }

  /** No epoch above the current one was granted, and each applied command came from the client
      its epoch was granted to. */
  ghost predicate OneOwner(w: World, session: SessionId)
    requires session in w.core.sessions
  {
    && (forall e :: e in w.granted ==> e <= w.core.sessions[session].epoch)
    && (forall i :: 0 <= i < |w.applied| ==>
          w.applied[i].epoch in w.granted && w.granted[w.applied[i].epoch] == w.applied[i].client)
  }

  ghost predicate InOrder(w: World, session: SessionId)
    requires session in w.core.sessions && session in w.stored
  {
    && (forall i :: 0 <= i < |w.applied| ==> Reached(w, session, w.applied[i].epoch))
    && (forall i, j :: 0 <= i < j < |w.applied| ==> w.applied[i].epoch <= w.applied[j].epoch)
  }

  lemma StepInv(w: World, session: SessionId, step: Step)
    requires Inv(w, session) && Possible(w, step)
    ensures Inv(Next(w, session, step), session)
    ensures StepShape(w, Next(w, session, step), session, step)
  {
    hide CoreInv, Without, ControlPlane.Attach, ControlPlane.Detach, Authorize, Grants, LoadedFrom;
    match step
    case Connect(c, instance) => ConnectKeeps(w.core, c, instance);
    case Disconnect(c) =>
      WithoutKeeps(w.core, {c});
      LeavingKeepsEpoch(w.core, {c}, session);
    case Attach(c, target, mode, force) =>
      if AttachCheck(w.core, c, target, mode, force).None? {
        AttachKeeps(w.core, c, target, mode);
        AttachedEpoch(w.core, c, target, mode, session);
      }
    case Detach(c, target) =>
      if DetachCheck(w.core, c, target).None? {
        DetachKeeps(w.core, c, target);
        DetachedEpoch(w.core, c, target, session);
      }
    case Release(c, target) =>
      if ReleaseCheck(w.core, c, target).None? {
        ReleaseKeeps(w.core, target);
      }
    case Command(c, lease, request, after) =>
      if Authorize(w.core, c, session, lease, request) == Ok(Authorization.Apply) {
        LedgerKeeps(w.core, session, after);
        AppliedByDriver(w.core, c, session, lease, request);
      }
    case Progress(target, after) =>
      if target in w.core.sessions {
        LedgerKeeps(w.core, target, after);
      }
    case Checkpoint(_) =>
    case Reload =>
      LoadedFromKeeps(w.core, Epochs(w.core));
      LoadedEpoch(w.core, Epochs(w.core), session);
    case Crash =>
      LoadedFromKeeps(w.core, w.stored);
      LoadedEpoch(w.core, w.stored, session);
  }

  /** What any step does to the observed session: it grants the next epoch, or applies a command
      of its driver, or writes its checkpoint, or a new leader loads it, or nothing of these. */
  ghost predicate StepShape(w: World, w': World, session: SessionId, step: Step)
    requires session in w.core.sessions && session in w'.core.sessions
    requires session in w.stored && session in w'.stored
  {
    var before, after := w.core.sessions[session], w'.core.sessions[session];
    || (w'.applied == w.applied && Granted(w, w', session))
    || (&& w'.granted == w.granted && after.epoch == before.epoch && after.driver == before.driver
        && w'.stored[session] == w.stored[session]
        && before.driver.Some?
        && w'.applied == w.applied + [Applied(before.driver.value.owner, before.epoch)])
    || (&& w'.granted == w.granted && w'.applied == w.applied
        && after.epoch == before.epoch && after.driver in {None, before.driver}
        && w'.stored[session] in {w.stored[session], before.epoch})
    || (&& step.Reload? && w'.granted == w.granted && w'.applied == w.applied
        && after.driver.None? && after.epoch == w'.stored[session] == before.epoch + 1)
    || (&& step.Crash? && w'.granted == w.granted && w'.applied == w.applied
        && after.driver.None? && after.epoch == w'.stored[session] == w.stored[session] + 1)
  }

  ghost predicate Granted(w: World, w': World, session: SessionId)
    requires session in w.core.sessions && session in w'.core.sessions
    requires session in w.stored && session in w'.stored
  {
    var before, after := w.core.sessions[session], w'.core.sessions[session];
    && after.epoch == before.epoch + 1 && w'.stored[session] == w.stored[session]
    && after.driver.Some?
    && w'.granted == w.granted[after.epoch := after.driver.value.owner]
  }

  lemma LoadedEpoch(core: Core, stored: map<SessionId, nat>, s: SessionId)
    requires core.sessions.Keys <= stored.Keys && s in core.sessions
    ensures var after := LoadedFrom(core, stored);
            && after.sessions.Keys == core.sessions.Keys
            && after.sessions[s].epoch == stored[s] + 1 && after.sessions[s].driver.None?
  {
  }

  lemma LeavingKeepsEpoch(core: Core, gone: set<ConnectionId>, s: SessionId)
    requires s in core.sessions
    ensures Without(core, gone).sessions.Keys == core.sessions.Keys
    ensures Without(core, gone).sessions[s].epoch == core.sessions[s].epoch
    ensures Without(core, gone).sessions[s].driver in {None, core.sessions[s].driver}
  {
  }

  lemma AttachedEpoch(core: Core, c: ConnectionId, target: SessionId, mode: AttachmentMode, s: SessionId)
    requires c in core.clients && target in core.sessions && s in core.sessions
    ensures var after := ControlPlane.Attach(core, c, target, mode);
            && after.sessions.Keys == core.sessions.Keys
            && (if s == target && Grants(core, c, target, mode)
                then after.sessions[s].epoch == core.sessions[s].epoch + 1
                     && after.sessions[s].driver
                        == Some(DriverLease(core.clients[c].instance, core.sessions[s].epoch + 1))
                else after.sessions[s].epoch == core.sessions[s].epoch
                     && after.sessions[s].driver == core.sessions[s].driver)
  {
  }

  lemma DetachedEpoch(core: Core, c: ConnectionId, target: SessionId, s: SessionId)
    requires c in core.clients && target in core.sessions && s in core.sessions
    ensures var after := ControlPlane.Detach(core, c, target);
            && after.sessions.Keys == core.sessions.Keys && after.sessions[s].epoch == core.sessions[s].epoch
            && after.sessions[s].driver in {None, core.sessions[s].driver}
  {
  }

  lemma AppliedByDriver(core: Core, c: ConnectionId, s: SessionId, lease: nat, request: RequestId)
    requires Authorize(core, c, s, lease, request) == Ok(Authorization.Apply)
    ensures c in core.clients && s in core.sessions
    ensures core.sessions[s].driver == Some(DriverLease(core.clients[c].instance, lease))
  {
  }

  lemma LedgerKeeps(core: Core, id: SessionId, ledger: Ledger)
    requires CoreInv(core) && id in core.sessions
    ensures CoreInv(SetLedger(core, id, ledger))
  {
  }

  // ----- who can take a lease away -----

  /** The step is this client's own connection leaving the session, or giving the lease up. */
  predicate GivesUp(w: World, session: SessionId, step: Step, owner: ClientId) {
    match step
    case Disconnect(c) => c in w.core.clients && w.core.clients[c].instance == owner
    case Detach(c, target) => target == session && c in w.core.clients && w.core.clients[c].instance == owner
    case Release(c, target) => target == session && c in w.core.clients && w.core.clients[c].instance == owner
    case _ => false
  }

  /** The step is another client taking the session over by force. */
  predicate Displaces(w: World, session: SessionId, step: Step, owner: ClientId) {
    && step.Attach? && step.target == session && step.mode == Drive && step.force
    && step.connection in w.core.clients && w.core.clients[step.connection].instance != owner
  }

  /** The driver keeps its lease unless its client gives it up, a new leader loads, or another
      client takes over by force; only the last makes another client the driver. */
  predicate DriverStays(w: World, w': World, session: SessionId, step: Step)
    requires session in w.core.sessions && session in w'.core.sessions && w.core.sessions[session].driver.Some?
  {
    var lease, after := w.core.sessions[session].driver.value, w'.core.sessions[session].driver;
    && (after != Some(lease) ==>
          || GivesUp(w, session, step, lease.owner)
          || Displaces(w, session, step, lease.owner)
          || step.Reload? || step.Crash?)
    && (after.Some? && after.value.owner != lease.owner ==> Displaces(w, session, step, lease.owner))
  }

  lemma StepKeepsDriver(w: World, session: SessionId, step: Step)
    requires Inv(w, session) && Possible(w, step) && w.core.sessions[session].driver.Some?
    ensures session in Next(w, session, step).core.sessions
    ensures DriverStays(w, Next(w, session, step), session, step)
  {
    hide CoreInv, ControlPlane.Without, LoadedFrom;
    match step
    case Disconnect(c) => DepartureKeepsDriver(w.core, c, session);
    case Reload => LoadedEpoch(w.core, Epochs(w.core), session);
    case Crash => LoadedEpoch(w.core, w.stored, session);
    case _ =>
  }

  /** A driver keeps its lease when a connection of another client goes. */
  lemma DepartureKeepsDriver(core: Core, c: ConnectionId, s: SessionId)
    requires CoreInv(core) && s in core.sessions && core.sessions[s].driver.Some?
    ensures var after := Without(core, {c});
            && s in after.sessions && after.sessions[s].driver in {None, core.sessions[s].driver}
            && (after.sessions[s].driver.None? ==>
                  c in core.clients && core.clients[c].instance == core.sessions[s].driver.value.owner)
  {
    var after, owner := Without(core, {c}), core.sessions[s].driver.value.owner;
    var d :| d in core.clients && core.clients[d].instance == owner && s in core.clients[d].sessions;
    if d != c {
      assert d in after.clients && after.clients[d] == core.clients[d];
      assert Attached(after.clients, s, owner);
    }
  }

  /** Over every run: a driver keeps its lease until a connection of its own client leaves, or
      gives the lease up, or the leader is replaced, or another client takes over by force. */
  lemma DriverIsOnlyDisplacedByForce(session: SessionId, worlds: seq<World>, steps: seq<Step>, i: nat)
    requires IsRun(session, worlds, steps) && i < |steps|
    requires session in worlds[i].core.sessions && worlds[i].core.sessions[session].driver.Some?
    ensures session in worlds[i + 1].core.sessions
    ensures DriverStays(worlds[i], worlds[i + 1], session, steps[i])
  {
    hide Next, Inv, CoreInv, DriverStays;
    RunInv(session, worlds, steps, i);
    StepKeepsDriver(worlds[i], session, steps[i]);
  }

  /** Over every run, the driver and nobody else is let through: an attached client with a new
      request of its own is let through exactly when it holds the session's lease. */
  lemma DriverIsLetThrough(
    session: SessionId, worlds: seq<World>, steps: seq<Step>, i: nat,
    connection: ConnectionId, lease: nat, request: RequestId)
    requires IsRun(session, worlds, steps) && i < |steps|
    requires Entitled(worlds[i].core, connection, session, request)
    requires request !in worlds[i].core.sessions[session].ledger.committed
    requires steps[i].Command? && steps[i].connection == connection
    requires steps[i].lease == lease && steps[i].request == request
    ensures worlds[i + 1].applied == worlds[i].applied + (if Drives(worlds[i].core, session, request, lease)
                                                          then [Applied(request.client, lease)] else [])
  {
    AuthorizeRules(worlds[i].core, connection, session, lease, request);
  }

  // ----- what a crash can and cannot undo -----

  /** A crash that finds at most two grants since the checkpoint does not take a session below
      an epoch it had reached. */
  lemma StepReaches(w: World, session: SessionId, step: Step, p: nat)
    requires Inv(w, session) && Possible(w, step) && (step.Crash? ==> w.grants <= 2)
    requires Reached(w, session, p)
    ensures Inv(Next(w, session, step), session) && Reached(Next(w, session, step), session, p)
  {
    hide Next, CoreInv;
    StepInv(w, session, step);
  }

  lemma ReachedNow(w: World, session: SessionId)
    requires session in w.core.sessions && session in w.stored
    ensures Reached(w, session, w.core.sessions[session].epoch)
    ensures w.core.sessions[session].driver.Some? ==>
              forall p: nat :: Reached(w, session, p) ==> p <= w.core.sessions[session].epoch
  {
  }

  lemma StepInOrder(w: World, session: SessionId, step: Step)
    requires Inv(w, session) && Possible(w, step) && (step.Crash? ==> w.grants <= 2) && InOrder(w, session)
    ensures Inv(Next(w, session, step), session) && InOrder(Next(w, session, step), session)
  {
    hide Next, CoreInv, Reached;
    StepInv(w, session, step);
    var w' := Next(w, session, step);
    forall i | 0 <= i < |w.applied| ensures Reached(w', session, w.applied[i].epoch) {
      StepReaches(w, session, step, w.applied[i].epoch);
    }
    ReachedNow(w, session);
    ReachedNow(w', session);
  }

  /** With at most one grant since the checkpoint it does not hand out an epoch twice either. */
  lemma StepOneOwner(w: World, session: SessionId, step: Step)
    requires Inv(w, session) && Possible(w, step) && (step.Crash? ==> w.grants <= 1) && OneOwner(w, session)
    ensures Inv(Next(w, session, step), session) && OneOwner(Next(w, session, step), session)
  {
    hide Next, CoreInv;
    StepInv(w, session, step);
  }

  // ----- whole runs -----

  /** A run starts when the session is created, or when a leader has just loaded it: nobody is
      connected, nobody drives, and its checkpoint is current. */
  ghost predicate IsRun(session: SessionId, worlds: seq<World>, steps: seq<Step>) {
    && |worlds| == |steps| + 1
    && session in worlds[0].core.sessions && CoreInv(worlds[0].core)
    && worlds[0].core.sessions[session].driver.None?
    && worlds[0].stored == Epochs(worlds[0].core) && worlds[0].grants == 0
    && worlds[0].applied == [] && worlds[0].granted == map[]
    && forall i :: 0 <= i < |steps| ==>
         && worlds[i].core.sessions.Keys <= worlds[i].stored.Keys
         && Possible(worlds[i], steps[i]) && worlds[i + 1] == Next(worlds[i], session, steps[i])
  }

  /** Every crash finds at most `most` grants since the checkpoint. */
  ghost predicate CrashesFind(worlds: seq<World>, steps: seq<Step>, most: nat)
    requires |worlds| == |steps| + 1
  {
    forall i :: 0 <= i < |steps| && steps[i].Crash? ==> worlds[i].grants <= most
  }

  lemma {:induction false} RunInv(session: SessionId, worlds: seq<World>, steps: seq<Step>, i: nat)
    requires IsRun(session, worlds, steps) && i < |worlds|
    ensures Inv(worlds[i], session)
  {
    if i > 0 {
      RunInv(session, worlds, steps, i - 1);
      StepInv(worlds[i - 1], session, steps[i - 1]);
    }
  }

  lemma {:induction false} RunReaches(
    session: SessionId, worlds: seq<World>, steps: seq<Step>, i: nat, j: nat, p: nat)
    requires IsRun(session, worlds, steps) && CrashesFind(worlds, steps, 2) && i <= j < |worlds|
    requires session in worlds[i].core.sessions && session in worlds[i].stored && Reached(worlds[i], session, p)
    ensures Inv(worlds[j], session) && Reached(worlds[j], session, p)
    decreases j
  {
    hide Next, CoreInv, Reached, Inv;
    RunInv(session, worlds, steps, j);
    if i < j {
      RunReaches(session, worlds, steps, i, j - 1, p);
      StepReaches(worlds[j - 1], session, steps[j - 1], p);
    }
  }

  lemma {:induction false} RunInOrder(session: SessionId, worlds: seq<World>, steps: seq<Step>, i: nat)
    requires IsRun(session, worlds, steps) && CrashesFind(worlds, steps, 2) && i < |worlds|
    ensures Inv(worlds[i], session) && InOrder(worlds[i], session)
  {
    hide Next, Inv;
    RunInv(session, worlds, steps, i);
    if i > 0 {
      RunInOrder(session, worlds, steps, i - 1);
      StepInOrder(worlds[i - 1], session, steps[i - 1]);
    }
  }

  lemma {:induction false} RunOneOwner(session: SessionId, worlds: seq<World>, steps: seq<Step>, i: nat)
    requires IsRun(session, worlds, steps) && CrashesFind(worlds, steps, 1) && i < |worlds|
    ensures Inv(worlds[i], session) && OneOwner(worlds[i], session)
  {
    hide Next, Inv;
    RunInv(session, worlds, steps, i);
    if i > 0 {
      RunOneOwner(session, worlds, steps, i - 1);
      StepOneOwner(worlds[i - 1], session, steps[i - 1]);
    }
  }

  /** Commands are applied in epoch order over any number of leaders, as long as every crash
      finds at most two grants since the checkpoint. When it finds at most one, all commands of
      an epoch come from the one client it was granted to. */
  lemma AppliedInEpochOrder(session: SessionId, worlds: seq<World>, steps: seq<Step>, i: nat, a: nat, b: nat)
    requires IsRun(session, worlds, steps) && i < |worlds| && a < b < |worlds[i].applied|
    requires CrashesFind(worlds, steps, 2)
    ensures worlds[i].applied[a].epoch <= worlds[i].applied[b].epoch
    ensures CrashesFind(worlds, steps, 1) && worlds[i].applied[a].epoch == worlds[i].applied[b].epoch ==>
              worlds[i].applied[a].client == worlds[i].applied[b].client
  {
    RunInOrder(session, worlds, steps, i);
    if CrashesFind(worlds, steps, 1) {
      RunOneOwner(session, worlds, steps, i);
    }
  }

  /** A displaced driver is fenced off for good: once the session is past epoch `lease`, no
      command carrying it is applied, whoever sends it and whatever happens in between, as long
      as every crash finds at most two grants since the checkpoint. */
  lemma DisplacedDriverIsRefused(
    session: SessionId, worlds: seq<World>, steps: seq<Step>, i: nat, j: nat,
    connection: ConnectionId, lease: nat, request: RequestId)
    requires IsRun(session, worlds, steps) && CrashesFind(worlds, steps, 2) && i <= j < |worlds|
    requires session in worlds[i].core.sessions && lease < worlds[i].core.sessions[session].epoch
    ensures Authorize(worlds[j].core, connection, session, lease, request) != Ok(Authorization.Apply)
  {
    hide Next, CoreInv;
    RunInv(session, worlds, steps, i);
    RunReaches(session, worlds, steps, i, j, worlds[i].core.sessions[session].epoch);
  }

  /** A command is let through only for the client that was granted the session's current epoch,
      still holds it, and asks for something new. This holds over any number of crashes. */
  lemma OnlyTheCurrentDriver(
    session: SessionId, worlds: seq<World>, steps: seq<Step>, i: nat,
    connection: ConnectionId, lease: nat, request: RequestId)
    requires IsRun(session, worlds, steps) && i < |worlds|
    ensures session in worlds[i].core.sessions
    ensures Authorize(worlds[i].core, connection, session, lease, request) == Ok(Authorization.Apply) ==>
              var w := worlds[i];
              && connection in w.core.clients && request.client == w.core.clients[connection].instance
              && lease == w.core.sessions[session].epoch
              && lease in w.granted && w.granted[lease] == w.core.clients[connection].instance
              && request !in w.core.sessions[session].ledger.committed
  {
    RunInv(session, worlds, steps, i);
  }

  /** The first lease granted after a crash reuses an epoch exactly when the crash found two or
      more grants since the checkpoint. */
  lemma EpochAfterCrash(session: SessionId, worlds: seq<World>, steps: seq<Step>, i: nat)
    requires IsRun(session, worlds, steps) && CrashesFind(worlds, steps, 1) && i < |worlds|
    ensures Inv(worlds[i], session)
    ensures var crashed := Next(worlds[i], session, Crash);
            && session in crashed.core.sessions
            && (crashed.core.sessions[session].epoch + 1 in worlds[i].granted <==> worlds[i].grants >= 2)
  {
    hide CoreInv, LoadedFrom;
    RunOneOwner(session, worlds, steps, i);
    LoadedEpoch(worlds[i].core, worlds[i].stored, session);
  }

  // ----- what happens beyond those bounds -----

  /** A run of session 0 in which crashes find at most `most` grants, and how it stands at its
      end: connections, epoch, stored epoch, commands applied so far. */
  ghost predicate Stands(
    worlds: seq<World>, steps: seq<Step>, most: nat, clients: set<ConnectionId>, epoch: nat, stored: nat,
    applied: seq<Applied>)
  {
    && IsRun(0, worlds, steps) && CrashesFind(worlds, steps, most)
    && var w := worlds[|steps|];
    && Inv(w, 0) && w.core.clients.Keys == clients && w.core.sessions.Keys == {0}
    && w.core.sessions[0].epoch == epoch && w.stored == map[0 := stored]
    && w.core.sessions[0].ledger == EMPTY && w.applied == applied
  }

  lemma KeysStored(w: World)
    requires Inv(w, 0)
    ensures w.core.sessions.Keys <= w.stored.Keys
  {
  }

  lemma Extended(worlds: seq<World>, steps: seq<Step>, most: nat, step: Step)
    requires IsRun(0, worlds, steps) && CrashesFind(worlds, steps, most)
    requires Inv(worlds[|steps|], 0) && Possible(worlds[|steps|], step)
    requires step.Crash? ==> worlds[|steps|].grants <= most
    ensures Inv(Next(worlds[|steps|], 0, step), 0)
    ensures IsRun(0, worlds + [Next(worlds[|steps|], 0, step)], steps + [step])
    ensures CrashesFind(worlds + [Next(worlds[|steps|], 0, step)], steps + [step], most)
  {
    hide Next, Inv, CoreInv, Possible, StepShape;
    StepInv(worlds[|steps|], 0, step);
    KeysStored(worlds[|steps|]);
  }

  /** A client connects, takes the session over by force, and applies one command. */
  lemma TakesOver(
    worlds: seq<World>, steps: seq<Step>, most: nat, clients: set<ConnectionId>, epoch: nat, stored: nat,
    applied: seq<Applied>, c: ConnectionId, instance: ClientId)
    returns (after: seq<World>, taken: seq<Step>)
    requires Stands(worlds, steps, most, clients, epoch, stored, applied) && c !in clients
    requires var driver := worlds[|steps|].core.sessions[0].driver; driver.Some? ==> driver.value.owner != instance
    ensures Stands(after, taken, most, clients + {c}, epoch + 1, stored, applied + [Applied(instance, epoch + 1)])
    ensures after[|taken|].core.sessions[0].driver == Some(DriverLease(instance, epoch + 1))
    ensures Authorize(after[|taken|].core, c, 0, epoch + 1, RequestId(instance, 1)) == Ok(Authorization.Apply)
    ensures worlds <= after && steps < taken
  {
    hide Inv, IsRun, CrashesFind, CoreInv;
    var connect, attach := Connect(c, instance), Attach(c, 0, Drive, true);
    var command := Command(c, epoch + 1, RequestId(instance, 0), EMPTY);
    RunLength(worlds, steps);
    Extended(worlds, steps, most, connect);
    after, taken := worlds + [Next(worlds[|steps|], 0, connect)], steps + [connect];
    RunLength(after, taken);
    Extended(after, taken, most, attach);
    after, taken := after + [Next(after[|taken|], 0, attach)], taken + [attach];
    RunLength(after, taken);
    Extended(after, taken, most, command);
    after, taken := after + [Next(after[|taken|], 0, command)], taken + [command];
    RunLength(after, taken);
  }

  lemma RunLength(worlds: seq<World>, steps: seq<Step>)
    requires IsRun(0, worlds, steps)
    ensures |worlds| == |steps| + 1
  {
  }

  lemma Dies(
    worlds: seq<World>, steps: seq<Step>, most: nat, clients: set<ConnectionId>, epoch: nat, stored: nat,
    applied: seq<Applied>) returns (after: seq<World>, taken: seq<Step>)
    requires Stands(worlds, steps, most, clients, epoch, stored, applied) && epoch <= stored + most
    ensures Stands(after, taken, most, {}, stored + 1, stored + 1, applied)
    ensures after[|taken|].core.sessions[0].driver.None?
    ensures worlds <= after && steps < taken
  {
    hide IsRun, CrashesFind, CoreInv;
    RunLength(worlds, steps);
    Extended(worlds, steps, most, Crash);
    after, taken := worlds + [Next(worlds[|steps|], 0, Crash)], steps + [Crash];
    RunLength(after, taken);
  }

  lemma Begins(most: nat) returns (worlds: seq<World>)
    ensures Stands(worlds, [], most, {}, 0, 0, []) && worlds[0].core.sessions[0].driver.None?
  {
    var core := AddSession(EMPTY_CORE, 0, NewControl("s"));
    worlds := [World(core, Epochs(core), 0, [], map[])];
  }

  /** Two grants since the checkpoint: after the crash a second client applies commands under an
      epoch that another client has used. */
  lemma TwoGrantsShareAnEpoch() returns (worlds: seq<World>, steps: seq<Step>)
    ensures IsRun(0, worlds, steps) && CrashesFind(worlds, steps, 2)
    ensures worlds[|steps|].applied == [Applied(10, 1), Applied(11, 2), Applied(12, 2)]
  {
    hide IsRun, CrashesFind, Inv;
    worlds := Begins(2);
    worlds, steps := TakesOver(worlds, [], 2, {}, 0, 0, [], 0, 10);
    worlds, steps := TakesOver(worlds, steps, 2, {0}, 1, 0, [Applied(10, 1)], 1, 11);
    worlds, steps := Dies(worlds, steps, 2, {0, 1}, 2, 0, [Applied(10, 1), Applied(11, 2)]);
    worlds, steps := TakesOver(worlds, steps, 2, {}, 1, 1, [Applied(10, 1), Applied(11, 2)], 2, 12);
  }

  /** Three grants since the checkpoint: after the crash epochs go back, and a lease that the
      session was past, at `past`, is let through again. */
  lemma ThreeGrantsGoBack() returns (worlds: seq<World>, steps: seq<Step>, past: nat)
    ensures IsRun(0, worlds, steps) && CrashesFind(worlds, steps, 3) && past < |steps|
    ensures worlds[|steps|].applied == [Applied(10, 1), Applied(11, 2), Applied(10, 3), Applied(12, 2)]
    ensures 0 in worlds[past].core.sessions && 2 < worlds[past].core.sessions[0].epoch
    ensures Authorize(worlds[|steps|].core, 3, 0, 2, RequestId(12, 1)) == Ok(Authorization.Apply)
  {
    hide IsRun, CrashesFind, Inv, Authorize;
    var one, two := [Applied(10, 1)], [Applied(10, 1), Applied(11, 2)];
    var three := [Applied(10, 1), Applied(11, 2), Applied(10, 3)];
    worlds := Begins(3);
    worlds, steps := TakesOver(worlds, [], 3, {}, 0, 0, [], 0, 10);
    worlds, steps := TakesOver(worlds, steps, 3, {0}, 1, 0, one, 1, 11);
    worlds, steps := TakesOver(worlds, steps, 3, {0, 1}, 2, 0, two, 2, 10);
    past := |steps|;
    var held := worlds;
    RunLength(worlds, steps);
    worlds, steps := Dies(worlds, steps, 3, {0, 1, 2}, 3, 0, three);
    worlds, steps := TakesOver(worlds, steps, 3, {}, 1, 1, three, 3, 12);
    assert worlds[past] == held[past];
  }
}
