/** Whole runs of one session: commands, polls, effect completions, dispatches, checkpoints
    and crashes at any point, in any order and any number. */
module SessionRun {
  import opened Protocol
  import opened Sequences
  import opened Ledgers
  import opened EffectQueue
  import opened SessionLog
  import opened Recovery
  import opened EffectHistory
  import opened RequestHistory

  /** `starts` lists the journal positions of the attempts whose execution really began;
      it is an observer's log that no crash erases. */
  datatype World<S, E, F> = World(live: Live<S, E, F>, disk: Disk<S, E, F>, starts: seq<nat>)

  datatype Step<S, E, F> =
    /** An authorized command, or a resend of one that is already committed. */
    | Command(request: RequestId, reaction: Reaction<S, E, F>, now: nat)
    | Poll(reaction: Reaction<S, E, F>, now: nat)
    /** An execution reports back, or its deadline passes; possibly late. */
    | Finish(effect: EffectId, reaction: Reaction<S, E, F>, now: nat)
    | Dispatch
    /** The leader dies after recording an attempt and before starting the execution. */
    | DispatchAndCrash
    | WriteCheckpoint
    /** The leader dies between two appends and another one loads the session. */
    | Crash

  function Apply<S, E, F>(
    cfg: Config<S, E>, w: World<S, E, F>, request: Option<RequestId>, completed: Option<EffectId>,
    reaction: Reaction<S, E, F>, now: nat): World<S, E, F>
  {
    World(AfterTransition(cfg, w.live, request, completed, reaction, now),
          w.disk.(journal := w.disk.journal + [TransitionRecord(cfg, w.live, request, completed, reaction, now)]),
          w.starts)
  }

  function Restart<S, E, F>(cfg: Config<S, E>, disk: Disk<S, E, F>, starts: seq<nat>): World<S, E, F> {
    World(Restarted(cfg, disk).0, Restarted(cfg, disk).1, starts)
  }

  predicate IsRunning<S, E, F>(live: Live<S, E, F>, effect: EffectId) {
    live.hosted.active == Some(effect) && live.hosted.pending != [] && live.hosted.pending[0].id == effect
  }

  function Next<S, E, F>(cfg: Config<S, E>, w: World<S, E, F>, step: Step<S, E, F>): World<S, E, F>
    requires Possible(cfg, w, step)
  {
    match step
    case Command(request, reaction, now) =>
      if request in w.live.ledger.committed then w else Apply(cfg, w, Some(request), None, reaction, now)
    case Poll(reaction, now) => Apply(cfg, w, None, None, reaction, now)
    case Finish(effect, reaction, now) =>
      if IsRunning(w.live, effect) then Apply(cfg, w, None, Some(effect), reaction, now) else w
    case Dispatch =>
      World(AfterDispatch(w.live), w.disk.(journal := JournalAfterDispatch(w.live, w.disk.journal)),
            if OutcomeUnknown(w.live.hosted.pending[0]) then w.starts else w.starts + [|w.disk.journal|])
    case DispatchAndCrash =>
      Restart(cfg, w.disk.(journal := JournalAfterDispatch(w.live, w.disk.journal)), w.starts)
    case WriteCheckpoint => w.(disk := w.disk.(checkpoint := Capture(w.live)))
    case Crash => Restart(cfg, w.disk, w.starts)
  }

  /** What the environment can do: handlers are lawful, effect identities are new, and an
      effect is dispatched only while the session is idle. */
  ghost predicate Possible<S, E, F>(cfg: Config<S, E>, w: World<S, E, F>, step: Step<S, E, F>) {
    match step
    case Command(_, reaction, _) => Lawful(cfg, w.live.hosted.app, reaction) && NewIds(w.disk.journal, reaction)
    case Poll(reaction, _) => Lawful(cfg, w.live.hosted.app, reaction) && NewIds(w.disk.journal, reaction)
    case Finish(_, reaction, _) => Lawful(cfg, w.live.hosted.app, reaction) && NewIds(w.disk.journal, reaction)
    case Dispatch => Dispatchable(w.live)
    case DispatchAndCrash => Dispatchable(w.live)
    case WriteCheckpoint => true
    case Crash => true
  }

  function Initial<S, E, F>(app: S): World<S, E, F> {
    var live: Live<S, E, F> := Created(app);
    World(live, Disk(Capture(live), []), [])
  }

  ghost predicate IsRun<S, E, F>(cfg: Config<S, E>, app: S, worlds: seq<World<S, E, F>>, steps: seq<Step<S, E, F>>) {
    && cfg.window >= 1
    && |worlds| == |steps| + 1
    && worlds[0] == Initial(app)
    && forall i :: 0 <= i < |steps| ==>
         Possible(cfg, worlds[i], steps[i]) && worlds[i + 1] == Next(cfg, worlds[i], steps[i])
  }

  // ----- the invariant of a session -----

  ghost predicate SessionInv<S, E, F>(cfg: Config<S, E>, live: Live<S, E, F>, disk: Disk<S, E, F>) {
    && RecoveryInv(cfg, live, disk)
    && EffectInv(live, disk.journal)
    && RequestInv(cfg, live, disk.journal)
  }

  ghost predicate StartsInv<E, F>(starts: seq<nat>, journal: Journal<E, F>) {
    && StrictlyIncreasing(starts)
    && forall i :: 0 <= i < |starts| ==> starts[i] < |journal| && journal[starts[i]].event.Attempted?
  }

  ghost predicate Inv<S, E, F>(cfg: Config<S, E>, w: World<S, E, F>) {
    SessionInv(cfg, w.live, w.disk) && StartsInv(w.starts, w.disk.journal)
  }

  lemma CreatedInv<S, E, F>(cfg: Config<S, E>, app: S)
    requires cfg.window >= 1
    ensures SessionInv<S, E, F>(cfg, Created(app), Disk(Capture(Created<S, E, F>(app)), []))
  {
    CreatedRecovers<S, E, F>(cfg, app);
  }

  lemma TransitionInv<S, E, F>(
    cfg: Config<S, E>, live: Live<S, E, F>, disk: Disk<S, E, F>, request: Option<RequestId>,
    completed: Option<EffectId>, reaction: Reaction<S, E, F>, now: nat)
    requires SessionInv(cfg, live, disk)
    requires Lawful(cfg, live.hosted.app, reaction) && NewIds(disk.journal, reaction) && Completes(live, completed)
    requires request.Some? ==> request.value !in live.ledger.committed
    ensures SessionInv(cfg, AfterTransition(cfg, live, request, completed, reaction, now),
                       disk.(journal := disk.journal
                              + [TransitionRecord(cfg, live, request, completed, reaction, now)]))
  {
    Recovery.TransitionKeeps(cfg, live, disk, request, completed, reaction, now);
    EffectHistory.TransitionKeeps(cfg, live, disk.journal, request, completed, reaction, now);
    RequestHistory.TransitionKeeps(cfg, live, disk.journal, request, completed, reaction, now);
  }

  lemma DispatchInv<S, E, F>(cfg: Config<S, E>, live: Live<S, E, F>, disk: Disk<S, E, F>)
    requires SessionInv(cfg, live, disk) && Dispatchable(live)
    ensures SessionInv(cfg, AfterDispatch(live), disk.(journal := JournalAfterDispatch(live, disk.journal)))
  {
    Recovery.DispatchKeeps(cfg, live, disk);
    EffectHistory.DispatchKeeps(live, disk.journal);
    RequestHistory.DispatchKeeps(cfg, live, disk.journal);
  }

  lemma RestartInv<S, E, F>(cfg: Config<S, E>, live: Live<S, E, F>, disk: Disk<S, E, F>)
    requires SessionInv(cfg, live, disk)
    ensures SessionInv(cfg, Restarted(cfg, disk).0, Restarted(cfg, disk).1)
    ensures Restarted(cfg, disk).0 == Durable(live)
  {
    RestartKeeps(cfg, live, disk);
    DurableKeeps(live, disk.journal);
  }

  lemma CheckpointInv<S, E, F>(cfg: Config<S, E>, live: Live<S, E, F>, disk: Disk<S, E, F>)
    requires SessionInv(cfg, live, disk)
    ensures SessionInv(cfg, live, disk.(checkpoint := Capture(live)))
  {
    CheckpointKeeps(cfg, live, disk);
  }

  lemma ApplyInv<S, E, F>(
    cfg: Config<S, E>, w: World<S, E, F>, request: Option<RequestId>, completed: Option<EffectId>,
    reaction: Reaction<S, E, F>, now: nat)
    requires Inv(cfg, w) && Completes(w.live, completed)
    requires Lawful(cfg, w.live.hosted.app, reaction) && NewIds(w.disk.journal, reaction)
    requires request.Some? ==> request.value !in w.live.ledger.committed
    ensures Inv(cfg, Apply(cfg, w, request, completed, reaction, now))
    ensures Grows(w, Apply(cfg, w, request, completed, reaction, now))
  {
    TransitionInv(cfg, w.live, w.disk, request, completed, reaction, now);
  }

  lemma DispatchStarts<S, E, F>(live: Live<S, E, F>, journal: Journal<E, F>, starts: seq<nat>)
    requires StartsInv(starts, journal) && live.hosted.pending != []
    ensures StartsInv(starts, JournalAfterDispatch(live, journal))
    ensures !OutcomeUnknown(live.hosted.pending[0]) ==>
              StartsInv(starts + [|journal|], JournalAfterDispatch(live, journal))
    ensures journal <= JournalAfterDispatch(live, journal)
  {
  }

  lemma DispatchStepInv<S, E, F>(cfg: Config<S, E>, w: World<S, E, F>)
    requires Inv(cfg, w) && Dispatchable(w.live)
    ensures Inv(cfg, Next(cfg, w, Dispatch)) && Grows(w, Next(cfg, w, Dispatch))
  {
    var w' := Next(cfg, w, Dispatch);
    assert SessionInv(cfg, w'.live, w'.disk) by {
      DispatchInv(cfg, w.live, w.disk);
    }
    DispatchStarts(w.live, w.disk.journal, w.starts);
  }

  lemma DispatchAndCrashInv<S, E, F>(cfg: Config<S, E>, w: World<S, E, F>)
    requires Inv(cfg, w) && Dispatchable(w.live)
    ensures Inv(cfg, Next(cfg, w, DispatchAndCrash)) && Grows(w, Next(cfg, w, DispatchAndCrash))
  {
    var written := w.disk.(journal := JournalAfterDispatch(w.live, w.disk.journal));
    var w' := Next(cfg, w, DispatchAndCrash);
    assert SessionInv(cfg, w'.live, w'.disk) by {
      DispatchInv(cfg, w.live, w.disk);
      RestartInv(cfg, AfterDispatch(w.live), written);
    }
    DispatchStarts(w.live, w.disk.journal, w.starts);
  }

  /** Nothing durable is unwritten and no execution is forgotten. */
  ghost predicate Grows<S, E, F>(w: World<S, E, F>, w': World<S, E, F>) {
    w.disk.journal <= w'.disk.journal && w.starts <= w'.starts
  }

  lemma StepInv<S, E, F>(cfg: Config<S, E>, w: World<S, E, F>, step: Step<S, E, F>)
    requires Inv(cfg, w) && Possible(cfg, w, step)
    ensures Inv(cfg, Next(cfg, w, step)) && Grows(w, Next(cfg, w, step))
  {
    match step
    case Command(request, reaction, now) =>
      if request !in w.live.ledger.committed {
        ApplyInv(cfg, w, Some(request), None, reaction, now);
      }
    case Poll(reaction, now) =>
      ApplyInv(cfg, w, None, None, reaction, now);
    case Finish(effect, reaction, now) =>
      if IsRunning(w.live, effect) {
        ApplyInv(cfg, w, None, Some(effect), reaction, now);
      }
    case Dispatch =>
      DispatchStepInv(cfg, w);
    case DispatchAndCrash =>
      DispatchAndCrashInv(cfg, w);
    case WriteCheckpoint =>
      CheckpointInv(cfg, w.live, w.disk);
    case Crash =>
      RestartInv(cfg, w.live, w.disk);
  }

  // ----- theorems over every run -----

  lemma {:induction false} RunInv<S, E, F>(
    cfg: Config<S, E>, app: S, worlds: seq<World<S, E, F>>, steps: seq<Step<S, E, F>>, i: nat)
    requires IsRun(cfg, app, worlds, steps) && i < |worlds|
    ensures Inv(cfg, worlds[i])
  {
    if i == 0 {
      CreatedInv<S, E, F>(cfg, app);
    } else {
      RunInv(cfg, app, worlds, steps, i - 1);
      StepInv(cfg, worlds[i - 1], steps[i - 1]);
    }
  }

  /** Nothing durable is ever unwritten, and no execution is ever forgotten. */
  lemma {:induction false} LogsOnlyGrow<S, E, F>(
    cfg: Config<S, E>, app: S, worlds: seq<World<S, E, F>>, steps: seq<Step<S, E, F>>, i: nat, j: nat)
    requires IsRun(cfg, app, worlds, steps) && i <= j < |worlds|
    ensures Grows(worlds[i], worlds[j])
    decreases j
  {
    if i < j {
      LogsOnlyGrow(cfg, app, worlds, steps, i, j - 1);
      RunStepGrows(cfg, app, worlds, steps, j - 1);
    }
  }

  lemma RunStepGrows<S, E, F>(
    cfg: Config<S, E>, app: S, worlds: seq<World<S, E, F>>, steps: seq<Step<S, E, F>>, i: nat)
    requires IsRun(cfg, app, worlds, steps) && i < |steps|
    ensures Grows(worlds[i], worlds[i + 1])
  {
    RunInv(cfg, app, worlds, steps, i);
    StepInv(cfg, worlds[i], steps[i]);
  }

  /** Recovery refines the live run: whenever the leader dies, the next one rebuilds the
      state as of the last completed append, and loading once more changes nothing. */
  lemma CrashAnywhereRecovers<S, E, F>(
    cfg: Config<S, E>, app: S, worlds: seq<World<S, E, F>>, steps: seq<Step<S, E, F>>, i: nat)
    requires IsRun(cfg, app, worlds, steps) && i < |worlds|
    ensures Load(cfg, worlds[i].disk) == Durable(worlds[i].live)
    ensures Dispatchable(worlds[i].live) ==>
              Load(cfg, worlds[i].disk.(journal := JournalAfterDispatch(worlds[i].live, worlds[i].disk.journal)))
              == Durable(AfterDispatch(worlds[i].live))
    ensures Restarted(cfg, Restarted(cfg, worlds[i].disk).1) == Restarted(cfg, worlds[i].disk)
  {
    var w := worlds[i];
    RunInv(cfg, app, worlds, steps, i);
    RestartIsIdempotent(cfg, w.live, w.disk);
    if Dispatchable(w.live) {
      DispatchInv(cfg, w.live, w.disk);
    }
  }

  /** The pending queue is always the durably enqueued effects minus the completed ones, in
      enqueue order, with their recorded attempts. */
  lemma EffectsAreConserved<S, E, F>(
    cfg: Config<S, E>, app: S, worlds: seq<World<S, E, F>>, steps: seq<Step<S, E, F>>, i: nat)
    requires IsRun(cfg, app, worlds, steps) && i < |worlds|
    ensures Canon(worlds[i].live.hosted.pending) == Outstanding(worlds[i].disk.journal)
  {
    RunInv(cfg, app, worlds, steps, i);
  }

  /** Over any number of crashes, executions of one effect carry strictly increasing attempt
      numbers, and an at-most-once effect is started at most once: `p` and `q` are the journal
      positions of two executions that began, `e` names their effect in the queue. */
  lemma ExecutionsAreFenced<S, E, F>(
    cfg: Config<S, E>, app: S, worlds: seq<World<S, E, F>>, steps: seq<Step<S, E, F>>,
    i: nat, a: nat, b: nat, p: nat, q: nat, e: nat)
    requires IsRun(cfg, app, worlds, steps) && i < |worlds|
    requires a < b < |worlds[i].starts| && p == worlds[i].starts[a] && q == worlds[i].starts[b]
    requires p < |worlds[i].disk.journal| && q < |worlds[i].disk.journal|
    requires e < |Enqueued(worlds[i].disk.journal[..q])|
    requires IsAttempt(worlds[i].disk.journal[p], Enqueued(worlds[i].disk.journal[..q])[e].id)
    requires IsAttempt(worlds[i].disk.journal[q], Enqueued(worlds[i].disk.journal[..q])[e].id)
    ensures Enqueued(worlds[i].disk.journal[..q])[e].delivery == AtLeastOnce
    ensures worlds[i].disk.journal[p].event.attempt < worlds[i].disk.journal[q].event.attempt
  {
    RunInv(cfg, app, worlds, steps, i);
    AttemptsIncrease(worlds[i].disk.journal, p, q);
    if Enqueued(worlds[i].disk.journal[..q])[e].delivery == AtMostOnce {
      AtMostOneAttempt(worlds[i].disk.journal, p, q, e);
    }
  }

  /** Late completions and late deadlines change nothing. */
  lemma LateFinishIsIgnored<S, E, F>(
    cfg: Config<S, E>, app: S, worlds: seq<World<S, E, F>>, steps: seq<Step<S, E, F>>, i: nat, k: nat)
    requires IsRun(cfg, app, worlds, steps) && i < |steps| && steps[i].Finish?
    requires k < |worlds[i].disk.journal| && Completion(worlds[i].disk.journal[k]) == Some(steps[i].effect)
    ensures worlds[i + 1] == worlds[i]
  {
    RunInv(cfg, app, worlds, steps, i);
    FinishedIsIgnored(cfg, worlds[i], steps[i], k);
  }

  lemma FinishedIsIgnored<S, E, F>(cfg: Config<S, E>, w: World<S, E, F>, step: Step<S, E, F>, k: nat)
    requires Inv(cfg, w) && step.Finish? && Possible(cfg, w, step)
    requires k < |w.disk.journal| && Completion(w.disk.journal[k]) == Some(step.effect)
    ensures Next(cfg, w, step) == w
  {
    NotRunningAgain(w.live, w.disk.journal, k);
  }

  /** Whatever is running can be completed, at any attempt: its completion is recorded, the
      state the handler left is taken over, and nothing of the effect is left behind. */
  ghost predicate Retires<S, E, F>(
    w: World<S, E, F>, w': World<S, E, F>, effect: EffectId, reaction: Reaction<S, E, F>)
  {
    && |w'.disk.journal| == |w.disk.journal| + 1 && w.disk.journal <= w'.disk.journal
    && Completion(w'.disk.journal[|w.disk.journal|]) == Some(effect)
    && effect in Completed(w'.disk.journal)
    && w'.live.hosted.app == reaction.after && w'.live.hosted.active.None?
    && forall i :: 0 <= i < |w'.live.hosted.pending| ==> w'.live.hosted.pending[i].id != effect
  }

  lemma FinishCompletes<S, E, F>(cfg: Config<S, E>, w: World<S, E, F>, step: Step<S, E, F>)
    requires Inv(cfg, w) && step.Finish? && Possible(cfg, w, step)
    requires w.live.hosted.active == Some(step.effect)
    ensures Retires(w, Next(cfg, w, step), step.effect, step.reaction)
  {
    hide RecoveryInv, RequestInv, RetainIf, Enqueued, Outstanding, Completed, WellFormed, LastN, Allocate, StampIf;
    var w' := Next(cfg, w, step);
    StepInv(cfg, w, step);
    var record := w'.disk.journal[|w.disk.journal|];
    Snoc(w.disk.journal, record);
    CompletedIsGone(w'.live, w'.disk.journal, step.effect);
  }

  lemma RunningIsCompleted<S, E, F>(
    cfg: Config<S, E>, app: S, worlds: seq<World<S, E, F>>, steps: seq<Step<S, E, F>>, i: nat)
    requires IsRun(cfg, app, worlds, steps) && i < |steps| && steps[i].Finish?
    requires worlds[i].live.hosted.active == Some(steps[i].effect)
    ensures Retires(worlds[i], worlds[i + 1], steps[i].effect, steps[i].reaction)
  {
    hide Next, Inv, Retires;
    RunInv(cfg, app, worlds, steps, i);
    FinishCompletes(cfg, worlds[i], steps[i]);
  }

  lemma NotRunningAgain<S, E, F>(live: Live<S, E, F>, journal: Journal<E, F>, k: nat)
    requires EffectInv(live, journal)
    requires k < |journal| && Completion(journal[k]).Some?
    ensures !IsRunning(live, Completion(journal[k]).value)
  {
    assert Completion(journal[k]).value in Completed(journal) by {
      CompletedGrows(journal, k, |journal|);
      assert journal[..|journal|] == journal;
    }
    if live.hosted.pending != [] {
      assert Canon(live.hosted.pending)[0].id == live.hosted.pending[0].id;
      FrontIsEnqueued(journal);
    }
  }

  /** A request is applied once: the journal's commits of it are at least a whole window of
      other commits apart, and inside the window it is answered with its first sequence,
      by the leader that applied it and by any leader that recovers the session. */
  lemma RequestsApplyOnce<S, E, F>(
    cfg: Config<S, E>, app: S, worlds: seq<World<S, E, F>>, steps: seq<Step<S, E, F>>, i: nat, a: nat, b: nat)
    requires IsRun(cfg, app, worlds, steps) && i < |worlds|
    requires a < b < |Commits(worlds[i].disk.journal)|
    ensures Commits(worlds[i].disk.journal)[a].request == Commits(worlds[i].disk.journal)[b].request ==>
              b - a - 1 >= cfg.window
    ensures |Commits(worlds[i].disk.journal)| - cfg.window <= b ==>
              var c := Commits(worlds[i].disk.journal)[b];
              && c.request in worlds[i].live.ledger.committed
              && worlds[i].live.ledger.committed[c.request] == c.sequence
              && Load(cfg, worlds[i].disk).ledger == worlds[i].live.ledger
  {
    RunInv(cfg, app, worlds, steps, i);
    if |Commits(worlds[i].disk.journal)| - cfg.window <= b {
      NewestAreRemembered(cfg, app, worlds, steps, i, b);
    }
  }

  /** At every moment of a run, crashes included, each of the newest window of commits is
      remembered with its own sequence. */
  lemma NewestAreRemembered<S, E, F>(
    cfg: Config<S, E>, app: S, worlds: seq<World<S, E, F>>, steps: seq<Step<S, E, F>>, i: nat, b: nat)
    requires IsRun(cfg, app, worlds, steps) && i < |worlds|
    requires b < |Commits(worlds[i].disk.journal)| && |Commits(worlds[i].disk.journal)| - cfg.window <= b
    ensures var c, known := Commits(worlds[i].disk.journal)[b], worlds[i].live.ledger.committed;
            c.request in known && known[c.request] == c.sequence
    ensures Load(cfg, worlds[i].disk).ledger == worlds[i].live.ledger
  {
    RunInv(cfg, app, worlds, steps, i);
    ResendFindsOriginal(cfg, worlds[i].live, worlds[i].disk.journal, b);
  }

  /** Dispatching an effect that may run hands its attempt to the application; one whose
      outcome is unknown is not run again. */
  lemma DispatchExecutes<S, E, F>(cfg: Config<S, E>, w: World<S, E, F>)
    requires Possible(cfg, w, Dispatch)
    ensures var front, w' := w.live.hosted.pending[0], Next(cfg, w, Dispatch);
            && w'.live.hosted.active == Some(front.id)
            && if front.delivery == AtLeastOnce || front.attempts == 0
               then
                 && w'.starts == w.starts + [|w.disk.journal|]
                 && w'.disk.journal == w.disk.journal
                    + [Record(w.live.hosted.logSequence + 1, Attempted(front.id, front.attempts + 1))]
               else w'.starts == w.starts && w'.disk == w.disk
  {
  }

  /** The recorded events of a session have strictly increasing sequences for ever, and the
      history in memory is the newest part of them. */
  lemma EventsAreOrdered<S, E, F>(
    cfg: Config<S, E>, app: S, worlds: seq<World<S, E, F>>, steps: seq<Step<S, E, F>>, i: nat)
    requires IsRun(cfg, app, worlds, steps) && i < |worlds|
    ensures Ascending(EventsOf(worlds[i].disk.journal), worlds[i].live.ledger.sequence)
    ensures worlds[i].live.hosted.events == LastN(EventsOf(worlds[i].disk.journal), cfg.history)
  {
    RunInv(cfg, app, worlds, steps, i);
  }
}
