/** The wake protocol: worker threads, a coalescing bit, a one-slot channel, a forwarder task
    and the actor's bounded mailbox, as interleaved atomic steps. */
module WakeProtocol {
  import opened Protocol

  type ThreadId = nat

  /** Where a worker thread stands inside `notify`; `written` numbers its latest output. */
  datatype Worker =
    | Working(written: nat)
    /** It found the bit clear and must put a wake in the channel. */
    | Sending(written: nat)
    /** The channel was closed or full; it must clear the bit again. */
    | Undoing(written: nat)

  datatype Forwarder = Waiting | Holding | Undelivered | Leaving | Gone

  datatype Actor = Idle | Acknowledging | Polling

  datatype Mail = Wake | Other

  /** `written` counts outputs made readable so far, `announced` is the newest output whose
      thread has passed the bit, and `polled` the newest the session's polls have seen. */
  datatype State = State(
    workers: map<ThreadId, Worker>,
    queued: bool,
    slot: nat,
    slotOpen: bool,
    forwarder: Forwarder,
    mailbox: seq<Mail>,
    mailboxOpen: bool,
    actor: Actor,
    written: nat,
    announced: nat,
    polled: nat)

  const SLOTS := 1

  datatype Step =
    | WriteOutput(t: ThreadId)
    | Swap(t: ThreadId)
    | TrySend(t: ThreadId)
    | Undo(t: ThreadId)
    | Receive
    | Forward
    | ForwarderUndo
    | ForwarderLeave
    | OtherMail
    | Take
    | Acknowledge
    | Poll
    /** The periodic tick, or the poll after an effect completes. */
    | ExtraPoll
    | CloseMailbox

  predicate Enabled(s: State, capacity: nat, step: Step) {
    match step
    case WriteOutput(t) => t in s.workers && s.workers[t].Working?
    case Swap(t) => t in s.workers && s.workers[t].Working?
    case TrySend(t) => t in s.workers && s.workers[t].Sending?
    case Undo(t) => t in s.workers && s.workers[t].Undoing?
    case Receive => s.forwarder.Waiting? && s.slot > 0
    case Forward => s.forwarder.Holding? && (s.mailboxOpen ==> |s.mailbox| < capacity)
    case ForwarderUndo => s.forwarder.Undelivered?
    case ForwarderLeave => s.forwarder.Leaving?
    case OtherMail => s.mailboxOpen && |s.mailbox| < capacity
    case Take => s.mailboxOpen && s.actor.Idle? && s.mailbox != []
    case Acknowledge => s.actor.Acknowledging?
    case Poll => s.actor.Polling?
    case ExtraPoll => s.mailboxOpen && s.actor.Idle?
    case CloseMailbox => s.actor.Idle?
  }

  function Next(s: State, capacity: nat, step: Step): State
    requires Enabled(s, capacity, step)
  {
    match step
    case WriteOutput(t) =>
      s.(written := s.written + 1, workers := s.workers[t := Working(s.written + 1)])
    case Swap(t) =>
      var own := s.workers[t].written;
      s.(queued := true, announced := Max(s.announced, own),
         workers := if s.queued then s.workers else s.workers[t := Sending(own)])
    case TrySend(t) =>
      var own := s.workers[t].written;
      if s.slotOpen && s.slot < SLOTS then s.(slot := s.slot + 1, workers := s.workers[t := Working(own)])
      else s.(workers := s.workers[t := Undoing(own)])
    case Undo(t) => s.(queued := false, workers := s.workers[t := Working(s.workers[t].written)])
    case Receive => s.(slot := s.slot - 1, forwarder := Holding)
    case Forward =>
      if s.mailboxOpen then s.(mailbox := s.mailbox + [Wake], forwarder := Waiting)
      else s.(forwarder := Undelivered)
    case ForwarderUndo => s.(queued := false, forwarder := Leaving)
    case ForwarderLeave => s.(slotOpen := false, forwarder := Gone)
    case OtherMail => s.(mailbox := s.mailbox + [Other])
    case Take => s.(mailbox := s.mailbox[1..], actor := if s.mailbox[0].Wake? then Acknowledging else Idle)
    case Acknowledge => s.(queued := false, actor := Polling)
    case Poll => s.(polled := s.written, actor := Idle)
    case ExtraPoll => s.(polled := s.written)
    case CloseMailbox => s.(mailboxOpen := false)
  }

  function Initial(threads: set<ThreadId>): State {
    State(map t | t in threads :: Working(0), false, 0, true, Waiting, [], true, Idle, 0, 0, 0)
  }

  // ----- wakes in flight -----

  function Senders(workers: map<ThreadId, Worker>): set<ThreadId> {
    set t | t in workers && !workers[t].Working?
  }

  function Wakes(mailbox: seq<Mail>): nat {
    if mailbox == [] then 0 else (if mailbox[0].Wake? then 1 else 0) + Wakes(mailbox[1..])
  }

  /** Every place a wake can be between the bit being set and being cleared. */
  function InFlight(s: State): nat {
    |Senders(s.workers)| + s.slot
    + (if s.forwarder.Holding? || s.forwarder.Undelivered? then 1 else 0)
    + Wakes(s.mailbox)
    + (if s.actor.Acknowledging? then 1 else 0)
  }

  lemma {:induction false} WakesAppend(mailbox: seq<Mail>, m: Mail)
    ensures Wakes(mailbox + [m]) == Wakes(mailbox) + if m.Wake? then 1 else 0
  {
    if mailbox != [] {
      assert (mailbox + [m])[1..] == mailbox[1..] + [m];
      WakesAppend(mailbox[1..], m);
    }
  }

  lemma SenderStarts(workers: map<ThreadId, Worker>, t: ThreadId, w: Worker)
    requires t in workers && workers[t].Working? && !w.Working?
    ensures |Senders(workers[t := w])| == |Senders(workers)| + 1
  {
    assert Senders(workers[t := w]) == Senders(workers) + {t};
  }

  lemma SenderEnds(workers: map<ThreadId, Worker>, t: ThreadId, w: Worker)
    requires t in workers && !workers[t].Working? && w.Working?
    ensures |Senders(workers[t := w])| == |Senders(workers)| - 1
  {
    assert Senders(workers[t := w]) == Senders(workers) - {t};
  }

  lemma SenderStays(workers: map<ThreadId, Worker>, t: ThreadId, w: Worker)
    requires t in workers && (workers[t].Working? <==> w.Working?)
    ensures Senders(workers[t := w]) == Senders(workers)
  {
  }

  // ----- the invariant -----

  /** The bit is set exactly while one wake is in flight. */
  ghost predicate Coalesced(s: State) {
    InFlight(s) == if s.queued then 1 else 0
  }

  /** A poll that will see everything written by now is on its way. */
  ghost predicate PollToCome(s: State) {
    s.queued || s.actor.Polling?
  }

  ghost predicate Inv(s: State) {
    && Coalesced(s)
    && (forall t :: t in s.workers ==> s.workers[t].written <= s.written)
    && (forall t :: t in s.workers && s.workers[t].Undoing? ==> !s.slotOpen)
    && s.announced <= s.written && s.polled <= s.written
    && (!s.mailboxOpen ==> s.actor.Idle?)
    && (s.mailboxOpen ==> s.slotOpen && !s.forwarder.Undelivered? && !s.forwarder.Leaving? && !s.forwarder.Gone?)
    && (s.slotOpen <==> !s.forwarder.Gone?)
    && (s.mailboxOpen ==> s.announced <= s.polled || PollToCome(s))
  }

  lemma WorkerStep(s: State, capacity: nat, step: Step)
    requires Inv(s) && Enabled(s, capacity, step)
    requires step.WriteOutput? || step.Swap? || step.TrySend? || step.Undo?
    ensures Inv(Next(s, capacity, step))
    ensures step.TrySend? && s.slotOpen ==> s.slot == 0
  {
    var s' := Next(s, capacity, step);
    match step
    case WriteOutput(t) => SenderStays(s.workers, t, s'.workers[t]);
    case Swap(t) =>
      if !s.queued {
        SenderStarts(s.workers, t, s'.workers[t]);
      }
    case TrySend(t) =>
      assert t in Senders(s.workers);
      assert |Senders(s.workers)| > 0;
      if s.slotOpen && s.slot < SLOTS {
        SenderEnds(s.workers, t, s'.workers[t]);
      } else {
        SenderStays(s.workers, t, s'.workers[t]);
      }
    case Undo(t) =>
      SenderEnds(s.workers, t, s'.workers[t]);
  }

  lemma StepInv(s: State, capacity: nat, step: Step)
    requires Inv(s) && Enabled(s, capacity, step)
    ensures Inv(Next(s, capacity, step))
    ensures step.TrySend? && s.slotOpen ==> s.slot == 0
    ensures s.announced <= Next(s, capacity, step).announced && s.polled <= Next(s, capacity, step).polled
    ensures s.mailboxOpen || !Next(s, capacity, step).mailboxOpen
  {
    match step
    case WriteOutput(_) => WorkerStep(s, capacity, step);
    case Swap(_) => WorkerStep(s, capacity, step);
    case TrySend(_) => WorkerStep(s, capacity, step);
    case Undo(_) => WorkerStep(s, capacity, step);
    case Forward =>
      if s.mailboxOpen {
        WakesAppend(s.mailbox, Wake);
      }
    case OtherMail => WakesAppend(s.mailbox, Other);
    case _ =>
  }

  // ----- whole executions -----

  ghost predicate IsRun(threads: set<ThreadId>, capacity: nat, states: seq<State>, steps: seq<Step>) {
    && |states| == |steps| + 1 && states[0] == Initial(threads)
    && forall i :: 0 <= i < |steps| ==>
         Enabled(states[i], capacity, steps[i]) && states[i + 1] == Next(states[i], capacity, steps[i])
  }

  lemma {:induction false} RunInv(threads: set<ThreadId>, capacity: nat, states: seq<State>, steps: seq<Step>, i: nat)
    requires IsRun(threads, capacity, states, steps) && i < |states|
    ensures Inv(states[i])
  {
    if i == 0 {
      assert Senders(states[0].workers) == {};
    } else {
      RunInv(threads, capacity, states, steps, i - 1);
      StepInv(states[i - 1], capacity, steps[i - 1]);
    }
  }

  lemma {:induction false} RunAdvances(
    threads: set<ThreadId>, capacity: nat, states: seq<State>, steps: seq<Step>, i: nat, j: nat)
    requires IsRun(threads, capacity, states, steps) && i <= j < |states|
    ensures states[i].announced <= states[j].announced && states[i].polled <= states[j].polled
    ensures states[j].mailboxOpen ==> states[i].mailboxOpen
    decreases j
  {
    hide Next, Enabled;
    if i < j {
      RunAdvances(threads, capacity, states, steps, i, j - 1);
      RunInv(threads, capacity, states, steps, j - 1);
      StepInv(states[j - 1], capacity, steps[j - 1]);
    }
  }

  /** Wakes are never doubled: the bit is set exactly when one wake is in flight, so the
      mailbox never holds two of them and a sender never finds the slot full. */
  lemma NeverDoubled(threads: set<ThreadId>, capacity: nat, states: seq<State>, steps: seq<Step>, i: nat)
    requires IsRun(threads, capacity, states, steps) && i < |states|
    ensures states[i].queued <==> InFlight(states[i]) == 1
    ensures InFlight(states[i]) <= 1 && Wakes(states[i].mailbox) <= 1 && states[i].slot <= SLOTS
    ensures i < |steps| && steps[i].TrySend? && states[i].slotOpen ==> states[i].slot == 0
  {
    RunInv(threads, capacity, states, steps, i);
    if i < |steps| {
      StepInv(states[i], capacity, steps[i]);
    }
  }

  /** Wakes are never lost: from the moment a thread has notified, and as long as the leader
      lives, what it wrote before has been polled or a poll that will see it is on its way. */
  lemma NeverLost(threads: set<ThreadId>, capacity: nat, states: seq<State>, steps: seq<Step>, i: nat, j: nat)
    requires IsRun(threads, capacity, states, steps) && i < j < |states|
    requires steps[i].Swap? && steps[i].t in states[i].workers
    requires states[j].mailboxOpen
    ensures states[i].workers[steps[i].t].written <= states[j].polled || PollToCome(states[j])
  {
    RunInv(threads, capacity, states, steps, j);
    RunAdvances(threads, capacity, states, steps, i + 1, j);
    assert states[i + 1] == Next(states[i], capacity, steps[i]);
  }

  /** How far the wake in flight is from its poll, counting the mail ahead of it. */
  function Distance(s: State): nat {
    if s.actor.Polling? then 1
    else if s.actor.Acknowledging? then 2
    else if Wakes(s.mailbox) > 0 then 3 + FirstWake(s.mailbox)
    else if s.forwarder.Holding? then 4 + |s.mailbox|
    else if s.slot > 0 then 5 + |s.mailbox|
    else 6 + |s.mailbox|
  }

  function FirstWake(mailbox: seq<Mail>): nat
  {
    if mailbox == [] || mailbox[0].Wake? then 0 else 1 + FirstWake(mailbox[1..])
  }

  lemma {:induction false} FirstWakeIn(mailbox: seq<Mail>)
    ensures FirstWake(mailbox) <= |mailbox|
    ensures Wakes(mailbox) == 0 ==> FirstWake(mailbox + [Wake]) == |mailbox|
  {
    if mailbox != [] {
      assert (mailbox + [Wake])[1..] == mailbox[1..] + [Wake];
      FirstWakeIn(mailbox[1..]);
    }
  }

  /** No deadlock: whenever a poll is due, a step towards it is enabled for the actor, the
      forwarder or a sending thread, and taking it brings the poll nearer. */
  lemma PollComesNearer(s: State, capacity: nat) returns (step: Step)
    requires Inv(s) && s.mailboxOpen && PollToCome(s) && capacity > 0
    ensures Enabled(s, capacity, step)
    ensures step == Poll || (PollToCome(Next(s, capacity, step)) && Distance(Next(s, capacity, step)) < Distance(s))
  {
    FirstWakeIn(s.mailbox);
    if s.actor.Polling? {
      return Poll;
    }
    if s.actor.Acknowledging? {
      return Acknowledge;
    }
    if s.mailbox != [] {
      step := Take;
      return;
    }
    if s.forwarder.Holding? {
      WakesAppend(s.mailbox, Wake);
      return Forward;
    }
    if s.slot > 0 {
      return Receive;
    }
    assert |Senders(s.workers)| == 1;
    var t :| t in Senders(s.workers);
    SenderEnds(s.workers, t, Working(s.workers[t].written));
    step := TrySend(t);
  }
}

/** Cancelling an effect: one flag, one waker slot behind a lock, and the futures waiting on it. */
module Cancellation {
  import opened Protocol

  type FutureId = nat

  /** A future being polled has perhaps made its first check; a waiting one returned pending. */
  datatype Stage = Polled | Checked | Waiting | Resolved

  /** `taking` while the thread that set the flag has not yet taken the waker. `replaced` holds
      the waiting futures whose waker a later registration pushed out of the slot. */
  datatype State = State(
    cancelled: bool, taking: bool, slot: Option<FutureId>, futures: map<FutureId, Stage>,
    woken: set<FutureId>, replaced: set<FutureId>)

  datatype Step =
    | Check(f: FutureId)
    /** Under the lock: check again, then leave the waker in the slot. */
    | Register(f: FutureId)
    | PollAgain(f: FutureId)
    | Cancel
    | TakeWaker

  predicate Enabled(s: State, step: Step) {
    match step
    case Check(f) => f in s.futures && s.futures[f].Polled?
    case Register(f) => f in s.futures && s.futures[f].Checked?
    case PollAgain(f) => f in s.futures && s.futures[f].Waiting?
    case Cancel => true
    case TakeWaker => s.taking
  }

  function Next(s: State, step: Step): State
    requires Enabled(s, step)
  {
    match step
    case Check(f) => s.(futures := s.futures[f := if s.cancelled then Resolved else Checked])
    case Register(f) =>
      if s.cancelled then s.(futures := s.futures[f := Resolved])
      else s.(futures := s.futures[f := Waiting], slot := Some(f), woken := s.woken - {f},
              replaced := (s.replaced + Pushed(s.slot, f)) - {f})
    case PollAgain(f) => s.(futures := s.futures[f := Polled], replaced := s.replaced - {f})
    case Cancel => if s.cancelled then s else s.(cancelled := true, taking := true)
    case TakeWaker =>
      s.(taking := false, slot := None, woken := s.woken + if s.slot.Some? then {s.slot.value} else {})
  }

  /** The registration a new one pushes out. */
  function Pushed(slot: Option<FutureId>, f: FutureId): set<FutureId> {
    if slot.Some? && slot.value != f then {slot.value} else {}
  }

  function Initial(futures: set<FutureId>): State {
    State(false, false, None, map f | f in futures :: Polled, {}, {})
  }

  ghost predicate Inv(s: State) {
    && (s.taking ==> s.cancelled)
    && (s.cancelled && !s.taking ==> s.slot.None?)
    && (s.woken != {} ==> s.cancelled && !s.taking)
    && (forall f :: f in s.replaced ==> s.slot != Some(f) && f !in s.woken)
    && (s.slot.Some? ==> s.slot.value in s.futures)
    && (forall f :: f in s.futures && s.futures[f].Waiting? && f !in s.woken && f !in s.replaced ==> s.slot == Some(f))
  }

  lemma StepInv(s: State, step: Step)
    requires Inv(s) && Enabled(s, step)
    ensures Inv(Next(s, step))
  {
  }

  ghost predicate IsRun(futures: set<FutureId>, states: seq<State>, steps: seq<Step>) {
    && |states| == |steps| + 1 && states[0] == Initial(futures)
    && forall i :: 0 <= i < |steps| ==> Enabled(states[i], steps[i]) && states[i + 1] == Next(states[i], steps[i])
  }

  lemma {:induction false} RunInv(futures: set<FutureId>, states: seq<State>, steps: seq<Step>, i: nat)
    requires IsRun(futures, states, steps) && i < |states|
    ensures Inv(states[i]) && states[i].futures.Keys == futures
  {
    if i > 0 {
      RunInv(futures, states, steps, i - 1);
      StepInv(states[i - 1], steps[i - 1]);
    }
  }

  /** A future that sleeps although the canceller is done. */
  ghost predicate Sleeps(s: State, f: FutureId) {
    && s.cancelled && !s.taking
    && f in s.futures && s.futures[f].Waiting? && f !in s.woken
  }

  /** Once the canceller is done, the futures still asleep are exactly the waiting ones whose
      waker a later registration pushed out. */
  lemma CancelledWakes(futures: set<FutureId>, states: seq<State>, steps: seq<Step>, i: nat, f: FutureId)
    requires IsRun(futures, states, steps) && i < |states| && f in futures
    requires states[i].cancelled && !states[i].taking
    ensures f in states[i].futures
    ensures states[i].futures[f].Waiting? ==> (Sleeps(states[i], f) <==> f in states[i].replaced)
  {
    RunInv(futures, states, steps, i);
  }

  /** No run over these futures leaves one of them asleep. */
  ghost predicate AlwaysWakes(futures: set<FutureId>) {
    forall states, steps, i: nat, f | IsRun(futures, states, steps) && i < |states| && f in futures ::
      !Sleeps(states[i], f)
  }

  /** A cancellation wakes everyone who waits for it, whatever the interleaving, if and only if
      at most one future waits for it. */
  lemma WakesExactlyOneWaiter(futures: set<FutureId>)
    ensures AlwaysWakes(futures) <==> |futures| <= 1
  {
    if |futures| <= 1 {
      forall states, steps, i: nat, f | IsRun(futures, states, steps) && i < |states| && f in futures
        ensures !Sleeps(states[i], f)
      {
        Only(futures, f);
        OneWaiterIsNeverReplaced(f, states, steps, i);
      }
    } else {
      var f :| f in futures;
      assert |futures - {f}| == |futures| - 1;
      var g :| g in futures - {f};
      var states, steps := TwoWaitersCanSleep(futures, f, g);
      assert Sleeps(states[|states| - 1], f);
    }
  }

  lemma Only(futures: set<FutureId>, f: FutureId)
    requires |futures| <= 1 && f in futures
    ensures futures == {f}
  {
    assert |futures - {f}| == 0;
  }

  /** With one waiter nothing is ever replaced, so a cancelled effect always wakes it. */
  lemma {:induction false} OneWaiterIsNeverReplaced(f: FutureId, states: seq<State>, steps: seq<Step>, i: nat)
    requires IsRun({f}, states, steps) && i < |states|
    ensures states[i].replaced == {} && !Sleeps(states[i], f)
  {
    if i > 0 {
      OneWaiterIsNeverReplaced(f, states, steps, i - 1);
      RunInv({f}, states, steps, i - 1);
    }
    RunInv({f}, states, steps, i);
  }

  /** With two waiters on one effect, the first to wait can sleep through the cancellation. */
  lemma TwoWaitersCanSleep(futures: set<FutureId>, f: FutureId, g: FutureId)
    returns (states: seq<State>, steps: seq<Step>)
    requires f in futures && g in futures && f != g
    ensures IsRun(futures, states, steps) && Sleeps(states[|states| - 1], f)
  {
    steps := [Check(f), Register(f), Check(g), Register(g), Cancel, TakeWaker];
    var s0 := Initial(futures);
    var s1 := Next(s0, Check(f));
    var s2 := Next(s1, Register(f));
    var s3 := Next(s2, Check(g));
    var s4 := Next(s3, Register(g));
    var s5 := Next(s4, Cancel);
    var s6 := Next(s5, TakeWaker);
    states := [s0, s1, s2, s3, s4, s5, s6];
  }
}
