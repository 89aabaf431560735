/** What the journal says about effects: which were enqueued, how often each was attempted,
    which completed, and why the queue in memory is exactly the rest. */
module EffectHistory {
  import opened Protocol
  import opened Sequences
  import opened EffectQueue
  import opened SessionLog

  /** Effects ever enqueued, in order, as their records hold them. */
  function Enqueued<E, F>(journal: Journal<E, F>): seq<Pending<F>> {
    if journal == [] then []
    else Enqueued(journal[..|journal| - 1]) + NewEffects(journal[|journal| - 1])
  }

  function NewEffects<E, F>(record: Record<E, F>): seq<Pending<F>> {
    if record.event.Transition? then DecodeAll(record.event.effects) else []
  }

  function Completion<E, F>(record: Record<E, F>): Option<EffectId> {
    if record.event.Transition? then record.event.completed else None
  }

  function Completed<E, F>(journal: Journal<E, F>): set<EffectId> {
    if journal == [] then {}
    else
      var c := Completion(journal[|journal| - 1]);
      Completed(journal[..|journal| - 1]) + (if c.Some? then {c.value} else {})
  }

  /** How many execution attempts of an effect the journal records. */
  function Attempts<E, F>(journal: Journal<E, F>, effect: EffectId): nat {
    if journal == [] then 0
    else Attempts(journal[..|journal| - 1], effect)
         + (if IsAttempt(journal[|journal| - 1], effect) then 1 else 0)
  }

  predicate IsAttempt<E, F>(record: Record<E, F>, effect: EffectId) {
    record.event.Attempted? && record.event.effect == effect
  }

  /** The entries whose effect is not done, carrying their recorded attempts. */
  function Remaining<E, F>(ps: seq<Pending<F>>, done: set<EffectId>, journal: Journal<E, F>): seq<Pending<F>> {
    if ps == [] then []
    else (if ps[0].id in done then [] else [ps[0].(attempts := Attempts(journal, ps[0].id))])
         + Remaining(ps[1..], done, journal)
  }

  /** The durably enqueued effects that no journaled transition has completed. */
  function Outstanding<E, F>(journal: Journal<E, F>): seq<Pending<F>> {
    Remaining(Enqueued(journal), Completed(journal), journal)
  }

  ghost predicate DistinctIds<F>(ps: seq<Pending<F>>) {
    forall i, j :: 0 <= i < j < |ps| ==> ps[i].id != ps[j].id
  }

  ghost predicate Mentions<F>(ps: seq<Pending<F>>, id: EffectId) {
    exists i :: 0 <= i < |ps| && ps[i].id == id
  }

  ghost predicate FreshEffects<E, F>(journal: Journal<E, F>, effects: seq<Pending<F>>) {
    && DistinctIds(effects)
    && (forall i :: 0 <= i < |effects| ==> effects[i].attempts == 0 && !Mentions(Enqueued(journal), effects[i].id))
  }

  /** What a record may say after the records before it: only the oldest outstanding effect
      is attempted or completed, attempts count up by one, an at-most-once effect is
      attempted only once, and a completed effect was attempted. */
  ghost predicate Allowed<E, F>(before: Journal<E, F>, record: Record<E, F>) {
    var queue := Outstanding(before);
    match record.event
    case Transition(_, _, _, _, effects, completed) =>
      && FreshEffects(before, DecodeAll(effects))
      && (completed.Some? ==> queue != [] && queue[0].id == completed.value && queue[0].attempts > 0)
    case Attempted(effect, attempt) =>
      && queue != [] && queue[0].id == effect
      && attempt == queue[0].attempts + 1
      && !OutcomeUnknown(queue[0])
  }

  ghost predicate WellFormed<E, F>(journal: Journal<E, F>) {
    forall k :: 0 <= k < |journal| ==> Allowed(journal[..k], journal[k])
  }

  /** The queue in memory is what the journal leaves outstanding, and whatever is running is
      the oldest of it and has a recorded attempt. */
  ghost predicate EffectInv<S, E, F>(live: Live<S, E, F>, journal: Journal<E, F>) {
    && WellFormed(journal)
    && Canon(live.hosted.pending) == Outstanding(journal)
    && (live.hosted.active.Some? ==>
          live.hosted.pending != []
          && live.hosted.pending[0].id == live.hosted.active.value
          && live.hosted.pending[0].attempts > 0)
  }

  // ----- structure of the definitions -----

  lemma Snoc<E, F>(journal: Journal<E, F>, record: Record<E, F>)
    ensures Enqueued(journal + [record]) == Enqueued(journal) + NewEffects(record)
    ensures Completed(journal + [record])
            == Completed(journal) + (if Completion(record).Some? then {Completion(record).value} else {})
    ensures forall id ::
              Attempts(journal + [record], id) == Attempts(journal, id) + if IsAttempt(record, id) then 1 else 0
  {
    assert (journal + [record])[..|journal|] == journal;
  }

  lemma WellFormedSnoc<E, F>(journal: Journal<E, F>, record: Record<E, F>)
    requires WellFormed(journal) && Allowed(journal, record)
    ensures WellFormed(journal + [record])
  {
    var grown := journal + [record];
    forall k | 0 <= k < |grown| ensures Allowed(grown[..k], grown[k]) {
      if k < |journal| {
        assert grown[..k] == journal[..k];
      } else {
        assert grown[..k] == journal;
      }
    }
  }

  lemma WellFormedPrefix<E, F>(journal: Journal<E, F>, n: nat)
    requires WellFormed(journal) && n <= |journal|
    ensures WellFormed(journal[..n])
  {
    forall k | 0 <= k < n ensures Allowed(journal[..n][..k], journal[..n][k]) {
      assert journal[..n][..k] == journal[..k];
    }
  }

  lemma {:induction false} RemainingMember<E, F>(
    ps: seq<Pending<F>>, done: set<EffectId>, journal: Journal<E, F>, k: nat)
    requires k < |Remaining(ps, done, journal)|
    ensures exists i :: 0 <= i < |ps| && ps[i].id !in done
                        && Remaining(ps, done, journal)[k] == ps[i].(attempts := Attempts(journal, ps[i].id))
  {
    if ps[0].id in done {
      RemainingMember(ps[1..], done, journal, k);
      var i :| 0 <= i < |ps[1..]| && ps[1..][i].id !in done
               && Remaining(ps[1..], done, journal)[k] == ps[1..][i].(attempts := Attempts(journal, ps[1..][i].id));
      assert ps[i + 1] == ps[1..][i];
    } else if k > 0 {
      RemainingMember(ps[1..], done, journal, k - 1);
      var i :| 0 <= i < |ps[1..]| && ps[1..][i].id !in done
               && Remaining(ps[1..], done, journal)[k - 1] == ps[1..][i].(attempts := Attempts(journal, ps[1..][i].id));
      assert ps[i + 1] == ps[1..][i];
    }
  }

  lemma {:induction false} RemainingConcat<E, F>(
    a: seq<Pending<F>>, b: seq<Pending<F>>, done: set<EffectId>, journal: Journal<E, F>)
    ensures Remaining(a + b, done, journal) == Remaining(a, done, journal) + Remaining(b, done, journal)
  {
    if a == [] {
      assert a + b == b;
    } else {
      assert (a + b)[1..] == a[1..] + b;
      RemainingConcat(a[1..], b, done, journal);
    }
  }

  lemma {:induction false} RemainingCompletes<E, F>(
    ps: seq<Pending<F>>, done: set<EffectId>, id: EffectId, journal: Journal<E, F>)
    ensures Remaining(ps, done + {id}, journal) == Retain(Remaining(ps, done, journal), id)
  {
    if ps != [] {
      RemainingCompletes(ps[1..], done, id, journal);
      var head := if ps[0].id in done then [] else [ps[0].(attempts := Attempts(journal, ps[0].id))];
      RetainConcat(head, Remaining(ps[1..], done, journal), id);
      if head != [] {
        assert Retain(head, id) == if ps[0].id == id then [] else head by {
          assert head[1..] == [];
        }
      }
    }
  }

  lemma {:induction false} RemainingSame<E, F>(
    ps: seq<Pending<F>>, done: set<EffectId>, j: Journal<E, F>, k: Journal<E, F>)
    requires forall i :: 0 <= i < |ps| ==> Attempts(j, ps[i].id) == Attempts(k, ps[i].id)
    ensures Remaining(ps, done, j) == Remaining(ps, done, k)
  {
    if ps != [] {
      RemainingSame(ps[1..], done, j, k);
    }
  }

  lemma {:induction false} RemainingFresh<E, F>(ps: seq<Pending<F>>, done: set<EffectId>, journal: Journal<E, F>)
    requires forall i :: 0 <= i < |ps| ==>
               ps[i].id !in done && ps[i].attempts == 0 && Attempts(journal, ps[i].id) == 0
    ensures Remaining(ps, done, journal) == ps
  {
    if ps != [] {
      RemainingFresh(ps[1..], done, journal);
    }
  }

  lemma {:induction false} RemainingAttempt<E, F>(
    ps: seq<Pending<F>>, done: set<EffectId>, journal: Journal<E, F>, record: Record<E, F>)
    requires DistinctIds(ps)
    requires record.event.Attempted? && record.event.attempt == Attempts(journal, record.event.effect) + 1
    ensures Remaining(ps, done, journal + [record])
            == Mark(Remaining(ps, done, journal), record.event.effect, record.event.attempt)
  {
    if ps != [] {
      var id, attempt, grown := record.event.effect, record.event.attempt, journal + [record];
      var rest := Remaining(ps[1..], done, journal);
      assert Attempts(grown, ps[0].id) == Attempts(journal, ps[0].id) + if ps[0].id == id then 1 else 0 by {
        Snoc(journal, record);
      }
      assert Remaining(ps[1..], done, grown) == Mark(rest, id, attempt) by {
        RemainingAttempt(ps[1..], done, journal, record);
      }
      if ps[0].id == id {
        RemainingAbsent(ps[1..], done, journal, id);
        MarkAbsent(rest, id, attempt);
      }
      if ps[0].id in done {
        assert [] + rest == rest;
      } else {
        MarkCons(ps[0].(attempts := Attempts(journal, ps[0].id)), rest, id, attempt);
      }
    }
  }

  lemma {:induction false} MarkAbsent<F>(ps: seq<Pending<F>>, id: EffectId, attempt: nat)
    requires forall i :: 0 <= i < |ps| ==> ps[i].id != id
    ensures Mark(ps, id, attempt) == ps
  {
    if ps != [] {
      MarkAbsent(ps[1..], id, attempt);
    }
  }

  lemma {:induction false} RemainingAbsent<E, F>(
    ps: seq<Pending<F>>, done: set<EffectId>, journal: Journal<E, F>, id: EffectId)
    requires forall i :: 0 <= i < |ps| ==> ps[i].id != id
    ensures forall k :: 0 <= k < |Remaining(ps, done, journal)| ==> Remaining(ps, done, journal)[k].id != id
  {
    if ps != [] {
      RemainingAbsent(ps[1..], done, journal, id);
    }
  }

  // ----- identities -----

  lemma DistinctConcat<F>(a: seq<Pending<F>>, b: seq<Pending<F>>)
    requires DistinctIds(a) && DistinctIds(b)
    requires forall i :: 0 <= i < |b| ==> !Mentions(a, b[i].id)
    ensures DistinctIds(a + b)
    ensures forall id :: Mentions(a, id) ==> Mentions(a + b, id)
  {
    var all := a + b;
    forall i, j | 0 <= i < j < |all| ensures all[i].id != all[j].id {
      if j >= |a| && i < |a| {
        assert !Mentions(a, b[j - |a|].id);
      }
    }
    forall id | Mentions(a, id) ensures Mentions(all, id) {
      var i :| 0 <= i < |a| && a[i].id == id;
      assert all[i].id == id;
    }
  }

  /** The oldest outstanding effect is an enqueued one that is not done. */
  lemma FrontEntry<E, F>(journal: Journal<E, F>) returns (i: nat)
    requires Outstanding(journal) != []
    ensures i < |Enqueued(journal)| && Enqueued(journal)[i].id == Outstanding(journal)[0].id
    ensures Enqueued(journal)[i].delivery == Outstanding(journal)[0].delivery
    ensures Outstanding(journal)[0].id !in Completed(journal)
    ensures Outstanding(journal)[0].attempts == Attempts(journal, Outstanding(journal)[0].id)
  {
    RemainingMember(Enqueued(journal), Completed(journal), journal, 0);
    i :| 0 <= i < |Enqueued(journal)| && Enqueued(journal)[i].id !in Completed(journal)
         && Outstanding(journal)[0] == Enqueued(journal)[i].(attempts := Attempts(journal, Enqueued(journal)[i].id));
  }

  lemma FrontIsEnqueued<E, F>(journal: Journal<E, F>)
    requires Outstanding(journal) != []
    ensures Mentions(Enqueued(journal), Outstanding(journal)[0].id)
    ensures Outstanding(journal)[0].id !in Completed(journal)
    ensures Outstanding(journal)[0].attempts == Attempts(journal, Outstanding(journal)[0].id)
  {
    var _ := FrontEntry(journal);
  }

  /** Identities are never reused, and only enqueued effects are attempted or completed. */
  lemma {:induction false} Identities<E, F>(journal: Journal<E, F>)
    requires WellFormed(journal)
    ensures DistinctIds(Enqueued(journal))
    ensures forall id :: id in Completed(journal) ==> Mentions(Enqueued(journal), id)
    ensures forall id :: Attempts(journal, id) > 0 ==> Mentions(Enqueued(journal), id)
    decreases |journal|
  {
    if journal != [] {
      var n := |journal| - 1;
      var before, record := journal[..n], journal[n];
      WellFormedPrefix(journal, n);
      Identities(before);
      assert Allowed(before, record);
      DistinctConcat(Enqueued(before), NewEffects(record));
      if Outstanding(before) != [] {
        FrontIsEnqueued(before);
      }
    }
  }

  // ----- the queue follows the journal -----

  lemma RemainingOld<E, F>(journal: Journal<E, F>, record: Record<E, F>)
    requires record.event.Transition?
    ensures Remaining(Enqueued(journal), Completed(journal + [record]), journal)
            == RetainIf(Outstanding(journal), record.event.completed)
  {
    Snoc(journal, record);
    if record.event.completed.Some? {
      RemainingCompletes(Enqueued(journal), Completed(journal), record.event.completed.value, journal);
    } else {
      assert Completed(journal + [record]) == Completed(journal);
    }
  }

  lemma RemainingNew<E, F>(journal: Journal<E, F>, record: Record<E, F>)
    requires WellFormed(journal) && Allowed(journal, record) && record.event.Transition?
    ensures Remaining(DecodeAll(record.event.effects), Completed(journal + [record]), journal)
            == DecodeAll(record.event.effects)
  {
    var more := DecodeAll(record.event.effects);
    Identities(journal);
    Snoc(journal, record);
    if record.event.completed.Some? {
      FrontIsEnqueued(journal);
    }
    forall i | 0 <= i < |more|
      ensures more[i].id !in Completed(journal + [record]) && Attempts(journal, more[i].id) == 0
    {
      assert !Mentions(Enqueued(journal), more[i].id);
    }
    RemainingFresh(more, Completed(journal + [record]), journal);
  }

  lemma OutstandingTransition<E, F>(journal: Journal<E, F>, record: Record<E, F>)
    requires WellFormed(journal) && Allowed(journal, record) && record.event.Transition?
    ensures Outstanding(journal + [record])
            == RetainIf(Outstanding(journal), record.event.completed) + DecodeAll(record.event.effects)
  {
    var all, more, grown := Enqueued(journal), DecodeAll(record.event.effects), journal + [record];
    var done := Completed(grown);
    assert Enqueued(grown) == all + more && forall id :: Attempts(grown, id) == Attempts(journal, id) by {
      Snoc(journal, record);
    }
    RemainingConcat(all, more, done, grown);
    RemainingSame(all, done, grown, journal);
    RemainingSame(more, done, grown, journal);
    RemainingOld(journal, record);
    RemainingNew(journal, record);
  }

  lemma OutstandingAttempt<E, F>(journal: Journal<E, F>, record: Record<E, F>)
    requires WellFormed(journal) && Allowed(journal, record) && record.event.Attempted?
    ensures Outstanding(journal + [record])
            == [Outstanding(journal)[0].(attempts := record.event.attempt)] + Outstanding(journal)[1..]
  {
    Identities(journal);
    FrontIsEnqueued(journal);
    RemainingAttempt(Enqueued(journal), Completed(journal), journal, record);
    assert Enqueued(journal + [record]) == Enqueued(journal) && Completed(journal + [record]) == Completed(journal) by {
      Snoc(journal, record);
    }
  }

  // ----- invariant preservation -----

  lemma CanonRetainIf<F>(ps: seq<Pending<F>>, completed: Option<EffectId>, more: seq<Pending<F>>)
    ensures Canon(RetainIf(ps, completed) + more) == RetainIf(Canon(ps), completed) + DecodeAll(EncodeAll(more))
  {
    if completed.Some? {
      CanonRetain(ps, completed.value);
    }
    CanonConcat(RetainIf(ps, completed), more);
  }

  /** New effects get identities no effect of the session ever had. */
  ghost predicate NewIds<S, E, F>(journal: Journal<E, F>, reaction: Reaction<S, E, F>) {
    FreshEffects(journal, reaction.effects)
  }

  /** Only the running effect is completed, and it is the oldest pending one. */
  ghost predicate Completes<S, E, F>(live: Live<S, E, F>, completed: Option<EffectId>) {
    completed.Some? ==>
      && live.hosted.active == completed
      && live.hosted.pending != [] && live.hosted.pending[0].id == completed.value
  }

  lemma TransitionAllowed<S, E, F>(
    cfg: Config<S, E>, live: Live<S, E, F>, journal: Journal<E, F>, request: Option<RequestId>,
    completed: Option<EffectId>, reaction: Reaction<S, E, F>, now: nat)
    requires EffectInv(live, journal) && NewIds(journal, reaction) && Completes(live, completed)
    ensures Allowed(journal, TransitionRecord(cfg, live, request, completed, reaction, now))
  {
    var stored := DecodeAll(EncodeAll(reaction.effects));
    assert forall i :: 0 <= i < |stored| ==> stored[i].id == reaction.effects[i].id && stored[i].attempts == 0;
    if completed.Some? {
      assert Canon(live.hosted.pending)[0].id == completed.value;
    }
  }

  lemma TransitionKeeps<S, E, F>(
    cfg: Config<S, E>, live: Live<S, E, F>, journal: Journal<E, F>, request: Option<RequestId>,
    completed: Option<EffectId>, reaction: Reaction<S, E, F>, now: nat)
    requires EffectInv(live, journal) && NewIds(journal, reaction) && Completes(live, completed)
    ensures EffectInv(AfterTransition(cfg, live, request, completed, reaction, now),
                      journal + [TransitionRecord(cfg, live, request, completed, reaction, now)])
  {
    var record := TransitionRecord(cfg, live, request, completed, reaction, now);
    TransitionAllowed(cfg, live, journal, request, completed, reaction, now);
    WellFormedSnoc(journal, record);
    OutstandingTransition(journal, record);
    CanonRetainIf(live.hosted.pending, completed, reaction.effects);
  }

  lemma CanonFront<F>(ps: seq<Pending<F>>)
    requires ps != []
    ensures Canon(ps) == [Decode(Encode(ps[0]))] + Canon(ps[1..])
  {
  }

  lemma AttemptAllowed<S, E, F>(live: Live<S, E, F>, journal: Journal<E, F>)
    requires Canon(live.hosted.pending) == Outstanding(journal) && live.hosted.pending != []
    requires !OutcomeUnknown(live.hosted.pending[0])
    ensures Allowed(journal, AttemptRecord(live))
  {
    CanonFront(live.hosted.pending);
  }

  lemma AttemptQueue<S, E, F>(live: Live<S, E, F>, journal: Journal<E, F>)
    requires live.hosted.pending != [] && Canon(live.hosted.pending) == Outstanding(journal)
    requires WellFormed(journal) && Allowed(journal, AttemptRecord(live))
    requires !OutcomeUnknown(live.hosted.pending[0])
    ensures Canon(AfterDispatch(live).hosted.pending) == Outstanding(journal + [AttemptRecord(live)])
  {
    hide WellFormed, Allowed, Outstanding, Enqueued, Attempts, Completed;
    var ps := live.hosted.pending;
    var raised := [ps[0].(attempts := ps[0].attempts + 1)] + ps[1..];
    CanonFront(ps);
    CanonFront(raised);
    OutstandingAttempt(journal, AttemptRecord(live));
  }

  lemma DispatchKeeps<S, E, F>(live: Live<S, E, F>, journal: Journal<E, F>)
    requires EffectInv(live, journal) && Dispatchable(live)
    ensures EffectInv(AfterDispatch(live), JournalAfterDispatch(live, journal))
  {
    if !OutcomeUnknown(live.hosted.pending[0]) {
      AttemptAllowed(live, journal);
      AttemptQueue(live, journal);
      WellFormedSnoc(journal, AttemptRecord(live));
    }
  }

  lemma DurableKeeps<S, E, F>(live: Live<S, E, F>, journal: Journal<E, F>)
    requires EffectInv(live, journal)
    ensures EffectInv(Durable(live), journal)
  {
    forall i | 0 <= i < |live.hosted.pending|
      ensures Decode(Encode(Decode(Encode(live.hosted.pending[i])))) == Decode(Encode(live.hosted.pending[i]))
    {
      assert Encode(Decode(Encode(live.hosted.pending[i]))) == Encode(live.hosted.pending[i]);
    }
    assert Canon(Canon(live.hosted.pending)) == Canon(live.hosted.pending);
  }

  // ----- what a well-formed journal guarantees -----

  /** Completions are durable and final: an effect is completed by at most one record, and
      nothing of it is recorded afterwards. */
  lemma CompletedOnce<E, F>(journal: Journal<E, F>, i: nat, j: nat, id: EffectId)
    requires WellFormed(journal) && i < j < |journal| && Completion(journal[i]) == Some(id)
    ensures Completion(journal[j]) != Some(id) && !IsAttempt(journal[j], id)
  {
    CompletedGrows(journal, i, j);
    assert Allowed(journal[..j], journal[j]);
    if Outstanding(journal[..j]) != [] {
      RemainingMember(Enqueued(journal[..j]), Completed(journal[..j]), journal[..j], 0);
    }
  }

  lemma {:induction false} CompletedGrows<E, F>(journal: Journal<E, F>, i: nat, j: nat)
    requires i < j <= |journal|
    ensures Completion(journal[i]).Some? ==> Completion(journal[i]).value in Completed(journal[..j])
    decreases j
  {
    assert journal[..j][..j - 1] == journal[..j - 1];
    if i < j - 1 {
      CompletedGrows(journal, i, j - 1);
    }
  }

  /** Effects of a session run in the order they were enqueued: a later one is attempted, or
      completed, only when every earlier one has completed. */
  lemma InOrder<E, F>(journal: Journal<E, F>, k: nat, a: nat, b: nat)
    requires WellFormed(journal) && k < |journal| && a < b < |Enqueued(journal[..k])|
    requires IsAttempt(journal[k],
                       Enqueued(journal[..k])[b].id) || Completion(journal[k]) == Some(Enqueued(journal[..k])[b].id)
    ensures Enqueued(journal[..k])[a].id in Completed(journal[..k])
  {
    var before := journal[..k];
    var all, done := Enqueued(before), Completed(before);
    WellFormedPrefix(journal, k);
    Identities(before);
    assert Allowed(before, journal[k]);
    if all[a].id !in done {
      RemainingSplit(all, done, before, a);
    }
  }

  /** The first entry that is not done comes first. */
  lemma {:induction false} RemainingSplit<E, F>(
    ps: seq<Pending<F>>, done: set<EffectId>, journal: Journal<E, F>, a: nat)
    requires a < |ps| && ps[a].id !in done
    ensures Remaining(ps, done, journal) != []
    ensures exists i :: 0 <= i <= a && Remaining(ps, done, journal)[0].id == ps[i].id
  {
    if ps[0].id in done {
      RemainingSplit(ps[1..], done, journal, a - 1);
      var i :| 0 <= i <= a - 1 && Remaining(ps[1..], done, journal)[0].id == ps[1..][i].id;
      assert ps[i + 1] == ps[1..][i];
    }
  }

  /** Attempt records of one effect are numbered 1, 2, 3, ... in journal order. */
  lemma AttemptNumbers<E, F>(journal: Journal<E, F>, k: nat)
    requires WellFormed(journal) && k < |journal| && journal[k].event.Attempted?
    ensures journal[k].event.attempt == Attempts(journal[..k], journal[k].event.effect) + 1
  {
    var before := journal[..k];
    assert Allowed(before, journal[k]);
    RemainingMember(Enqueued(before), Completed(before), before, 0);
  }

  lemma {:induction false} AttemptsMonotone<E, F>(journal: Journal<E, F>, i: nat, j: nat, id: EffectId)
    requires i <= j <= |journal|
    ensures Attempts(journal[..i], id) <= Attempts(journal[..j], id)
    ensures (exists k :: i <= k < j && IsAttempt(journal[k], id)) ==>
              Attempts(journal[..i], id) < Attempts(journal[..j], id)
    decreases j
  {
    if i < j {
      assert journal[..j][..j - 1] == journal[..j - 1];
      AttemptsMonotone(journal, i, j - 1, id);
    }
  }

  /** Later attempts of the same effect carry strictly larger numbers. */
  lemma AttemptsIncrease<E, F>(journal: Journal<E, F>, i: nat, j: nat)
    requires WellFormed(journal) && i < j < |journal|
    requires journal[i].event.Attempted? && journal[j].event.Attempted?
             && journal[i].event.effect == journal[j].event.effect
    ensures journal[i].event.attempt < journal[j].event.attempt
  {
    AttemptNumbers(journal, i);
    AttemptNumbers(journal, j);
    assert IsAttempt(journal[i], journal[i].event.effect);
    AttemptsMonotone(journal, i, j, journal[i].event.effect);
  }

  /** The only attempt a journal allows of an at-most-once effect is its first. */
  lemma FirstAttemptOnly<E, F>(before: Journal<E, F>, record: Record<E, F>, e: nat)
    requires WellFormed(before) && Allowed(before, record) && e < |Enqueued(before)|
    requires IsAttempt(record, Enqueued(before)[e].id) && Enqueued(before)[e].delivery == AtMostOnce
    ensures Attempts(before, Enqueued(before)[e].id) == 0
  {
    Identities(before);
    var i := FrontEntry(before);
    assert i == e;
  }

  /** An at-most-once effect has at most one attempt record, however often the leader
      crashed and recovered while it was pending. */
  lemma AtMostOneAttempt<E, F>(journal: Journal<E, F>, i: nat, j: nat, e: nat)
    requires WellFormed(journal) && i < j < |journal| && e < |Enqueued(journal[..j])|
    requires Enqueued(journal[..j])[e].delivery == AtMostOnce
    requires IsAttempt(journal[i], Enqueued(journal[..j])[e].id)
    ensures !IsAttempt(journal[j], Enqueued(journal[..j])[e].id)
  {
    AttemptsMonotone(journal, i, j, Enqueued(journal[..j])[e].id);
    if IsAttempt(journal[j], Enqueued(journal[..j])[e].id) {
      WellFormedPrefix(journal, j);
      FirstAttemptOnly(journal[..j], journal[j], e);
    }
  }

  /** A completed effect is neither running nor waiting. */
  lemma CompletedIsGone<S, E, F>(live: Live<S, E, F>, journal: Journal<E, F>, e: EffectId)
    requires EffectInv(live, journal) && e in Completed(journal)
    ensures live.hosted.active != Some(e)
    ensures forall i :: 0 <= i < |live.hosted.pending| ==> live.hosted.pending[i].id != e
  {
    hide Enqueued, Attempts, Completed, WellFormed;
    forall i | 0 <= i < |live.hosted.pending| ensures live.hosted.pending[i].id != e {
      assert Canon(live.hosted.pending)[i].id == live.hosted.pending[i].id;
      RemainingMember(Enqueued(journal), Completed(journal), journal, i);
    }
  }

  lemma {:induction false} EnqueuedGrows<E, F>(journal: Journal<E, F>, i: nat, j: nat)
    requires i <= j <= |journal|
    ensures Enqueued(journal[..i]) <= Enqueued(journal[..j])
    decreases j
  {
    if i < j {
      EnqueuedGrows(journal, i, j - 1);
      assert journal[..j] == journal[..j - 1] + [journal[j - 1]];
      Snoc(journal[..j - 1], journal[j - 1]);
    }
  }

  /** An effect with two attempt records is an at-least-once one. */
  lemma AttemptedTwice<E, F>(journal: Journal<E, F>, i: nat, j: nat, e: nat)
    requires WellFormed(journal) && i < j < |journal| && e < |Enqueued(journal)|
    requires IsAttempt(journal[i], Enqueued(journal)[e].id) && IsAttempt(journal[j], Enqueued(journal)[e].id)
    ensures Enqueued(journal)[e].delivery == AtLeastOnce
  {
    hide Enqueued, Outstanding, Attempts, Completed, WellFormed, Allowed;
    assert journal[..|journal|] == journal;
    EnqueuedGrows(journal, j, |journal|);
    Identities(journal);
    var k := AttemptedEntry(journal, j);
    assert Enqueued(journal)[k] == Enqueued(journal[..j])[k];
    if Enqueued(journal)[e].delivery == AtMostOnce {
      AtMostOneAttempt(journal, i, j, k);
    }
  }

  /** Whatever is attempted was enqueued before. */
  lemma AttemptedEntry<E, F>(journal: Journal<E, F>, j: nat) returns (k: nat)
    requires WellFormed(journal) && j < |journal| && journal[j].event.Attempted?
    ensures k < |Enqueued(journal[..j])| && IsAttempt(journal[j], Enqueued(journal[..j])[k].id)
  {
    assert Allowed(journal[..j], journal[j]);
    k := FrontEntry(journal[..j]);
  }
}
