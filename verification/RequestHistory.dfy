/** Request deduplication, read off the journal: which requests were ever committed, and why
    a request is not committed again while the window remembers it. */
module RequestHistory {
  import opened Protocol
  import opened Sequences
  import opened Ledgers
  import opened EffectQueue
  import opened SessionLog
  import opened Recovery

  datatype Commitment = Commitment(request: RequestId, sequence: nat)

  function CommitOf<E, F>(record: Record<E, F>): seq<Commitment> {
    if record.event.Transition? && record.event.request.Some? then
      [Commitment(record.event.request.value,
                  if record.event.events == [] then record.event.controlSequence else record.event.events[0].sequence)]
    else []
  }

  /** Every request the journal commits, with the sequence it was given, oldest first. */
  function Commits<E, F>(journal: Journal<E, F>): seq<Commitment> {
    if journal == [] then []
    else Commits(journal[..|journal| - 1]) + CommitOf(journal[|journal| - 1])
  }

  function Requests(commits: seq<Commitment>): (r: seq<RequestId>)
    ensures |r| == |commits| && forall i :: 0 <= i < |r| ==> r[i] == commits[i].request
  {
    seq(|commits|, i requires 0 <= i < |commits| => commits[i].request)
  }

  /** Two commits of one request have at least `window` other commits between them. */
  ghost predicate Separated(commits: seq<Commitment>, window: nat) {
    forall i, j :: 0 <= i < j < |commits| && commits[i].request == commits[j].request ==> j - i - 1 >= window
  }

  /** The newest `window` commits are exactly the remembered ones, with their sequences. */
  ghost predicate Remembers(l: Ledger, commits: seq<Commitment>, window: nat) {
    && l.order == Requests(LastN(commits, window))
    && forall c :: c in LastN(commits, window) ==> c.request in l.committed && l.committed[c.request] == c.sequence
  }

  ghost predicate RequestInv<S, E, F>(cfg: Config<S, E>, live: Live<S, E, F>, journal: Journal<E, F>) {
    && Separated(Commits(journal), cfg.window)
    && Remembers(live.ledger, Commits(journal), cfg.window)
  }

  lemma CommitsAppend<E, F>(journal: Journal<E, F>, record: Record<E, F>)
    ensures Commits(journal + [record]) == Commits(journal) + CommitOf(record)
  {
    assert (journal + [record])[..|journal|] == journal;
  }

  lemma LastRequests(commits: seq<Commitment>, c: Commitment, window: nat)
    ensures Requests(LastN(commits + [c], window)) == LastN(Requests(LastN(commits, window)) + [c.request], window)
  {
  }

  lemma NewestMember(commits: seq<Commitment>, window: nat, i: nat)
    requires i < |commits| && |commits| - window <= i
    ensures commits[i] in LastN(commits, window)
  {
    var newest := LastN(commits, window);
    assert newest[i - (|commits| - |newest|)] == commits[i];
  }

  /** A request the table does not hold is absent from the newest `window` commits. */
  lemma AbsentIsOld(l: Ledger, commits: seq<Commitment>, window: nat, i: nat)
    requires Remembers(l, commits, window)
    requires i < |commits| && commits[i].request !in l.committed
    ensures i < |commits| - window
  {
    if |commits| - window <= i {
      NewestMember(commits, window, i);
    }
  }

  lemma SeparatedAppend(l: Ledger, commits: seq<Commitment>, window: nat, c: Commitment)
    requires Separated(commits, window) && Remembers(l, commits, window) && c.request !in l.committed
    ensures Separated(commits + [c], window)
  {
    forall i, j | 0 <= i < j < |commits| + 1 && (commits + [c])[i].request == (commits + [c])[j].request
      ensures j - i - 1 >= window
    {
      if j == |commits| {
        AbsentIsOld(l, commits, window, i);
      } else {
        assert commits[i].request == commits[j].request;
      }
    }
  }

  lemma RemembersAppend(l: Ledger, commits: seq<Commitment>, window: nat, c: Commitment, after: Ledger)
    requires Remembers(l, commits, window) && c.request !in l.committed
    requires after.order == LastN(l.order + [c.request], window)
    requires forall r :: r in after.order ==> r in after.committed
    requires c.request in after.committed && after.committed[c.request] == c.sequence
    requires forall r :: r in after.committed && r != c.request ==>
               r in l.committed && after.committed[r] == l.committed[r]
    ensures Remembers(after, commits + [c], window)
  {
    var newest := LastN(commits + [c], window);
    LastRequests(commits, c, window);
    forall d | d in newest ensures d.request in after.committed && after.committed[d.request] == d.sequence {
      LastNMember(commits, c, d, window);
      var k :| 0 <= k < |newest| && newest[k] == d;
      assert Requests(newest)[k] == d.request;
    }
  }

  lemma StampKeeps(l: Ledger, at: Option<nat>, commits: seq<Commitment>, window: nat)
    requires Remembers(l, commits, window)
    ensures Remembers(StampIf(l, at), commits, window)
  {
  }

  lemma AllocateKeeps(
    l: Ledger, commits: seq<Commitment>, window: nat, request: Option<RequestId>, count: nat, at: Option<nat>)
    requires Separated(commits, window) && Remembers(l, commits, window) && Valid(l, window) && window >= 1
    requires request.Some? ==> request.value !in l.committed
    ensures var more := commits + if request.Some? then [Commitment(request.value, l.sequence + 1)] else [];
            Separated(more, window) && Remembers(StampIf(Allocate(l, request, count, window), at), more, window)
  {
    var after := Allocate(l, request, count, window);
    AllocateFacts(l, request, count, window);
    if request.Some? {
      var c := Commitment(request.value, l.sequence + 1);
      assert l.order + [request.value] == l.order + [c.request];
      SeparatedAppend(l, commits, window, c);
      RemembersAppend(l, commits, window, c, after);
      StampKeeps(after, at, commits + [Commitment(request.value, l.sequence + 1)], window);
    } else {
      assert commits + [] == commits;
      StampKeeps(after, at, commits, window);
    }
  }

  lemma CommitOfTransition<S, E, F>(
    cfg: Config<S, E>, live: Live<S, E, F>, request: Option<RequestId>,
    completed: Option<EffectId>, reaction: Reaction<S, E, F>, now: nat)
    requires Valid(live.ledger, cfg.window) && cfg.window >= 1
    requires request.Some? ==> request.value !in live.ledger.committed
    ensures CommitOf(TransitionRecord(cfg, live, request, completed, reaction, now))
            == if request.Some? then [Commitment(request.value, live.ledger.sequence + 1)] else []
  {
    hide Allocate, EncodeAll, CommittedAt;
    assert Allocate(live.ledger, request, |reaction.events|, cfg.window).sequence
           == live.ledger.sequence + (if reaction.events == [] && request.Some? then 1 else |reaction.events|) by {
      AllocateFacts(live.ledger, request, |reaction.events|, cfg.window);
    }
  }

  lemma TransitionKeeps<S, E, F>(
    cfg: Config<S, E>, live: Live<S, E, F>, journal: Journal<E, F>, request: Option<RequestId>,
    completed: Option<EffectId>, reaction: Reaction<S, E, F>, now: nat)
    requires RequestInv(cfg, live, journal) && Valid(live.ledger, cfg.window) && cfg.window >= 1
    requires request.Some? ==> request.value !in live.ledger.committed
    ensures RequestInv(cfg, AfterTransition(cfg, live, request, completed, reaction, now),
                       journal + [TransitionRecord(cfg, live, request, completed, reaction, now)])
  {
    var record := TransitionRecord(cfg, live, request, completed, reaction, now);
    CommitsAppend(journal, record);
    CommitOfTransition(cfg, live, request, completed, reaction, now);
    AllocateKeeps(live.ledger, Commits(journal), cfg.window, request, |reaction.events|,
                  CommittedAt(request, |reaction.events|, now));
  }

  lemma DispatchKeeps<S, E, F>(cfg: Config<S, E>, live: Live<S, E, F>, journal: Journal<E, F>)
    requires RequestInv(cfg, live, journal) && Dispatchable(live)
    ensures RequestInv(cfg, AfterDispatch(live), JournalAfterDispatch(live, journal))
  {
    if !OutcomeUnknown(live.hosted.pending[0]) {
      CommitsAppend(journal, AttemptRecord(live));
      assert Commits(journal) + [] == Commits(journal);
    }
  }

  /** A resent request among the newest `window` commits is found with its first sequence. */
  lemma ResendFindsOriginal<S, E, F>(cfg: Config<S, E>, live: Live<S, E, F>, journal: Journal<E, F>, i: nat)
    requires RequestInv(cfg, live, journal)
    requires i < |Commits(journal)| && |Commits(journal)| - cfg.window <= i
    ensures Commits(journal)[i].request in live.ledger.committed
    ensures live.ledger.committed[Commits(journal)[i].request] == Commits(journal)[i].sequence
  {
    NewestMember(Commits(journal), cfg.window, i);
  }
}
