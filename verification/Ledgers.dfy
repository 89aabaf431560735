/** The part of a session's control record that is journaled: its event sequence,
    its last activity, and the bounded table of committed requests. */
module Ledgers {
  import opened Protocol
  import opened Sequences

  datatype Ledger = Ledger(
    sequence: nat,
    lastEventAt: Option<nat>,
    committed: map<RequestId, nat>,
    order: seq<RequestId>)

  /** The table form written to a checkpoint: the remembered requests, oldest first. */
  datatype LedgerSnapshot = LedgerSnapshot(
    sequence: nat,
    lastEventAt: Option<nat>,
    committed: seq<(RequestId, nat)>)

  const EMPTY := Ledger(0, None, map[], [])

  /** The order list and the table describe the same requests, without repeats. */
  ghost predicate Valid(l: Ledger, window: nat) {
    && NoDup(l.order)
    && |l.order| <= window
    && (forall r :: r in l.committed <==> r in l.order)
    && (forall r :: r in l.committed ==> l.committed[r] <= l.sequence)
  }

  /** Forgets the oldest requests until at most `window` remain. */
  function Expire(l: Ledger, window: nat): (r: Ledger)
    ensures r.sequence == l.sequence && r.lastEventAt == l.lastEventAt
    ensures |r.order| <= window
    decreases |l.order|
  {
    if |l.order| <= window then l
    else Expire(l.(order := l.order[1..], committed := l.committed - {l.order[0]}), window)
  }

  function Remember(l: Ledger, request: RequestId, sequence: nat, window: nat): Ledger {
    Expire(l.(sequence := sequence,
              committed := l.committed[request := sequence],
              order := l.order + [request]), window)
  }

  /** Allocates the next event sequence to a request, unless the request already has one. */
  function Commit(l: Ledger, request: RequestId, window: nat): Ledger {
    if request in l.committed then l else Remember(l, request, l.sequence + 1, window)
  }

  function CommitSequence(l: Ledger, request: RequestId): nat {
    if request in l.committed then l.committed[request] else l.sequence + 1
  }

  function Publish(l: Ledger): Ledger {
    l.(sequence := l.sequence + 1)
  }

  function Replay(l: Ledger, sequence: nat, request: Option<RequestId>, window: nat): Ledger {
    if sequence <= l.sequence then l
    else if request.None? then l.(sequence := sequence)
    else Remember(l, request.value, sequence, window)
  }

  function Stamp(l: Ledger, millis: nat): Ledger {
    l.(lastEventAt := Some(if l.lastEventAt.None? then millis else Max(l.lastEventAt.value, millis)))
  }

  function StampIf(l: Ledger, at: Option<nat>): Ledger {
    if at.None? then l else Stamp(l, at.value)
  }

  function Pairs(order: seq<RequestId>, committed: map<RequestId, nat>): seq<(RequestId, nat)> {
    if order == [] then []
    else (if order[0] in committed then [(order[0], committed[order[0]])] else [])
         + Pairs(order[1..], committed)
  }

  function Snapshot(l: Ledger): LedgerSnapshot {
    LedgerSnapshot(l.sequence, l.lastEventAt, Pairs(l.order, l.committed))
  }

  function Keys(pairs: seq<(RequestId, nat)>): (r: seq<RequestId>)
    ensures |r| == |pairs|
    ensures forall i :: 0 <= i < |r| ==> r[i] == pairs[i].0
  {
    seq(|pairs|, i requires 0 <= i < |pairs| => pairs[i].0)
  }

  /** Later pairs win, as when a hash map is collected from a list. */
  function Table(pairs: seq<(RequestId, nat)>): (m: map<RequestId, nat>)
    ensures forall r :: r in m <==> r in Keys(pairs)
  {
    if pairs == [] then map[]
    else
      var last := pairs[|pairs| - 1];
      var front := pairs[..|pairs| - 1];
      assert Keys(pairs) == Keys(front) + [last.0];
      Table(front)[last.0 := last.1]
  }

  function Restore(s: LedgerSnapshot): Ledger {
    Ledger(s.sequence, s.lastEventAt, Table(s.committed), Keys(s.committed))
  }

  lemma ExpireOne(l: Ledger, window: nat)
    requires |l.order| <= window + 1
    ensures Expire(l, window) ==
            if |l.order| <= window then l
            else l.(order := l.order[1..], committed := l.committed - {l.order[0]})
  {
    if |l.order| > window {
      var next := l.(order := l.order[1..], committed := l.committed - {l.order[0]});
      assert Expire(next, window) == next;
    }
  }

  lemma RememberValid(l: Ledger, request: RequestId, sequence: nat, window: nat)
    requires Valid(l, window) && request !in l.committed && l.sequence <= sequence && window >= 1
    ensures Valid(Remember(l, request, sequence, window), window)
    ensures Remember(l, request, sequence, window).sequence == sequence
    ensures Remember(l, request, sequence, window).lastEventAt == l.lastEventAt
    ensures Remember(l, request, sequence, window).order == LastN(l.order + [request], window)
    ensures request in Remember(l, request, sequence, window).committed
            && Remember(l, request, sequence, window).committed[request] == sequence
    ensures forall r :: r in Remember(l, request, sequence, window).committed && r != request ==>
              r in l.committed && Remember(l, request, sequence, window).committed[r] == l.committed[r]
  {
    var grown := l.(sequence := sequence, committed := l.committed[request := sequence],
                    order := l.order + [request]);
    ExpireOne(grown, window);
    var after := Remember(l, request, sequence, window);
    if |grown.order| > window {
      forall r ensures r in after.committed <==> r in after.order {
        if r in grown.order {
          var i :| 0 <= i < |grown.order| && grown.order[i] == r;
          assert i > 0 ==> after.order[i - 1] == r;
        }
      }
    }
  }

  lemma {:induction false} PairsOfValid(order: seq<RequestId>, committed: map<RequestId, nat>)
    requires forall r :: r in order ==> r in committed
    ensures Keys(Pairs(order, committed)) == order
    ensures |Pairs(order, committed)| == |order|
    ensures forall i :: 0 <= i < |order| ==> Pairs(order, committed)[i] == (order[i], committed[order[i]])
  {
    if order != [] {
      PairsOfValid(order[1..], committed);
    }
  }

  lemma {:induction false} TableAt(pairs: seq<(RequestId, nat)>, i: nat)
    requires i < |pairs| && NoDup(Keys(pairs))
    ensures pairs[i].0 in Table(pairs) && Table(pairs)[pairs[i].0] == pairs[i].1
  {
    var front := pairs[..|pairs| - 1];
    if i < |front| {
      assert Keys(front) == Keys(pairs)[..|front|];
      TableAt(front, i);
      assert Keys(pairs)[i] != Keys(pairs)[|pairs| - 1];
    }
  }

  /** Writing a checkpoint and reading it back loses nothing of the request table. */
  lemma SnapshotRoundTrip(l: Ledger, window: nat)
    requires Valid(l, window)
    ensures Restore(Snapshot(l)) == l
  {
    var pairs := Pairs(l.order, l.committed);
    PairsOfValid(l.order, l.committed);
    forall r | r in l.committed ensures r in Table(pairs) && Table(pairs)[r] == l.committed[r] {
      var i :| 0 <= i < |l.order| && l.order[i] == r;
      TableAt(pairs, i);
    }
    assert Table(pairs) == l.committed;
  }
}
