/** Bounded per-connection message queues, and what a batch of sends adds to them. */
module Outbounds {
  import opened Protocol
  import opened Sequences
  import opened ControlPlane
  import opened SessionLog

  datatype Reply =
    | Accepted(session: SessionId, sequence: nat, duplicate: bool)
    | AttachedTo(session: SessionId, name: string, sequence: nat, lease: Option<nat>)
    | DetachedFrom(session: SessionId)
    | DriverIs(session: SessionId, driver: Option<DriverLease>)
    | Stopped
    | Renamed(session: SessionId, name: string)
    | CreatedAs(session: SessionId)
    | Refused(error: CoreError)
    /** The application turned the command down. */
    | Rejected

  datatype Message<S, E> =
    | Response(request: RequestId, reply: Reply)
    | Event(session: SessionId, sequence: nat, event: E)
    | Snapshot(session: SessionId, sequence: nat, state: S)
    | DriverChanged(session: SessionId, lease: Option<DriverLease>)

  /** The sending half of one client's queue; `open` turns false when its writer is gone. */
  datatype Outbound<S, E> = Outbound(queue: seq<Message<S, E>>, capacity: nat, open: bool)

  predicate IsState<S, E>(m: Message<S, E>) {
    m.Event? || m.Snapshot?
  }

  function One<S, E>(m: Message<S, E>): seq<Message<S, E>> {
    if IsState(m) then [m] else []
  }

  /** The snapshots and events in a queue: what a client's picture of a session is made of. */
  function StateOf<S, E>(queue: seq<Message<S, E>>): seq<Message<S, E>> {
    if queue == [] then []
    else StateOf(queue[..|queue| - 1]) + One(queue[|queue| - 1])
  }

  lemma StateOfPush<S, E>(queue: seq<Message<S, E>>, m: Message<S, E>)
    ensures StateOf(queue + [m]) == StateOf(queue) + One(m)
  {
    assert (queue + [m])[..|queue|] == queue;
  }

  lemma {:induction false} StateOfConcat<S, E>(a: seq<Message<S, E>>, b: seq<Message<S, E>>)
    ensures StateOf(a + b) == StateOf(a) + StateOf(b)
  {
    if b == [] {
      assert a + b == a;
    } else {
      assert (a + b)[..|a + b| - 1] == a + b[..|b| - 1];
      StateOfConcat(a, b[..|b| - 1]);
    }
  }

  type Channels<S, E> = map<ConnectionId, Outbound<S, E>>

  /** A queue lost nothing and gained these state messages, with any notices and responses. */
  ghost predicate Gained<S, E>(before: Outbound<S, E>, after: Outbound<S, E>, more: seq<Message<S, E>>) {
    && after.capacity == before.capacity
    && before.queue <= after.queue
    && StateOf(after.queue) == StateOf(before.queue) + more
  }

  lemma GainedNothing<S, E>(o: Outbound<S, E>)
    ensures Gained(o, o, [])
  {
  }

  lemma GainedThen<S, E>(
    a: Outbound<S, E>, b: Outbound<S, E>, c: Outbound<S, E>, x: seq<Message<S, E>>, y: seq<Message<S, E>>)
    requires Gained(a, b, x) && Gained(b, c, y)
    ensures Gained(a, c, x + y)
  {
    hide StateOf;
    assert StateOf(a.queue) + x + y == StateOf(a.queue) + (x + y);
  }

  function IfTarget<S, E>(c: ConnectionId, targets: set<ConnectionId>, more: seq<Message<S, E>>): seq<Message<S, E>> {
    if c in targets then more else []
  }

  /** Some connections may be gone; each of the others gained `more` if it is a target, and
      no state message otherwise. */
  ghost predicate Pushed<S, E>(
    before: Channels<S, E>, after: Channels<S, E>, targets: set<ConnectionId>, more: seq<Message<S, E>>)
  {
    && after.Keys <= before.Keys
    && forall c :: c in after ==> Gained(before[c], after[c], IfTarget(c, targets, more))
  }

  lemma PushedNothing<S, E>(channels: Channels<S, E>, targets: set<ConnectionId>)
    ensures Pushed(channels, channels, targets, [])
  {
    forall c | c in channels ensures Gained(channels[c], channels[c], []) {
      GainedNothing(channels[c]);
    }
  }

  lemma PushedBegin<S, E>(channels: Channels<S, E>, more: seq<Message<S, E>>)
    ensures Pushed(channels, channels, {}, more)
  {
    PushedNothing(channels, {});
  }

  lemma PushedThen<S, E>(
    a: Channels<S, E>, b: Channels<S, E>, c: Channels<S, E>, targets: set<ConnectionId>,
    first: seq<Message<S, E>>, second: seq<Message<S, E>>)
    requires Pushed(a, b, targets, first) && Pushed(b, c, targets, second)
    ensures Pushed(a, c, targets, first + second)
  {
    hide Gained;
    forall k | k in c ensures Gained(a[k], c[k], IfTarget(k, targets, first + second)) {
      GainedThen(a[k], b[k], c[k], IfTarget(k, targets, first), IfTarget(k, targets, second));
      assert k !in targets ==> [] + [] == IfTarget(k, targets, first + second);
    }
  }

  lemma PushedQuietly<S, E>(a: Channels<S, E>, b: Channels<S, E>, c: Channels<S, E>)
    requires Pushed(a, b, {}, []) && Pushed(b, c, {}, [])
    ensures Pushed(a, c, {}, [])
  {
    PushedThen(a, b, c, {}, [], []);
  }

  lemma PushedThenQuiet<S, E>(
    a: Channels<S, E>, b: Channels<S, E>, c: Channels<S, E>, targets: set<ConnectionId>, more: seq<Message<S, E>>)
    requires Pushed(a, b, targets, more) && Pushed(b, c, {}, [])
    ensures Pushed(a, c, targets, more)
  {
    hide Gained;
    forall k | k in c ensures Gained(a[k], c[k], IfTarget(k, targets, more)) {
      GainedThen(a[k], b[k], c[k], IfTarget(k, targets, more), []);
      assert IfTarget(k, targets, more) + [] == IfTarget(k, targets, more);
    }
  }

  lemma PushedAfterQuiet<S, E>(
    a: Channels<S, E>, b: Channels<S, E>, c: Channels<S, E>, targets: set<ConnectionId>, more: seq<Message<S, E>>)
    requires Pushed(a, b, {}, []) && Pushed(b, c, targets, more)
    ensures Pushed(a, c, targets, more)
  {
    hide Gained;
    forall k | k in c ensures Gained(a[k], c[k], IfTarget(k, targets, more)) {
      GainedThen(a[k], b[k], c[k], [], IfTarget(k, targets, more));
      assert [] + IfTarget(k, targets, more) == IfTarget(k, targets, more);
    }
  }

  lemma PushedMore<S, E>(
    a: Channels<S, E>, b: Channels<S, E>, c: Channels<S, E>, some: set<ConnectionId>, extra: ConnectionId,
    more: seq<Message<S, E>>)
    requires Pushed(a, b, some, more) && Pushed(b, c, {extra}, more) && extra !in some
    ensures Pushed(a, c, some + {extra}, more)
  {
    hide Gained;
    forall k | k in c ensures Gained(a[k], c[k], IfTarget(k, some + {extra}, more)) {
      GainedThen(a[k], b[k], c[k], IfTarget(k, some, more), IfTarget(k, {extra}, more));
      assert more + [] == more && [] + more == more;
      assert k !in some + {extra} ==> [] + [] == IfTarget(k, some + {extra}, more);
    }
  }

  lemma PushedKeys<S, E>(a: Channels<S, E>, b: Channels<S, E>, targets: set<ConnectionId>, more: seq<Message<S, E>>)
    requires Pushed(a, b, targets, more)
    ensures b.Keys <= a.Keys && |b| <= |a|
  {
    Fewer(b.Keys, a.Keys);
  }

  lemma PushedDrop<S, E>(channels: Channels<S, E>, gone: ConnectionId)
    ensures Pushed(channels, channels - {gone}, {}, [])
  {
    PushedNothing(channels, {});
  }

  lemma PushedOne<S, E>(channels: Channels<S, E>, c: ConnectionId, m: Message<S, E>)
    requires c in channels
    ensures Pushed(channels, channels[c := channels[c].(queue := channels[c].queue + [m])], {c}, One(m))
  {
    StateOfPush(channels[c].queue, m);
    PushedNothing(channels, {});
  }

  lemma PushedToAbsent<S, E>(a: Channels<S, E>, b: Channels<S, E>, c: ConnectionId, more: seq<Message<S, E>>)
    requires (a == b || Pushed(a, b, {}, [])) && c !in b
    ensures Pushed(a, b, {c}, more)
  {
    PushedNothing(a, {});
  }

  lemma PushedToNobody<S, E>(a: Channels<S, E>, b: Channels<S, E>, c: ConnectionId)
    requires Pushed(a, b, {c}, [])
    ensures Pushed(a, b, {}, [])
  {
  }

  /** Only the targets that are still there matter. */
  lemma PushedSameTargets<S, E>(
    a: Channels<S, E>, b: Channels<S, E>, some: set<ConnectionId>, other: set<ConnectionId>, more: seq<Message<S, E>>)
    requires Pushed(a, b, some, more) && forall k :: k in b ==> (k in some <==> k in other)
    ensures Pushed(a, b, other, more)
  {
    hide Gained;
  }

  /** Each of these clients is reading and has room for `n` more messages. */
  ghost predicate Spare<S, E>(channels: Channels<S, E>, targets: set<ConnectionId>, n: nat) {
    forall c :: c in targets && c in channels ==> channels[c].open && |channels[c].queue| + n <= channels[c].capacity
  }

  /** Nobody was dropped, and only these queues grew, by at most `n` messages each. */
  ghost predicate Kept<S, E>(before: Channels<S, E>, after: Channels<S, E>, targets: set<ConnectionId>, n: nat) {
    && after.Keys == before.Keys
    && forall c :: c in before ==>
         && after[c].open == before[c].open && after[c].capacity == before[c].capacity
         && |after[c].queue| <= |before[c].queue| + (if c in targets then n else 0)
  }

  lemma KeptNone<S, E>(channels: Channels<S, E>, targets: set<ConnectionId>)
    ensures Kept(channels, channels, targets, 0) && Kept(channels, channels, {}, 1)
  {
  }

  lemma KeptOne<S, E>(channels: Channels<S, E>, c: ConnectionId, m: Message<S, E>)
    requires c in channels
    ensures Kept(channels, channels[c := channels[c].(queue := channels[c].queue + [m])], {c}, 1)
  {
  }

  lemma KeptWithin<S, E>(
    a: Channels<S, E>, b: Channels<S, E>, some: set<ConnectionId>, all: set<ConnectionId>, n: nat, m: nat)
    requires Kept(a, b, some, n) && some <= all && n <= m
    ensures Kept(a, b, all, m)
  {
  }

  lemma SpareWithin<S, E>(a: Channels<S, E>, some: set<ConnectionId>, all: set<ConnectionId>, n: nat, m: nat)
    requires Spare(a, all, m) && some <= all && n <= m
    ensures Spare(a, some, n)
  {
  }

  /** Room for both rounds is room for the second after the first. */
  lemma StillSpare<S, E>(a: Channels<S, E>, b: Channels<S, E>, targets: set<ConnectionId>, n: nat, m: nat)
    requires Kept(a, b, targets, n) && Spare(a, targets, n + m)
    ensures Spare(b, targets, m)
  {
  }

  lemma KeptThen<S, E>(
    a: Channels<S, E>, b: Channels<S, E>, d: Channels<S, E>, targets: set<ConnectionId>, n: nat, m: nat)
    requires Kept(a, b, targets, n) && Kept(b, d, targets, m)
    ensures Kept(a, d, targets, n + m)
  {
  }

  /** One message each, to one more client that had none. */
  lemma KeptOneMore<S, E>(
    a: Channels<S, E>, b: Channels<S, E>, some: set<ConnectionId>, c: ConnectionId, all: set<ConnectionId>)
    requires Kept(a, b, some, 1) && c !in some && c in all && Spare(a, all, 1)
    ensures Spare(b, {c}, 1)
    ensures forall d: Channels<S, E> :: Kept(b, d, {c}, 1) ==> Kept(a, d, some + {c}, 1)
  {
  }

  /** A connection that is still there was sent this message in between. */
  ghost predicate Received<S, E>(before: Channels<S, E>, after: Channels<S, E>, c: ConnectionId, m: Message<S, E>) {
    c in after ==>
      c in before && |before[c].queue| <= |after[c].queue| && m in after[c].queue[|before[c].queue|..]
  }

  lemma ReceivedNow<S, E>(channels: Channels<S, E>, c: ConnectionId, m: Message<S, E>)
    requires c in channels
    ensures Received(channels, channels[c := channels[c].(queue := channels[c].queue + [m])], c, m)
  {
    assert (channels[c].queue + [m])[|channels[c].queue|..] == [m];
  }

  lemma ReceivedThen<S, E>(
    a: Channels<S, E>, b: Channels<S, E>, d: Channels<S, E>, targets: set<ConnectionId>, more: seq<Message<S, E>>,
    c: ConnectionId, m: Message<S, E>)
    requires Received(a, b, c, m) && Pushed(b, d, targets, more)
    ensures Received(a, d, c, m)
  {
    hide StateOf;
    if c in d {
      var n := |a[c].queue|;
      var i :| 0 <= i < |b[c].queue[n..]| && b[c].queue[n..][i] == m;
      assert d[c].queue[n..][i] == d[c].queue[n + i] == b[c].queue[n + i];
    }
  }

  lemma ThenReceived<S, E>(
    a: Channels<S, E>, b: Channels<S, E>, d: Channels<S, E>, targets: set<ConnectionId>, more: seq<Message<S, E>>,
    c: ConnectionId, m: Message<S, E>)
    requires Pushed(a, b, targets, more) && Received(b, d, c, m)
    ensures Received(a, d, c, m)
  {
    hide StateOf;
    if c in d {
      var n, k := |a[c].queue|, |b[c].queue|;
      var i :| 0 <= i < |d[c].queue[k..]| && d[c].queue[k..][i] == m;
      assert d[c].queue[n..][k - n + i] == m;
    }
  }

  /** Every subscriber that is still there has been told of every session that lost its driver. */
  ghost predicate Announced<S, E>(before: Core, after: Core, from: Channels<S, E>, to: Channels<S, E>) {
    forall s, c :: Lost(before, after, s) && c in before.sessions[s].subscribers ==>
      Received(from, to, c, DriverChanged(s, None))
  }

  ghost predicate Lost(before: Core, after: Core, s: SessionId) {
    && s in before.sessions && s in after.sessions
    && before.sessions[s].driver.Some? && after.sessions[s].driver.None?
  }

  lemma AnnouncedThen<S, E>(
    one: Core, two: Core, three: Core, a: Channels<S, E>, b: Channels<S, E>, d: Channels<S, E>,
    targets: set<ConnectionId>, more: seq<Message<S, E>>, also: set<ConnectionId>, rest: seq<Message<S, E>>)
    requires Announced(one, two, a, b) && Announced(two, three, b, d)
    requires Pushed(a, b, targets, more) && Pushed(b, d, also, rest)
    requires two.sessions.Keys == one.sessions.Keys
    requires forall s, c :: s in one.sessions && c in one.sessions[s].subscribers && c in b ==>
               c in two.sessions[s].subscribers
    ensures Announced(one, three, a, d)
  {
    hide Pushed, Received;
    forall s, c | Lost(one, three, s) && c in one.sessions[s].subscribers
      ensures Received(a, d, c, DriverChanged(s, None))
    {
      if Lost(one, two, s) {
        ReceivedThen(a, b, d, also, rest, c, DriverChanged(s, None));
      } else if c in d {
        PushedKeys(b, d, also, rest);
        assert Lost(two, three, s) && c in two.sessions[s].subscribers;
        ThenReceived(a, b, d, targets, more, c, DriverChanged(s, None));
      } else {
        AbsentReceives(a, d, c, DriverChanged(s, None));
      }
    }
  }

  lemma AbsentReceives<S, E>(a: Channels<S, E>, b: Channels<S, E>, c: ConnectionId, m: Message<S, E>)
    requires c !in b
    ensures Received(a, b, c, m)
  {
  }

  function EventMessages<S, E>(session: SessionId, events: seq<Sequenced<E>>): (r: seq<Message<S, E>>)
    ensures |r| == |events|
    ensures forall i :: 0 <= i < |r| ==> r[i] == Event(session, events[i].sequence, events[i].event)
  {
    seq(|events|, i requires 0 <= i < |events| => Event(session, events[i].sequence, events[i].event))
  }

  function Above<E>(events: seq<Sequenced<E>>, cursor: nat): seq<Sequenced<E>> {
    if events == [] then []
    else (if events[0].sequence > cursor then [events[0]] else []) + Above(events[1..], cursor)
  }

  /** Whether the history still reaches back to a client's cursor. */
  predicate Covers<E>(events: seq<Sequenced<E>>, after: Option<nat>) {
    after.Some? && events != [] && after.value + 1 >= events[0].sequence
  }

  /** The events of the history above the cursor, in order. */
  lemma {:induction false} AboveIsFilter<E>(events: seq<Sequenced<E>>, cursor: nat)
    ensures |Above(events, cursor)| <= |events|
    ensures forall e :: e in Above(events, cursor) <==> e in events && e.sequence > cursor
  {
    if events != [] {
      AboveIsFilter(events[1..], cursor);
      assert events == [events[0]] + events[1..];
    }
  }

  /** What an attaching client is sent, seen from outside: when the history reaches back to its
      cursor, exactly the events it missed and no snapshot; otherwise exactly one snapshot. */
  ghost predicate CaughtUp<S, E>(
    session: SessionId, events: seq<Sequenced<E>>, state: S, sequence: nat, after: Option<nat>,
    sent: seq<Message<S, E>>)
  {
    if after.Some? && events != [] && events[0].sequence <= after.value + 1
    then
      && |sent| <= |events|
      && (forall k :: 0 <= k < |sent| ==>
            && sent[k].Event? && sent[k].session == session && sent[k].sequence > after.value
            && Sequenced(sent[k].sequence, sent[k].event) in events)
      && (forall k :: 0 <= k < |events| && events[k].sequence > after.value ==>
            Event(session, events[k].sequence, events[k].event) in sent)
    else sent == [Snapshot(session, sequence, state)]
  }

  lemma CatchUpCatchesUp<S, E>(
    session: SessionId, events: seq<Sequenced<E>>, state: S, sequence: nat, after: Option<nat>)
    ensures CaughtUp(session, events, state, sequence, after, CatchUp(session, events, state, sequence, after))
    ensures |CatchUp(session, events, state, sequence, after)| <= Max(1, |events|)
  {
    if after.Some? && events != [] && events[0].sequence <= after.value + 1 {
      var missed := Above(events, after.value);
      var sent: seq<Message<S, E>> := CatchUp(session, events, state, sequence, after);
      AboveIsFilter(events, after.value);
      assert sent == EventMessages(session, missed);
      forall k | 0 <= k < |sent|
        ensures Sequenced(sent[k].sequence, sent[k].event) in events && sent[k].sequence > after.value
      {
        assert missed[k] in missed;
      }
      forall k | 0 <= k < |events| && events[k].sequence > after.value
        ensures Event(session, events[k].sequence, events[k].event) in sent
      {
        var i :| 0 <= i < |missed| && missed[i] == events[k];
        assert sent[i] == Event(session, events[k].sequence, events[k].event);
      }
    }
  }

  /** What an attaching client is sent: the events it missed, or the whole state. */
  function CatchUp<S, E>(
    session: SessionId, events: seq<Sequenced<E>>, state: S, sequence: nat, after: Option<nat>): seq<Message<S, E>>
  {
    if Covers(events, after) then EventMessages(session, Above(events, after.value))
    else [Snapshot(session, sequence, state)]
  }
}
