/** The client library: request numbering, one exchange at a time, and the resume cursor of
    each attachment, which moves only after the consumer holds the message. */
module Clients {
  import opened Protocol
  import opened Sequences
  import opened Outbounds

  datatype Request =
    | Attach(session: SessionId, mode: AttachmentMode, after: Option<nat>, force: bool)
    | Detach(session: SessionId)
    | AcquireDriver(session: SessionId, force: bool)
    | ReleaseDriver(session: SessionId)
    | RenameSession(session: SessionId, name: string)
    | StopSession(session: SessionId)
    | Other

  /** `name` is the session's name as the leader last told it. */
  datatype Attachment = Attachment(
    session: SessionId, name: string, mode: AttachmentMode, force: bool, lease: Option<nat>, cursor: nat)

  ghost predicate Distinct(list: seq<Attachment>) {
    forall i, j :: 0 <= i < j < |list| ==> list[i].session != list[j].session
  }

  predicate Has(list: seq<Attachment>, session: SessionId) {
    exists i :: 0 <= i < |list| && list[i].session == session
  }

  // ----- what messages do to the attachments -----

  function Advance(list: seq<Attachment>, session: SessionId, sequence: nat): (r: seq<Attachment>)
    ensures |r| == |list|
  {
    seq(|list|, i requires 0 <= i < |list| =>
      if list[i].session == session then list[i].(cursor := Max(list[i].cursor, sequence)) else list[i])
  }

  function Authority(list: seq<Attachment>, session: SessionId, lease: Option<nat>): (r: seq<Attachment>)
    ensures |r| == |list|
  {
    seq(|list|, i requires 0 <= i < |list| =>
      if list[i].session == session
      then list[i].(lease := lease, mode := if lease.Some? then Drive else View)
      else list[i])
  }

  function Forced(list: seq<Attachment>, session: SessionId, force: bool): (r: seq<Attachment>)
    ensures |r| == |list|
  {
    seq(|list|, i requires 0 <= i < |list| =>
      if list[i].session == session && list[i].lease.Some? then list[i].(force := force) else list[i])
  }

  function Retitled(list: seq<Attachment>, session: SessionId, name: string): (r: seq<Attachment>)
    ensures |r| == |list|
  {
    seq(|list|, i requires 0 <= i < |list| =>
      if list[i].session == session then list[i].(name := name) else list[i])
  }

  function Put(list: seq<Attachment>, a: Attachment): seq<Attachment> {
    if Has(list, a.session)
    then seq(|list|, i requires 0 <= i < |list| => if list[i].session == a.session then a else list[i])
    else list + [a]
  }

  function Drop(list: seq<Attachment>, session: SessionId): (r: seq<Attachment>)
    ensures forall a :: a in r <==> a in list && a.session != session
  {
    if list == [] then []
    else (if list[0].session == session then [] else [list[0]]) + Drop(list[1..], session)
  }

  function Owned(instance: ClientId, lease: Option<DriverLease>): Option<nat> {
    if lease.Some? && lease.value.owner == instance then Some(lease.value.epoch) else None
  }

  /** What a driver notice leaves: this instance's own lease makes it the driver, anyone else's
      and none at all leave it a viewer; other sessions are not touched. */
  ghost predicate Decided(
    before: seq<Attachment>, after: seq<Attachment>, session: SessionId, instance: ClientId, lease: Option<DriverLease>)
  {
    && |after| == |before|
    && forall k :: 0 <= k < |before| ==>
         if before[k].session != session then after[k] == before[k]
         else if lease.Some? && lease.value.owner == instance
         then after[k] == before[k].(lease := Some(lease.value.epoch), mode := Drive)
         else after[k] == before[k].(lease := None, mode := View)
  }

  /** Only this session's resume point moves, to the sequence unless it stood further. */
  ghost predicate Advanced(before: seq<Attachment>, after: seq<Attachment>, session: SessionId, sequence: nat) {
    && |after| == |before|
    && forall k :: 0 <= k < |before| ==>
         if before[k].session == session && before[k].cursor < sequence
         then after[k] == before[k].(cursor := sequence)
         else after[k] == before[k]
  }

  datatype Book = Book(attachments: seq<Attachment>, current: Option<SessionId>)

  function Removed(b: Book, session: SessionId): Book {
    var rest := Drop(b.attachments, session);
    Book(rest, if b.current != Some(session) then b.current
               else if rest == [] then None
               else Some(rest[|rest| - 1].session))
  }

  /** A successful response to one of the client's own requests. */
  function Observe(b: Book, instance: ClientId, request: Request, reply: Reply): Book {
    if request.Attach? && reply.AttachedTo? then
      var a := Attachment(reply.session, reply.name, request.mode, request.force, reply.lease, reply.sequence);
      Book(Put(b.attachments, a), Some(reply.session))
    else if request.Detach? && reply == DetachedFrom(request.session) then
      Removed(b, request.session)
    else if request.AcquireDriver? && reply.DriverIs? && reply.session == request.session
            && Has(b.attachments, request.session) then
      var driven := Authority(b.attachments, request.session, Owned(instance, reply.driver));
      b.(attachments := Forced(driven, request.session, request.force))
    else if request.ReleaseDriver? && reply.DriverIs? && reply.session == request.session
            && Has(b.attachments, request.session) then
      b.(attachments := Authority(b.attachments, request.session, Owned(instance, reply.driver)))
    else if request.RenameSession? && reply.Renamed? && reply.session == request.session
            && Has(b.attachments, request.session) then
      b.(attachments := Retitled(b.attachments, request.session, reply.name))
    else if request.StopSession? && reply.Stopped? then
      Removed(b, request.session)
    else b
  }

  /** Each successful answer does to the attachments what it says, and to nothing else: joining
      makes the session current; leaving and stopping forget it; taking, losing and giving up
      the lease decide the mode; a renamed session carries its new name. */
  lemma ObserveIs(b: Book, instance: ClientId, request: Request, reply: Reply)
    requires Distinct(b.attachments)
    ensures var after := Observe(b, instance, request, reply);
            && (forall k :: 0 <= k < |b.attachments| && b.attachments[k].session !in Concerned(request, reply) ==>
                  b.attachments[k] in after.attachments)
            && (request.Attach? && reply.AttachedTo? ==>
                  && after.current == Some(reply.session)
                  && forall a :: a in after.attachments && a.session == reply.session <==>
                       a == Attachment(reply.session, reply.name, request.mode, request.force, reply.lease,
                                       reply.sequence))
            && ((request.Detach? && reply == DetachedFrom(request.session)) || (request.StopSession? && reply.Stopped?)
                ==> !Has(after.attachments, request.session) && after.current != Some(request.session))
            && (request.AcquireDriver? && reply.DriverIs? && reply.session == request.session ==>
                  forall k :: 0 <= k < |b.attachments| && b.attachments[k].session == request.session ==>
                    var a := b.attachments[k];
                    |after.attachments| == |b.attachments|
                    && after.attachments[k]
                       == if reply.driver.Some? && reply.driver.value.owner == instance
                          then a.(lease := Some(reply.driver.value.epoch), mode := Drive, force := request.force)
                          else a.(lease := None, mode := View))
            && (request.ReleaseDriver? && reply.DriverIs? && reply.session == request.session ==>
                  Decided(b.attachments, after.attachments, request.session, instance, reply.driver))
            && (request.RenameSession? && reply.Renamed? && reply.session == request.session ==>
                  forall k :: 0 <= k < |b.attachments| && b.attachments[k].session == request.session ==>
                    |after.attachments| == |b.attachments|
                    && after.attachments[k] == b.attachments[k].(name := reply.name))
  {
    if request.Attach? && reply.AttachedTo? {
      var a := Attachment(reply.session, reply.name, request.mode, request.force, reply.lease, reply.sequence);
      PutIs(b.attachments, a);
    } else if (request.Detach? && reply == DetachedFrom(request.session)) || (request.StopSession? && reply.Stopped?) {
      DropKeeps(b.attachments, request.session);
    } else {
      var after := Observe(b, instance, request, reply);
      assert |after.attachments| == |b.attachments|;
      forall k | 0 <= k < |b.attachments| && b.attachments[k].session !in Concerned(request, reply)
        ensures b.attachments[k] in after.attachments
      {
        assert after.attachments[k] == b.attachments[k];
      }
      assert !request.Other? ==> forall k :: 0 <= k < |b.attachments| && b.attachments[k].session == request.session ==>
          Has(b.attachments, request.session);
    }
  }

  /** The sessions a request and its answer are about. */
  function Concerned(request: Request, reply: Reply): set<SessionId> {
    (if request.Other? then {} else {request.session}) + (if reply.AttachedTo? then {reply.session} else {})
  }

  lemma PutIs(list: seq<Attachment>, a: Attachment)
    requires Distinct(list)
    ensures forall x :: x in Put(list, a) && x.session == a.session <==> x == a
    ensures forall k :: 0 <= k < |list| && list[k].session != a.session ==> list[k] in Put(list, a)
  {
    var after := Put(list, a);
    PutKeeps(list, a);
    var i :| 0 <= i < |after| && after[i].session == a.session;
    assert after[i] in after;
    forall k | 0 <= k < |list| && list[k].session != a.session ensures list[k] in after {
      assert after[k] == list[k];
    }
  }

  predicate Succeeds(reply: Reply) {
    !reply.Refused? && !reply.Rejected?
  }

  /** A message the consumer holds. */
  function Acknowledged<S, E>(b: Book, instance: ClientId, m: Message<S, E>): Book {
    match m
    case Event(session, sequence, _) => b.(attachments := Advance(b.attachments, session, sequence))
    case Snapshot(session, sequence, _) => b.(attachments := Advance(b.attachments, session, sequence))
    case DriverChanged(session, lease) => b.(attachments := Authority(b.attachments, session, Owned(instance, lease)))
    case Response(_, _) => b
  }

  /** One message of a reattachment: the answer restores the cursor if it stood further. */
  function Handled<S, E>(
    b: Book, instance: ClientId, exchange: RequestId, previous: Attachment, m: Message<S, E>): Book {
    if m.Response? && m.request == exchange then
      var request := Attach(previous.session, previous.mode, Some(previous.cursor), previous.force);
      var after := if Succeeds(m.reply) then Observe(b, instance, request, m.reply) else b;
      if m.reply.AttachedTo?
      then after.(attachments := Advance(after.attachments, previous.session, previous.cursor))
      else after
    else Acknowledged(b, instance, m)
  }

  function HandledAll<S, E>(
    b: Book, instance: ClientId, exchange: RequestId, previous: Attachment, ms: seq<Message<S, E>>): Book {
    if ms == [] then b
    else Handled(HandledAll(b, instance, exchange, previous, ms[..|ms| - 1]), instance, exchange, previous,
                 ms[|ms| - 1])
  }

  // ----- the client object -----

  datatype Item<S, E> = Answer(reply: Reply) | Push(message: Message<S, E>)

  /** How one reattachment ends: attached, turned down, cut off, or never asked for. */
  datatype Outcome = Joined | TurnedDown | CutOff | NotSent

  class ResidentClient<S, E> {
    const instance: ClientId
    var nextRequest: nat
    var inflight: map<RequestId, Request>
    var attachments: seq<Attachment>
    var current: Option<SessionId>

    ghost function State(): Book
      reads this
    {
      Book(attachments, current)
    }

    /** One attachment per session, the current one among them, at most one exchange, and no
        request number handed out twice. */
    ghost predicate Valid()
      reads this
    {
      && Distinct(attachments)
      && (current.Some? ==> Has(attachments, current.value))
      && (forall r, q :: r in inflight && q in inflight ==> r == q)
      && (forall r :: r in inflight ==> r.client == instance && r.sequence < nextRequest)
    }

    constructor (instance: ClientId)
      ensures Valid() && this.instance == instance && State() == Book([], None) && inflight == map[] && nextRequest == 1
    {
      this.instance := instance;
      nextRequest, inflight, attachments, current := 1, map[], [], None;
    }

    /** Allocates a request number that was never used before. */
    method Envelope() returns (request: RequestId)
      requires Valid()
      modifies this`nextRequest
      ensures Valid() && request == RequestId(instance, old(nextRequest)) && nextRequest == old(nextRequest) + 1
      ensures request !in inflight
    {
      request := RequestId(instance, nextRequest);
      nextRequest := nextRequest + 1;
    }

    /** Starts an exchange, or resumes the one that is active. `sent` tells whether the
        connection took the request. */
    method BeginExchange(request: RequestId, message: Request, sent: bool) returns (ok: bool)
      requires Valid() && request.client == instance && request.sequence < nextRequest
      modifies this`inflight
      ensures Valid() && ok == ((old(inflight) == map[] || request in old(inflight)) && sent)
      ensures ok ==>
                && request in inflight
                && inflight[request] == if request in old(inflight) then old(inflight)[request] else message
      ensures !ok ==> inflight == if old(inflight) == map[] || request in old(inflight) then map[] else old(inflight)
    {
      if inflight != map[] && request !in inflight {
        return false;
      }
      if inflight == map[] {
        inflight := map[request := message];
      }
      if !sent {
        inflight := inflight - {request};
        return false;
      }
      ok := true;
    }

    /** Classifies the next message of an exchange; the matching answer ends it. */
    method NextExchange(exchange: RequestId, m: Message<S, E>) returns (item: Item<S, E>)
      requires Valid() && exchange in inflight
      modifies this`inflight, this`attachments, this`current
      ensures Valid()
      ensures m.Response? && m.request == exchange ==>
                && item == Answer(m.reply) && inflight == map[]
                && State() == if Succeeds(m.reply)
                              then Observe(old(State()), instance, old(inflight)[exchange], m.reply)
                              else old(State())
      ensures !(m.Response? && m.request == exchange) ==>
                item == Push(m) && inflight == old(inflight) && State() == old(State())
    {
      if !(m.Response? && m.request == exchange) {
        return Push(m);
      }
      var request := inflight[exchange];
      inflight := inflight - {exchange};
      if Succeeds(m.reply) {
        ObserveResult(request, m.reply);
      }
      item := Answer(m.reply);
    }

    method FinishExchange(exchange: RequestId)
      requires Valid()
      modifies this`inflight
      ensures Valid() && inflight == old(inflight) - {exchange}
    {
      inflight := inflight - {exchange};
    }

    method ObserveResult(request: Request, reply: Reply)
      requires Valid()
      modifies this`attachments, this`current
      ensures Valid() && State() == Observe(old(State()), instance, request, reply)
    {
      if request.Attach? && reply.AttachedTo? {
        var a := Attachment(reply.session, reply.name, request.mode, request.force, reply.lease, reply.sequence);
        PutKeeps(attachments, a);
        var i := Find(reply.session);
        attachments := if i < |attachments| then attachments[i := a] else attachments + [a];
        current := Some(reply.session);
        assert attachments == Put(old(attachments), a);
      } else if request.Detach? && reply == DetachedFrom(request.session) {
        RemoveAttachment(request.session);
      } else if request.AcquireDriver? && reply.DriverIs? && reply.session == request.session {
        var i := Find(request.session);
        if i < |attachments| {
          ObserveDriver(request.session, reply.driver);
          ghost var driven := attachments;
          if attachments[i].lease.Some? {
            attachments := attachments[i := attachments[i].(force := request.force)];
          }
          assert attachments == Forced(driven, request.session, request.force);
          SameSessions(driven, attachments);
        }
      } else if request.ReleaseDriver? && reply.DriverIs? && reply.session == request.session {
        var i := Find(request.session);
        if i < |attachments| {
          ObserveDriver(request.session, reply.driver);
        }
      } else if request.RenameSession? && reply.Renamed? && reply.session == request.session {
        var i := Find(request.session);
        if i < |attachments| {
          attachments := attachments[i := attachments[i].(name := reply.name)];
          assert attachments == Retitled(old(attachments), request.session, reply.name);
          SameSessions(old(attachments), attachments);
        }
      } else if request.StopSession? && reply.Stopped? {
        RemoveAttachment(request.session);
      }
    }

    /** The position of a session's attachment, or the length of the list. */
    method Find(session: SessionId) returns (i: nat)
      requires Distinct(attachments)
      ensures i <= |attachments| && (i < |attachments| <==> Has(attachments, session))
      ensures i < |attachments| ==> attachments[i].session == session
      ensures forall k :: 0 <= k < |attachments| && k != i ==> attachments[k].session != session
    {
      i := 0;
      while i < |attachments| && attachments[i].session != session
        invariant i <= |attachments| && forall k :: 0 <= k < i ==> attachments[k].session != session
      {
        i := i + 1;
      }
    }

    method RemoveAttachment(session: SessionId)
      requires Valid()
      modifies this`attachments, this`current
      ensures Valid() && State() == Removed(old(State()), session)
      ensures forall a :: a in attachments <==> a in old(attachments) && a.session != session
      ensures current == if old(current) != Some(session) then old(current)
                         else if attachments == [] then None
                         else Some(attachments[|attachments| - 1].session)
    {
      DropKeeps(attachments, session);
      attachments := Drop(attachments, session);
      if current == Some(session) {
        current := if attachments == [] then None else Some(attachments[|attachments| - 1].session);
      }
    }

    method ObserveDriver(session: SessionId, lease: Option<DriverLease>)
      requires Valid()
      modifies this`attachments
      ensures Valid() && attachments == Authority(old(attachments), session, Owned(instance, lease))
      ensures Decided(old(attachments), attachments, session, instance, lease)
    {
      var owned := Owned(instance, lease);
      var i := Find(session);
      if i < |attachments| {
        attachments := attachments[i := attachments[i].(lease := owned, mode := if owned.Some? then Drive else View)];
      }
      assert attachments == Authority(old(attachments), session, owned);
      SameSessions(old(attachments), attachments);
    }

    /** Moves a resume point forward, never back. */
    method SetCursor(session: SessionId, sequence: nat)
      requires Valid()
      modifies this`attachments
      ensures Valid() && attachments == Advance(old(attachments), session, sequence)
      ensures Advanced(old(attachments), attachments, session, sequence)
    {
      var i := Find(session);
      if i < |attachments| {
        attachments := attachments[i := attachments[i].(cursor := Max(attachments[i].cursor, sequence))];
      }
      assert attachments == Advance(old(attachments), session, sequence);
      SameSessions(old(attachments), attachments);
    }

    /** Called once the consumer holds the message. */
    method Acknowledge(m: Message<S, E>)
      requires Valid() && (m.Response? ==> m.request !in inflight)
      modifies this`attachments
      ensures Valid() && State() == Acknowledged(old(State()), instance, m)
      ensures match m
              case Event(session, sequence, _) => Advanced(old(attachments), attachments, session, sequence)
              case Snapshot(session, sequence, _) => Advanced(old(attachments), attachments, session, sequence)
              case DriverChanged(session, lease) => Decided(old(attachments), attachments, session, instance, lease)
              case Response(_, _) => attachments == old(attachments)
    {
      hide Decided, Advanced;
      match m
      case Event(session, sequence, _) => SetCursor(session, sequence);
      case Snapshot(session, sequence, _) => SetCursor(session, sequence);
      case DriverChanged(session, lease) => ObserveDriver(session, lease);
      case Response(_, _) =>
    }

    // ----- reconnecting -----

    /** The last message read answers the request numbered `n`. */
    predicate Concluded(reader: seq<Message<S, E>>, from: nat, to: nat, n: nat)
      requires from <= to <= |reader|
    {
      to > from && reader[to - 1].Response? && reader[to - 1].request == RequestId(instance, n)
    }

    /** Attaches one session again on a new connection. `reader` is what the connection
        delivers from position `from`, `room` how many more messages the consumer takes, and
        `sent` whether the connection takes the request. Each push goes to the consumer first
        and is acknowledged after. */
    method Reattach(previous: Attachment, reader: seq<Message<S, E>>, from: nat, room: nat, sent: bool)
      returns (to: nat, sink: seq<Message<S, E>>, outcome: Outcome)
      requires Valid() && inflight == map[] && from <= |reader|
      modifies this
      ensures Valid() && inflight == map[] && from <= to <= |reader|
      ensures State() == HandledAll(old(State()), instance, RequestId(instance, old(nextRequest)), previous,
                                    reader[from..to])
      ensures StateOf(sink) == StateOf(reader[from..to]) && |sink| <= room
      ensures outcome.NotSent? <==> !sent
      ensures !sent ==> to == from
      ensures outcome.Joined? <==> Concluded(reader, from, to, old(nextRequest)) && reader[to - 1].reply.AttachedTo?
      ensures outcome.TurnedDown? <==> Concluded(reader, from, to, old(nextRequest)) && !Succeeds(reader[to - 1].reply)
      ensures nextRequest == old(nextRequest) + 1
    {
      hide StateOf, HandledAll, Distinct, Has, Concluded;
      var exchange := Envelope();
      var message := Attach(previous.session, previous.mode, Some(previous.cursor), previous.force);
      var begun := BeginExchange(exchange, message, sent);
      assert reader[from..from] == [];
      NothingHandled<S, E>(State(), instance, exchange, previous);
      NotConcluded(reader, from, exchange.sequence);
      if !begun {
        return from, [], NotSent;
      }
      to, sink, outcome := AwaitAttachment(exchange, message, previous, reader, from, room);
    }

    lemma NotConcluded(reader: seq<Message<S, E>>, from: nat, n: nat)
      requires from <= |reader|
      ensures !Concluded(reader, from, from, n)
    {
    }

    /** Reads until the answer comes, the connection ends, or the consumer takes no more. */
    method AwaitAttachment(
      exchange: RequestId, message: Request, previous: Attachment, reader: seq<Message<S, E>>, from: nat, room: nat)
      returns (to: nat, sink: seq<Message<S, E>>, outcome: Outcome)
      requires Valid() && inflight == map[exchange := message] && from <= |reader|
      requires message == Attach(previous.session, previous.mode, Some(previous.cursor), previous.force)
      modifies this`inflight, this`attachments, this`current
      ensures Valid() && inflight == map[] && from <= to <= |reader|
      ensures State() == HandledAll(old(State()), instance, exchange, previous, reader[from..to])
      ensures StateOf(sink) == StateOf(reader[from..to]) && |sink| <= room
      ensures outcome.Joined? <==> Concluded(reader, from, to, exchange.sequence) && reader[to - 1].reply.AttachedTo?
      ensures outcome.TurnedDown? <==> Concluded(reader, from, to, exchange.sequence) && !Succeeds(reader[to - 1].reply)
      ensures !outcome.NotSent?
    {
      hide StateOf, HandledAll, Acknowledged, Observe, Distinct, Has;
      ghost var before := State();
      to, sink := from, [];
      assert reader[from..from] == [];
      NothingHandled<S, E>(before, instance, exchange, previous);
      while to < |reader|
        invariant Valid() && from <= to <= |reader| && inflight == map[exchange := message]
        invariant State() == HandledAll(before, instance, exchange, previous, reader[from..to])
        invariant StateOf(sink) == StateOf(reader[from..to]) && |sink| <= room
        invariant to > from ==> !(reader[to - 1].Response? && reader[to - 1].request == exchange)
        decreases |reader| - to
      {
        var m := reader[to];
        ghost var so := reader[from..to];
        assert reader[from..to + 1] == so + [m];
        HandledSnoc(before, instance, exchange, previous, so, m);
        var item := NextExchange(exchange, m);
        match item
        case Push(_) =>
          if |sink| == room {
            break;
          }
          StateOfPush(sink, m);
          sink := sink + [m];
          StateOfPush(so, m);
          Acknowledge(m);
          to := to + 1;
        case Answer(reply) =>
          StateOfPush(so, m);
          assert StateOf(so) + [] == StateOf(so);
          to := to + 1;
          if reply.AttachedTo? {
            SetCursor(previous.session, previous.cursor);
          }
          return to, sink, if reply.AttachedTo? then Joined else if Succeeds(reply) then CutOff else TurnedDown;
      }
      FinishExchange(exchange);
      outcome := CutOff;
    }

    /** The leader's answers name the session that was asked for. */
    ghost predicate Truthful(reader: seq<Message<S, E>>, previous: seq<Attachment>, first: nat) {
      forall k, i :: 0 <= k < |reader| && 0 <= i < |previous| && Answers(reader[k], RequestId(instance, first + i)) ==>
        reader[k].reply.session == previous[i].session
    }

    /** Among the messages read is an attachment that answers the request numbered `n`. */
    ghost predicate Joins(reader: seq<Message<S, E>>, read: nat, n: int)
      requires read <= |reader|
    {
      n >= 0 && exists k :: 0 <= k < read && Answers(reader[k], RequestId(instance, n))
    }

    ghost predicate AllJoined(reader: seq<Message<S, E>>, read: nat, first: nat, past: int)
      requires read <= |reader|
    {
      forall n :: first <= n < past ==> Joins(reader, read, n)
    }

    /** On a new connection attaches every session again, in order, each from its own cursor;
        `takes` tells which requests the connection takes. Whatever happens, every state message
        the connection delivered before the first failure has gone to the consumer, in order,
        and no cursor has moved back. A clean end means that every session was joined; otherwise
        exactly the sessions before the last one tried were. */
    method ReconnectStreaming(reader: seq<Message<S, E>>, room: nat, takes: seq<bool>)
      returns (read: nat, sink: seq<Message<S, E>>, outcome: Outcome)
      requires Valid() && inflight == map[] && Truthful(reader, attachments, nextRequest)
      requires |takes| == |attachments|
      modifies this
      ensures Valid() && inflight == map[] && read <= |reader|
      ensures StateOf(sink) == StateOf(reader[..read])
      ensures Aligned(old(attachments), attachments)
      ensures !outcome.TurnedDown? && !outcome.NotSent? ==> current == old(current)
      ensures old(nextRequest) <= nextRequest <= old(nextRequest) + |old(attachments)|
      ensures var tried := nextRequest - old(nextRequest);
              && (outcome.Joined? <==> tried == |takes| && (tried > 0 ==> Ended(reader, read, nextRequest - 1, true)))
              && (outcome.TurnedDown? <==> tried > 0 && Ended(reader, read, nextRequest - 1, false))
              && (outcome.NotSent? <==> tried > 0 && !takes[tried - 1])
              && AllJoined(reader, read, old(nextRequest), if outcome.Joined? then nextRequest else nextRequest - 1)
    {
      hide StateOf, HandledAll, Handled, AllJoined, Ended, Concluded, Distinct, Has, Aligned;
      var previous := attachments;
      var selected := current;
      read, sink := 0, [];
      assert reader[..0] == [];
      ghost var first := nextRequest;
      NothingYet(reader, first, previous);
      for i := 0 to |previous|
        invariant Valid() && inflight == map[] && read <= |reader| && nextRequest == first + i
        invariant StateOf(sink) == StateOf(reader[..read]) && |sink| <= room
        invariant Aligned(previous, attachments)
        invariant if i == 0 then read == 0 else Ended(reader, read, first + i - 1, true)
        invariant i > 0 ==> takes[i - 1]
        invariant AllJoined(reader, read, first, first + i)
      {
        ghost var before := State();
        var to, pushes, ended := Reattach(previous[i], reader, read, room - |sink|, takes[i]);
        assert reader[..read] + reader[read..to] == reader[..to];
        StateOfConcat(sink, pushes);
        StateOfConcat(reader[..read], reader[read..to]);
        assert forall k :: 0 <= k < to - read ==> reader[read..to][k] == reader[read + k];
        HandledAligned(previous, i, before, instance, RequestId(instance, first + i), reader[read..to]);
        StillJoined(reader, read, to, first, first + i);
        EndedNow(reader, read, to, first, i);
        sink, read := sink + pushes, to;
        if !ended.Joined? {
          if ended.CutOff? {
            current := selected;
            AlignedSessions(previous, attachments);
          }
          return read, sink, ended;
        }
        OneMoreJoined(reader, read, first, first + i);
      }
      current := selected;
      AlignedSessions(previous, attachments);
      if previous != [] {
        JoinedIsNotRefused(reader, read, nextRequest - 1);
      }
      outcome := Joined;
    }

    /** The last message read answers the request numbered `n`, with an attachment, or turning
        it down. */
    ghost predicate Ended(reader: seq<Message<S, E>>, read: nat, n: nat, joined: bool)
      requires read <= |reader|
    {
      && read > 0 && Concluded(reader, 0, read, n)
      && if joined then reader[read - 1].reply.AttachedTo? else !Succeeds(reader[read - 1].reply)
    }

    lemma JoinedIsNotRefused(reader: seq<Message<S, E>>, read: nat, n: nat)
      requires read <= |reader| && Ended(reader, read, n, true)
      ensures !Ended(reader, read, n, false)
    {
    }

    lemma NothingYet(reader: seq<Message<S, E>>, first: nat, list: seq<Attachment>)
      ensures AllJoined(reader, 0, first, first) && Aligned(list, list)
    {
    }

    /** After one more reattachment the last message read answers its request exactly when that
        reattachment read the answer. */
    lemma EndedNow(reader: seq<Message<S, E>>, read: nat, to: nat, first: nat, i: nat)
      requires read <= to <= |reader|
      requires if i == 0 then read == 0 else Ended(reader, read, first + i - 1, true)
      ensures Ended(reader, to, first + i, true)
              <==> Concluded(reader, read, to, first + i) && reader[to - 1].reply.AttachedTo?
      ensures Ended(reader, to, first + i, false)
              <==> Concluded(reader, read, to, first + i) && !Succeeds(reader[to - 1].reply)
    {
    }

    lemma StillJoined(reader: seq<Message<S, E>>, read: nat, to: nat, first: nat, past: nat)
      requires read <= to <= |reader| && AllJoined(reader, read, first, past)
      ensures AllJoined(reader, to, first, past)
    {
      forall n | first <= n < past ensures Joins(reader, to, n) {
        assert Joins(reader, read, n);
      }
    }

    lemma OneMoreJoined(reader: seq<Message<S, E>>, read: nat, first: nat, past: nat)
      requires read <= |reader| && AllJoined(reader, read, first, past) && Ended(reader, read, past, true)
      ensures AllJoined(reader, read, first, past + 1)
    {
      assert Answers(reader[read - 1], RequestId(instance, past));
    }
  }

  predicate Answers<S, E>(m: Message<S, E>, exchange: RequestId) {
    m.Response? && m.request == exchange && m.reply.AttachedTo?
  }

  /** The same sessions in the same places, with no cursor behind where it was. */
  ghost predicate Aligned(previous: seq<Attachment>, list: seq<Attachment>) {
    && |list| == |previous|
    && forall i :: 0 <= i < |list| ==> list[i].session == previous[i].session && list[i].cursor >= previous[i].cursor
  }

  lemma AlignedSessions(a: seq<Attachment>, b: seq<Attachment>)
    requires Aligned(a, b)
    ensures Distinct(a) ==> Distinct(b)
    ensures forall s :: Has(a, s) <==> Has(b, s)
  {
    SameSessions(a, b);
  }

  lemma HandledKeeps<S, E>(
    previous: seq<Attachment>, i: nat, b: Book, instance: ClientId, exchange: RequestId, m: Message<S, E>)
    requires Distinct(previous) && i < |previous| && Aligned(previous, b.attachments)
    requires Answers(m, exchange) ==> m.reply.session == previous[i].session
    ensures Aligned(previous, Handled(b, instance, exchange, previous[i], m).attachments)
  {
    if Answers(m, exchange) {
      assert b.attachments[i].session == previous[i].session;
    }
  }

  lemma {:induction false} HandledAligned<S, E>(
    previous: seq<Attachment>, i: nat, b: Book, instance: ClientId, exchange: RequestId, ms: seq<Message<S, E>>)
    requires Distinct(previous) && i < |previous| && Aligned(previous, b.attachments)
    requires forall k :: 0 <= k < |ms| && Answers(ms[k], exchange) ==> ms[k].reply.session == previous[i].session
    ensures Aligned(previous, HandledAll(b, instance, exchange, previous[i], ms).attachments)
  {
    hide Handled, Aligned, Distinct;
    if ms != [] {
      HandledAligned(previous, i, b, instance, exchange, ms[..|ms| - 1]);
      HandledKeeps(previous, i, HandledAll(b, instance, exchange, previous[i], ms[..|ms| - 1]), instance, exchange,
                   ms[|ms| - 1]);
    }
  }

  lemma NothingHandled<S, E>(b: Book, instance: ClientId, exchange: RequestId, previous: Attachment)
    ensures HandledAll<S, E>(b, instance, exchange, previous, []) == b
    ensures StateOf<S, E>([]) == []
  {
  }

  lemma HandledSnoc<S, E>(
    b: Book, instance: ClientId, exchange: RequestId, previous: Attachment, ms: seq<Message<S, E>>, m: Message<S, E>)
    ensures HandledAll(b, instance, exchange, previous, ms + [m])
            == Handled(HandledAll(b, instance, exchange, previous, ms), instance, exchange, previous, m)
  {
    assert (ms + [m])[..|ms|] == ms;
  }

  lemma SameSessions(a: seq<Attachment>, b: seq<Attachment>)
    requires |a| == |b| && forall i :: 0 <= i < |a| ==> b[i].session == a[i].session
    ensures Distinct(a) ==> Distinct(b)
    ensures forall s :: Has(a, s) <==> Has(b, s)
  {
    forall s ensures Has(a, s) <==> Has(b, s) {
      if Has(a, s) {
        var i :| 0 <= i < |a| && a[i].session == s;
        assert b[i].session == s;
      }
      if Has(b, s) {
        var i :| 0 <= i < |b| && b[i].session == s;
        assert a[i].session == s;
      }
    }
  }

  lemma PutKeeps(list: seq<Attachment>, a: Attachment)
    requires Distinct(list)
    ensures Distinct(Put(list, a)) && Has(Put(list, a), a.session)
  {
    var after := Put(list, a);
    if Has(list, a.session) {
      var i :| 0 <= i < |list| && list[i].session == a.session;
      assert after[i] == a;
    } else {
      assert after[|list|] == a;
    }
  }

  lemma {:induction false} DropKeeps(list: seq<Attachment>, session: SessionId)
    requires Distinct(list)
    ensures Distinct(Drop(list, session))
    ensures forall s :: Has(Drop(list, session), s) <==> s != session && Has(list, s)
  {
    if list != [] {
      DropKeeps(list[1..], session);
      var rest := Drop(list[1..], session);
      assert forall i :: 0 <= i < |rest| ==> rest[i] in list[1..];
    }
    forall s ensures Has(Drop(list, session), s) <==> s != session && Has(list, s) {
      if Has(Drop(list, session), s) {
        var i :| 0 <= i < |Drop(list, session)| && Drop(list, session)[i].session == s;
        assert Drop(list, session)[i] in list;
      }
      if s != session && Has(list, s) {
        var i :| 0 <= i < |list| && list[i].session == s;
        assert list[i] in Drop(list, session);
      }
    }
  }
}
