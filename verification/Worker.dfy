/** The per-session command worker: which commands it starts, the bounded spool of their
    output, and what each subscriber is sent. */
module Workers {
  import opened Protocol
  import opened Sequences

  datatype Event =
    | Output(sequence: nat, stderr: bool, text: string)
    | Completed(sequence: nat, code: int)
    | OutputGap(requestedAfter: nat, firstAvailable: nat)
    | Error(message: string)

  datatype Status = Dispatching | Running | Done(code: int)

  datatype Command = Command(id: nat, text: string, cwd: string, status: Status, sequence: nat)

  datatype Stored = Stored(highWatermark: nat, command: Option<Command>)

  /** The state file and the spool file. */
  datatype Disk = Disk(stored: Stored, spool: seq<Event>)

  /** `sent` is what one connection is given, replay first; it stops at a completion. */
  datatype Subscriber = Subscriber(id: nat, after: nat, sent: seq<Event>)

  datatype Refusal = IdentityReused | AlreadyRunning | IdentityRetired

  datatype Served = Refused(reason: Refusal) | Stream(replay: seq<Event>, live: bool, start: bool)

  const MAX_OUTPUT_BYTES := 64 * 1024 * 1024
  const MAX_SUBSCRIBERS := 8
  const FRAME_HEADER := 4

  // ----- the spool -----

  function EventBytes(cost: Event -> nat, e: Event): nat {
    cost(e) + FRAME_HEADER
  }

  function Bytes(cost: Event -> nat, events: seq<Event>): nat {
    if events == [] then 0 else EventBytes(cost, events[0]) + Bytes(cost, events[1..])
  }

  /** Drops the oldest events until the rest fits. */
  function Fitting(cost: Event -> nat, events: seq<Event>, limit: nat): (r: seq<Event>)
    ensures |r| <= |events| && r == events[|events| - |r|..] && Bytes(cost, r) <= limit
  {
    if Bytes(cost, events) <= limit then events else Fitting(cost, events[1..], limit)
  }

  lemma FittingStep(cost: Event -> nat, events: seq<Event>, limit: nat)
    ensures Fitting(cost, events, limit)
            == if Bytes(cost, events) <= limit then events else Fitting(cost, events[1..], limit)
    ensures Bytes(cost, events) == if events == [] then 0 else EventBytes(cost, events[0]) + Bytes(cost, events[1..])
  {
  }

  lemma {:induction false} BytesConcat(cost: Event -> nat, a: seq<Event>, b: seq<Event>)
    ensures Bytes(cost, a + b) == Bytes(cost, a) + Bytes(cost, b)
  {
    if a == [] {
      assert a + b == b;
    } else {
      assert (a + b)[1..] == a[1..] + b;
      BytesConcat(cost, a[1..], b);
    }
  }

  lemma BytesOne(cost: Event -> nat, e: Event)
    ensures Bytes(cost, [e]) == EventBytes(cost, e)
  {
    assert [e][1..] == [];
  }

  /** The retained spool is the longest suffix within the limit: every longer one is too big. */
  lemma {:induction false} FittingIsLongest(cost: Event -> nat, events: seq<Event>, limit: nat, k: nat)
    requires k < |events| - |Fitting(cost, events, limit)|
    ensures Bytes(cost, events[k..]) > limit
  {
    if k == 0 {
      assert events[0..] == events;
    } else {
      FittingIsLongest(cost, events[1..], limit, k - 1);
      assert events[1..][k - 1..] == events[k..];
    }
  }

  /** Pruning as events arrive keeps what pruning all of them at the end would keep. */
  lemma {:induction false} FittingAppend(cost: Event -> nat, events: seq<Event>, more: seq<Event>, limit: nat)
    ensures Fitting(cost, Fitting(cost, events, limit) + more, limit) == Fitting(cost, events + more, limit)
  {
    hide Fitting, Bytes;
    FittingStep(cost, events, limit);
    if Bytes(cost, events) > limit {
      BytesConcat(cost, events, more);
      assert events != [];
      assert (events + more)[1..] == events[1..] + more;
      FittingStep(cost, events + more, limit);
      FittingAppend(cost, events[1..], more, limit);
    }
  }

  lemma LastIsKept(cost: Event -> nat, events: seq<Event>, e: Event, limit: nat)
    requires EventBytes(cost, e) <= limit
    ensures e in Fitting(cost, events + [e], limit)
  {
    NewestIsKept(cost, events, e, limit);
    var kept := Fitting(cost, events + [e], limit);
    assert kept[|kept| - 1] == e;
  }

  /** An event that fits on its own is kept when it arrives. */
  lemma NewestIsKept(cost: Event -> nat, events: seq<Event>, e: Event, limit: nat)
    requires EventBytes(cost, e) <= limit
    ensures Fitting(cost, events + [e], limit) != []
  {
    assert (events + [e])[|events|..] == [e];
    BytesOne(cost, e);
    if Fitting(cost, events + [e], limit) == [] {
      FittingIsLongest(cost, events + [e], limit, |events|);
    }
  }

  // ----- sequences -----

  function SequenceOf(e: Event): Option<nat> {
    match e
    case Output(sequence, _, _) => Some(sequence)
    case Completed(sequence, _) => Some(sequence)
    case _ => None
  }

  function Number(e: Event): seq<nat> {
    if SequenceOf(e).Some? then [SequenceOf(e).value] else []
  }

  function Seqs(events: seq<Event>): seq<nat> {
    if events == [] then [] else Number(events[0]) + Seqs(events[1..])
  }

  lemma {:induction false} SeqsConcat(a: seq<Event>, b: seq<Event>)
    ensures Seqs(a + b) == Seqs(a) + Seqs(b)
  {
    if a == [] {
      assert a + b == b;
    } else {
      assert (a + b)[1..] == a[1..] + b && (a + b)[0] == a[0];
      SeqsConcat(a[1..], b);
    }
  }

  lemma SeqsOne(e: Event)
    ensures Seqs([e]) == Number(e)
  {
    assert [e][1..] == [];
  }

  ghost predicate Consecutive(s: seq<nat>) {
    forall i :: 0 <= i < |s| ==> s[i] == s[0] + i
  }

  /** Numbered output is contiguous and ends at `last`. */
  ghost predicate RunsTo(events: seq<Event>, last: nat) {
    Consecutive(Seqs(events)) && (Seqs(events) != [] ==> Seqs(events)[|Seqs(events)| - 1] == last)
  }

  lemma RunsOn(events: seq<Event>, last: nat, e: Event)
    requires RunsTo(events, last) && (SequenceOf(e) == Some(last + 1) || SequenceOf(e).None?)
    ensures RunsTo(events + [e], if SequenceOf(e).None? then last else last + 1)
  {
    SeqsConcat(events, [e]);
    SeqsOne(e);
    assert Seqs(events) + [] == Seqs(events);
  }

  lemma RunsToSuffix(events: seq<Event>, last: nat, k: nat)
    requires RunsTo(events, last) && k <= |events|
    ensures RunsTo(events[k..], last)
  {
    hide Seqs;
    SeqsConcat(events[..k], events[k..]);
    assert events[..k] + events[k..] == events;
    SuffixConsecutive(Seqs(events[..k]), Seqs(events[k..]));
  }

  lemma SuffixConsecutive(a: seq<nat>, b: seq<nat>)
    requires Consecutive(a + b)
    ensures Consecutive(b) && (b != [] ==> b[|b| - 1] == (a + b)[|a + b| - 1])
  {
    forall i | 0 <= i < |b| ensures b[i] == b[0] + i {
      assert (a + b)[|a| + i] == (a + b)[0] + |a| + i && (a + b)[|a|] == (a + b)[0] + |a|;
    }
  }

  // ----- replay -----

  /** The retained events a reader at `after` is still missing. */
  function Missing(events: seq<Event>, after: nat): seq<Event> {
    if events == [] then []
    else (if SequenceOf(events[0]).None? || SequenceOf(events[0]).value > after then [events[0]] else [])
         + Missing(events[1..], after)
  }

  function Replayed(events: seq<Event>, after: nat): seq<Event> {
    (if Seqs(events) != [] && after + 1 < Seqs(events)[0] then [OutputGap(after, Seqs(events)[0])] else [])
    + Missing(events, after)
  }

  /** A retained event is replayed exactly when it has no number or is newer than the reader. */
  lemma {:induction false} MissingHas(events: seq<Event>, after: nat, e: Event)
    ensures e in Missing(events, after) <==> e in events && (SequenceOf(e).Some? ==> SequenceOf(e).value > after)
  {
    if events != [] {
      MissingHas(events[1..], after, e);
      assert events == [events[0]] + events[1..];
    }
  }

  /** Events are replayed in the order they were retained. */
  lemma {:induction false} MissingSnoc(events: seq<Event>, after: nat, e: Event)
    ensures Missing(events + [e], after)
            == Missing(events, after) + if SequenceOf(e).Some? && SequenceOf(e).value <= after then [] else [e]
  {
    if events == [] {
      assert [e][1..] == [];
    } else {
      assert (events + [e])[1..] == events[1..] + [e];
      MissingSnoc(events[1..], after, e);
    }
  }

  /** Readers at positions up to `n`, and no others, are given this event. */
  ghost predicate ReplayedUpTo(events: seq<Event>, e: Event, n: nat) {
    forall after: nat :: e in Replayed(events, after) <==> after <= n
  }

  lemma ReplayedBelow(events: seq<Event>, e: Event)
    requires SequenceOf(e).Some? && SequenceOf(e).value > 0 && e in events
    ensures ReplayedUpTo(events, e, SequenceOf(e).value - 1)
  {
    forall after: nat ensures e in Replayed(events, after) <==> after < SequenceOf(e).value {
      ReplayedHas(events, after, e);
    }
  }

  lemma ReplayedHas(events: seq<Event>, after: nat, e: Event)
    requires SequenceOf(e).Some?
    ensures e in Replayed(events, after) <==> e in events && SequenceOf(e).value > after
  {
    MissingHas(events, after, e);
  }

  function NumbersAbove(s: seq<nat>, after: nat): seq<nat> {
    if s == [] then [] else (if s[0] > after then [s[0]] else []) + NumbersAbove(s[1..], after)
  }

  lemma {:induction false} SeqsOfMissing(events: seq<Event>, after: nat)
    ensures Seqs(Missing(events, after)) == NumbersAbove(Seqs(events), after)
  {
    if events != [] {
      var e, rest := events[0], events[1..];
      SeqsOfMissing(rest, after);
      var head := if SequenceOf(e).None? || SequenceOf(e).value > after then [e] else [];
      SeqsConcat(head, Missing(rest, after));
      SeqsOne(e);
      NumbersAboveConcat(Number(e), Seqs(rest), after);
      assert NumbersAbove(Number(e), after) == Seqs(head) by {
        NumbersAboveOne(e, after);
      }
    }
  }

  lemma NumbersAboveOne(e: Event, after: nat)
    ensures NumbersAbove(Number(e), after)
            == if SequenceOf(e).Some? && SequenceOf(e).value > after then [SequenceOf(e).value] else []
  {
    if SequenceOf(e).Some? {
      assert Number(e)[1..] == [];
    }
  }

  lemma {:induction false} NumbersAboveConcat(a: seq<nat>, b: seq<nat>, after: nat)
    ensures NumbersAbove(a + b, after) == NumbersAbove(a, after) + NumbersAbove(b, after)
  {
    if a == [] {
      assert a + b == b;
    } else {
      assert (a + b)[1..] == a[1..] + b && (a + b)[0] == a[0];
      NumbersAboveConcat(a[1..], b, after);
    }
  }

  /** Of a contiguous run, the numbers above `after` are the run from the next one on. */
  lemma {:induction false} AboveIsRest(s: seq<nat>, after: nat)
    requires Consecutive(s)
    ensures NumbersAbove(s, after)
            == if s == [] || after < s[0] then s
               else if after - s[0] + 1 >= |s| then []
               else s[after - s[0] + 1..]
  {
    if s != [] {
      var rest := s[1..];
      assert forall i :: 0 <= i < |rest| ==> rest[i] == s[i + 1];
      AboveIsRest(rest, after);
      if s[0] <= after && after - s[0] + 1 < |s| {
        if after == s[0] {
          assert rest[0] == s[0] + 1 && s[1..] == rest;
        } else {
          assert rest[after - s[0]..] == s[after - s[0] + 1..];
        }
      }
    }
  }

  /** A reader that joined at `after`, when `joined` was the newest number, is sent numbers
      without a break up to the newest, `last`: from just after its position, or from the first
      retained number with the gap announced first. */
  ghost predicate Continues(sent: seq<Event>, after: nat, joined: nat, last: nat) {
    && RunsTo(sent, last)
    && (Seqs(sent) != [] ==>
          Seqs(sent)[0] == Min(after,
                               joined) + 1 || (sent[0] == OutputGap(after, Seqs(sent)[0]) && after + 1 < Seqs(sent)[0]))
    && (Seqs(sent) == [] ==> last == joined <= after)
  }

  lemma RestRunsOn(s: seq<nat>, after: nat)
    requires Consecutive(s)
    ensures var rest := NumbersAbove(s, after);
            && Consecutive(rest)
            && (rest == [] <==> s == [] || s[|s| - 1] <= after)
            && (rest != [] ==> rest[0] == Max(after + 1, s[0]) && rest[|rest| - 1] == s[|s| - 1])
  {
    AboveIsRest(s, after);
    if s != [] {
      assert s[|s| - 1] == s[0] + |s| - 1;
      if s[0] <= after && after - s[0] + 1 < |s| {
        var d := after - s[0] + 1;
        assert forall i :: 0 <= i < |s| - d ==> s[d..][i] == s[d + i];
      }
    }
  }

  lemma ReplayContinues(events: seq<Event>, last: nat, after: nat)
    requires RunsTo(events, last) && (last > 0 ==> Seqs(events) != [])
    ensures Continues(Replayed(events, after), after, last, last)
  {
    hide Consecutive, NumbersAbove, Missing, Seqs;
    var missing, s := Missing(events, after), Seqs(events);
    SeqsOfMissing(events, after);
    RestRunsOn(s, after);
    if s != [] && after + 1 < s[0] {
      var gap := OutputGap(after, s[0]);
      SeqsOne(gap);
      SeqsConcat([gap], missing);
      assert Replayed(events, after) == [gap] + missing;
      assert Seqs(Replayed(events, after)) == NumbersAbove(s, after);
    } else {
      assert Replayed(events, after) == missing;
    }
  }

  lemma LiveContinues(sent: seq<Event>, after: nat, joined: nat, last: nat, e: Event)
    requires Continues(sent, after, joined, last) && joined <= last && !e.OutputGap?
    requires SequenceOf(e) == Some(last + 1) || SequenceOf(e).None?
    ensures Continues(sent + [e], after, joined, if SequenceOf(e).None? then last else last + 1)
  {
    RunsOn(sent, last, e);
    SeqsConcat(sent, [e]);
    SeqsOne(e);
    assert Seqs(sent) + [] == Seqs(sent);
  }

  // ----- subscribers -----

  predicate Ended(sent: seq<Event>) {
    sent != [] && sent[|sent| - 1].Completed?
  }

  function Given(s: Subscriber, e: Event): Subscriber {
    if Ended(s.sent) then s else s.(sent := s.sent + [e])
  }

  /** Those whose queue takes the event get it; the others are let go. */
  function Delivered(subscribers: seq<Subscriber>, e: Event, takes: set<nat>): seq<Subscriber> {
    if subscribers == [] then []
    else (if subscribers[0].id in takes then [Given(subscribers[0], e)] else []) + Delivered(subscribers[1..], e, takes)
  }

  lemma {:induction false} DeliveredFrom(subscribers: seq<Subscriber>, e: Event, takes: set<nat>, t: Subscriber)
    requires t in Delivered(subscribers, e, takes)
    ensures exists s :: s in subscribers && t == Given(s, e)
  {
    if subscribers[0].id in takes && t == Given(subscribers[0], e) {
      assert subscribers[0] in subscribers;
    } else {
      DeliveredFrom(subscribers[1..], e, takes, t);
      var s :| s in subscribers[1..] && t == Given(s, e);
      assert s in subscribers;
    }
  }

  /** Every subscriber whose queue takes the event is still there afterwards and was given it,
      unless its stream had ended; nobody else is there. */
  lemma {:induction false} TakersAreGiven(subscribers: seq<Subscriber>, e: Event, takes: set<nat>, s: Subscriber)
    requires s in subscribers
    ensures var t := s.(sent := if s.sent != [] && s.sent[|s.sent| - 1].Completed? then s.sent else s.sent + [e]);
            s.id in takes ==> t in Delivered(subscribers, e, takes)
    ensures s.id !in takes ==> forall t :: t in Delivered(subscribers, e, takes) ==> t.id != s.id
  {
    if subscribers[0] != s {
      TakersAreGiven(subscribers[1..], e, takes, s);
    }
    forall t | t in Delivered(subscribers, e, takes) ensures t.id in takes {
      OnlyTakers(subscribers, e, takes, t);
    }
  }

  lemma {:induction false} OnlyTakers(subscribers: seq<Subscriber>, e: Event, takes: set<nat>, t: Subscriber)
    requires t in Delivered(subscribers, e, takes)
    ensures t.id in takes
  {
    if !(subscribers[0].id in takes && t == Given(subscribers[0], e)) {
      OnlyTakers(subscribers[1..], e, takes, t);
    }
  }

  lemma {:induction false} NobodyTakes(subscribers: seq<Subscriber>, e: Event)
    ensures Delivered(subscribers, e, {}) == []
  {
    if subscribers != [] {
      NobodyTakes(subscribers[1..], e);
    }
  }

  // ----- the worker -----

  predicate Active(stored: Stored) {
    stored.command.Some? && !stored.command.value.status.Done?
  }

  function Last(stored: Stored): nat {
    if stored.command.Some? then stored.command.value.sequence else 0
  }

  /** What any worker life may be started from: the highest identity ever accepted is stored
      before its command starts, and commands started in increasing order of identity. */
  ghost predicate Loadable(stored: Stored, starts: seq<nat>) {
    && StrictlyIncreasing(starts)
    && (forall i :: 0 <= i < |starts| ==> starts[i] <= stored.highWatermark)
    && (stored.command.None? ==> starts == [] && stored.highWatermark == 0)
    && (stored.command.Some? ==> stored.command.value.id == stored.highWatermark)
  }

  /** Progress of one command does not touch what the next life relies on. */
  lemma StillLoadable(a: Stored, b: Stored, starts: seq<nat>)
    requires Loadable(a, starts) && a.command.Some? && b.command.Some?
    requires b.highWatermark == a.highWatermark == b.command.value.id
    ensures Loadable(b, starts)
  {
  }

  /** Everything a live subscriber was sent continues its position without a break. */
  ghost predicate StreamContinues(s: Subscriber, stored: Stored) {
    exists joined: nat :: joined <= Last(stored) && Continues(s.sent, s.after, joined, Last(stored))
  }

  class RuntimeState {
    const cost: Event -> nat
    var stored: Stored
    var events: seq<Event>
    var outputBytes: nat
    var subscribers: seq<Subscriber>
    var disk: Disk
    /** The command accepted by a connection that has not spawned it yet. */
    var toStart: Option<nat>
    /** Every identity ever executed, over all worker lives, for an observer. */
    var starts: seq<nat>

    ghost predicate Valid()
      reads this
    {
      && outputBytes == Bytes(cost, events) && disk.spool == events
      && Loadable(disk.stored, starts)
      && disk.stored.highWatermark == stored.highWatermark
      && (disk.stored.command.Some? <==> stored.command.Some?)
      && (stored.command.Some? ==> stored.command.value.id == stored.highWatermark)
      && (toStart.Some? ==>
            && stored.command.Some? && toStart.value == stored.command.value.id && Active(stored)
            && forall i :: 0 <= i < |starts| ==> starts[i] < toStart.value)
    }

    /** Within one worker life: the spool is numbered without a break up to the command's
        counter, something of it is retained, and so are all live streams. */
    ghost predicate Flowing()
      reads this
    {
      && RunsTo(events, Last(stored)) && (Last(stored) > 0 ==> Seqs(events) != [])
      && Streaming(subscribers, stored)
      && (!Active(stored) ==> forall s :: s in subscribers ==> Ended(s.sent))
    }

    method EnforceOutputLimit(maximum: nat)
      requires outputBytes == Bytes(cost, events)
      modifies this`events, this`outputBytes
      ensures events == Fitting(cost, old(events), maximum) && outputBytes == Bytes(cost, events)
    {
      hide Fitting, Bytes;
      while outputBytes > maximum
        invariant outputBytes == Bytes(cost, events)
        invariant Fitting(cost, events, maximum) == Fitting(cost, old(events), maximum)
        decreases |events|
      {
        var index := Position(events, e => EventBytes(cost, e) > 0);
        if index == |events| {
          break;
        }
        assert index == 0 && events[..0] + events[1..] == events[1..];
        FittingStep(cost, events, maximum);
        outputBytes := outputBytes - EventBytes(cost, events[index]);
        events := events[..index] + events[index + 1..];
      }
      FittingStep(cost, events, maximum);
    }

    /** Writes an event to the spool, drops what no longer fits, and passes it on. */
    method Append(e: Event, takes: set<nat>)
      requires Valid()
      modifies this`events, this`outputBytes, this`disk, this`subscribers
      ensures Valid() && disk.stored == old(disk).stored && outputBytes <= MAX_OUTPUT_BYTES
      ensures events == Fitting(cost, old(events) + [e], MAX_OUTPUT_BYTES)
      ensures subscribers == Delivered(old(subscribers), e, takes)
    {
      hide Fitting, Bytes, Delivered, Loadable;
      BytesConcat(cost, events, [e]);
      BytesOne(cost, e);
      disk := disk.(spool := disk.spool + [e]);
      outputBytes := outputBytes + EventBytes(cost, e);
      events := events + [e];
      FittingStep(cost, events, MAX_OUTPUT_BYTES);
      EnforceOutputLimit(MAX_OUTPUT_BYTES);
      if Bytes(cost, disk.spool) > MAX_OUTPUT_BYTES {
        disk := disk.(spool := events);
      }
      subscribers := Delivered(subscribers, e, takes);
    }

    method NextSequence() returns (sequence: nat)
      modifies this`stored
      ensures stored.highWatermark == old(stored).highWatermark
      ensures if old(stored).command.None? then sequence == 1 && stored == old(stored)
              else sequence == Last(old(stored)) + 1
                   && stored.command == Some(old(stored).command.value.(sequence := sequence))
    {
      if stored.command.None? {
        return 1;
      }
      sequence := stored.command.value.sequence + 1;
      stored := stored.(command := Some(stored.command.value.(sequence := sequence)));
    }

    method Persist()
      modifies this`disk
      ensures disk == old(disk).(stored := stored)
    {
      disk := disk.(stored := stored);
    }

    /** One chunk of output. */
    method RecordOutput(stderr: bool, text: string, takes: set<nat>)
      requires Valid() && Active(stored)
      requires EventBytes(cost, Output(Last(stored) + 1, stderr, text)) <= MAX_OUTPUT_BYTES
      modifies this`events, this`outputBytes, this`disk, this`subscribers, this`stored
      ensures Valid() && Active(stored) && Last(stored) == Last(old(stored)) + 1 && disk.stored == old(disk).stored
      ensures events == Fitting(cost, old(events) + [Output(Last(stored), stderr, text)], MAX_OUTPUT_BYTES)
      ensures subscribers == Delivered(old(subscribers), Output(Last(stored), stderr, text), takes)
      ensures old(Flowing()) ==> Flowing()
    {
      hide Fitting, Bytes, Delivered, Loadable;
      ghost var before, held, readers := stored, events, subscribers;
      var sequence := NextSequence();
      var e := Output(sequence, stderr, text);
      Append(e, takes);
      if old(Flowing()) {
        FlowAppends(cost, held, Last(before), e);
        StreamsGrow(readers, before, stored, e, takes);
      }
    }

    method Finish(code: int, takes: set<nat>)
      requires Valid() && Active(stored) && toStart.None?
      requires EventBytes(cost, Completed(Last(stored) + 1, code)) <= MAX_OUTPUT_BYTES
      modifies this`events, this`outputBytes, this`disk, this`subscribers, this`stored
      ensures Valid() && stored == Ending(old(stored), code) && disk.stored == stored
      ensures && stored.highWatermark == old(stored).highWatermark && stored.command.Some?
              && stored.command.value
                 == old(stored).command.value.(status := Done(code), sequence := old(stored).command.value.sequence + 1)
      ensures events == Fitting(cost, old(events) + [Completed(Last(stored), code)], MAX_OUTPUT_BYTES)
      ensures subscribers == Delivered(old(subscribers), Completed(Last(stored), code), takes)
      ensures RunsTo(old(events), Last(old(stored))) && Streaming(old(subscribers), old(stored)) ==> Flowing()
    {
      hide Fitting, Bytes, Delivered, Loadable;
      ghost var before, held, readers := stored, events, subscribers;
      var sequence := NextSequence();
      stored := stored.(command := Some(stored.command.value.(status := Done(code))));
      Append(Completed(sequence, code), takes);
      StillLoadable(disk.stored, stored, starts);
      Persist();
      if RunsTo(held, Last(before)) && Streaming(readers, before) {
        FlowAppends(cost, held, Last(before), Completed(sequence, code));
        StreamsGrow(readers, before, stored, Completed(sequence, code), takes);
      }
    }

    /** Gives up on the active command: says why, then completes it. */
    method Abandon(message: string, code: int, takes: set<nat>)
      requires Valid() && Active(stored) && toStart.None?
      requires EventBytes(cost, Completed(Last(stored) + 1, code)) <= MAX_OUTPUT_BYTES
      modifies this`events, this`outputBytes, this`disk, this`subscribers, this`stored
      ensures Valid() && stored == Ending(old(stored), code) && disk.stored == stored
      ensures events == Fitting(cost, old(events) + [Error(message), Completed(Last(stored), code)], MAX_OUTPUT_BYTES)
      ensures subscribers == Delivered(Delivered(old(subscribers), Error(message), takes),
                                       Completed(Last(stored), code), takes)
      ensures old(Flowing()) ==> Flowing()
    {
      hide Fitting, Bytes, Delivered, Loadable, Streaming, RunsTo, Seqs;
      ghost var held, readers := events, subscribers;
      Append(Error(message), takes);
      if old(Flowing()) {
        FlowStays(cost, held, Last(stored), Error(message));
        StreamsGrow(readers, stored, stored, Error(message), takes);
      }
      FittingAppend(cost, held + [Error(message)], [Completed(Last(stored) + 1, code)], MAX_OUTPUT_BYTES);
      assert held + [Error(message)] + [Completed(Last(stored) + 1, code)]
             == held + [Error(message), Completed(Last(stored) + 1, code)];
      Finish(code, takes);
    }

    /** Serves a run request under the state lock: refuses it, joins it to the command it
        names, or accepts a new command. The replay and the subscription are one step. */
    method Serve(reader: nat, id: nat, text: string, cwd: string, after: nat) returns (served: Served)
      requires Valid()
      modifies this`stored, this`events, this`outputBytes, this`disk, this`subscribers, this`toStart
      ensures Valid()
      ensures match Verdict(old(stored), id, text, cwd)
              case Some(refusal) =>
                && served == Refused(refusal) && stored == old(stored) && events == old(events)
                && subscribers == old(subscribers) && toStart == old(toStart)
              case None =>
                && served == Stream(Replayed(events, after), Active(stored), Fresh(old(stored), id))
                && (if Fresh(old(stored), id)
                    then stored == Stored(Max(old(stored).highWatermark, id),
                                          Some(Command(id, text, cwd, Dispatching, 0)))
                         && events == [] && toStart == Some(id) && disk.stored == stored && !Active(old(stored))
                    else stored == old(stored) && events == old(events) && toStart == old(toStart))
                && subscribers == if Active(stored)
                                  then Joined(old(subscribers), Subscriber(reader, after, Replayed(events, after)))
                                  else old(subscribers)
      ensures old(stored).command.Some? ==>
                var existing := old(stored).command.value;
                && (served == Refused(IdentityReused) <==>
                      existing.id == id && (existing.text != text || existing.cwd != cwd))
                && (served == Refused(AlreadyRunning) <==> existing.id != id && !existing.status.Done?)
                && (served == Refused(IdentityRetired) <==>
                      existing.id != id && existing.status.Done? && id <= old(stored).highWatermark)
      ensures served.Refused? ==> old(stored).command.Some? && Same() && subscribers == old(subscribers)
      ensures && old(stored).command.Some? && old(stored).command.value.id == id
              && old(stored).command.value.text == text && old(stored).command.value.cwd == cwd
              ==>
                var live := !old(stored).command.value.status.Done?;
                && served == Stream(Replayed(old(events), after), live, false) && Same()
                && (if live
                    then Enrolled(old(subscribers), subscribers, Subscriber(reader, after, Replayed(events, after)))
                    else subscribers == old(subscribers))
      ensures !served.Refused? && (old(stored).command.Some? ==> old(stored).command.value.id != id) ==>
                && served == Stream([], true, true) && events == [] && disk == Disk(stored, [])
                && stored.command == Some(Command(id, text, cwd, Dispatching, 0)) && toStart == Some(id)
                && stored.highWatermark >= id
                && Enrolled(old(subscribers), subscribers, Subscriber(reader, after, []))
      ensures old(Flowing()) ==> Flowing()
      ensures && Verdict(old(stored), id, text, cwd).None? && Fresh(old(stored), id)
              && (forall s :: s in old(subscribers) ==> Ended(s.sent))
              ==> Flowing()
    {
      hide Fitting, RunsTo, Replayed, Seqs, Bytes, Streaming, Enrolled, Joined;
      if stored.command.Some? {
        var existing := stored.command.value;
        if existing.id == id && (existing.text != text || existing.cwd != cwd) {
          return Refused(IdentityReused);
        }
        if existing.id != id && !existing.status.Done? {
          return Refused(AlreadyRunning);
        }
        if existing.id != id && id <= stored.highWatermark {
          return Refused(IdentityRetired);
        }
      }
      var start := stored.command.None? || stored.command.value.id != id;
      if start {
        stored := Stored(Max(stored.highWatermark, id), Some(Command(id, text, cwd, Dispatching, 0)));
        events, outputBytes := [], 0;
        disk := disk.(spool := []);
        Persist();
        toStart := Some(id);
        NothingRuns(cost, after);
        if forall s :: s in subscribers ==> Ended(s.sent) {
          NobodyStreams(subscribers, stored);
          assert Flowing();
        }
      }
      var replay := Join(reader, after);
      served := Stream(replay, Active(stored), start);
    }

    /** Collects what the reader is missing and, while the command is active, subscribes it. */
    method Join(reader: nat, after: nat) returns (replay: seq<Event>)
      requires Valid()
      modifies this`subscribers
      ensures Valid() && replay == Replayed(events, after)
      ensures if stored.command.Some? && !stored.command.value.status.Done?
              then Enrolled(old(subscribers), subscribers, Subscriber(reader, after, replay))
              else subscribers == old(subscribers)
      ensures subscribers == if Active(stored)
                             then Joined(old(subscribers), Subscriber(reader, after, replay))
                             else old(subscribers)
      ensures old(Flowing()) ==> Flowing()
    {
      hide Fitting, Bytes, RunsTo, Seqs, Replayed, Streaming, Loadable, Last;
      replay := Replayed(events, after);
      if Active(stored) {
        if Flowing() {
          ReplayStreams(subscribers, stored, events, Subscriber(reader, after, replay));
        }
        if |subscribers| >= MAX_SUBSCRIBERS {
          subscribers := subscribers[1..];
        }
        subscribers := subscribers + [Subscriber(reader, after, replay)];
      }
    }

    /** The command, its output and the files are as they were. */
    twostate predicate Same()
      reads this
    {
      && stored == old(stored) && events == old(events) && outputBytes == old(outputBytes)
      && disk == old(disk) && toStart == old(toStart)
    }

    /** Spawns the accepted command. Its identity is on disk before it runs; when it cannot be
        spawned it completes at once. */
    method SpawnActive(spawned: bool, message: string, takes: set<nat>)
      requires Valid() && toStart.Some?
      requires EventBytes(cost, Completed(Last(stored) + 1, 126)) <= MAX_OUTPUT_BYTES
      modifies this`events, this`outputBytes, this`disk, this`subscribers, this`stored, this`toStart, this`starts
      ensures Valid() && toStart.None?
      ensures starts == if spawned then old(starts) + [old(toStart).value] else old(starts)
      ensures spawned ==> stored.command == Some(old(stored).command.value.(status := Running)) && disk.stored == stored
                          && events == old(events) && subscribers == old(subscribers)
      ensures !spawned ==> stored == Ending(old(stored), 126)
      ensures old(Flowing()) ==> Flowing()
    {
      hide Loadable, Continues, Fitting, Bytes, RunsTo, Seqs;
      var id := toStart.value;
      toStart := None;
      if !spawned {
        Abandon(message, 126, takes);
        return;
      }
      ghost var before := stored;
      stored := stored.(command := Some(stored.command.value.(status := Running)));
      StartIsLoadable(disk.stored, stored, starts, id);
      Persist();
      starts := starts + [id];
      if old(Flowing()) {
        SameStreams(subscribers, before, stored);
      }
    }

    /** A new worker life, from whatever the files hold. Streams go on where the last life left
        them exactly when the spool reaches the stored counter. */
    constructor Load(cost: Event -> nat, disk: Disk, starts: seq<nat>)
      requires Loadable(disk.stored, starts)
      ensures Flowing() <==> RunsTo(disk.spool, Last(disk.stored)) && (Last(disk.stored) > 0 ==> Seqs(disk.spool) != [])
      ensures Valid() && this.cost == cost && this.disk == disk && this.starts == starts
      ensures stored == disk.stored && events == disk.spool && subscribers == [] && toStart.None?
    {
      this.cost, this.disk, this.starts := cost, disk, starts;
      stored, events, outputBytes := disk.stored, disk.spool, Bytes(cost, disk.spool);
      subscribers, toStart := [], None;
    }

    /** A command the last life left unfinished is not run again; its outcome is unknown. Its
        completion is numbered after the stored counter, so a reader that rejoins is given it
        exactly when its position is at most that counter. */
    method RecoverIncompleteCommand()
      requires Valid() && toStart.None?
      requires EventBytes(cost, Completed(Last(stored) + 1, 125)) <= MAX_OUTPUT_BYTES
      modifies this`events, this`outputBytes, this`disk, this`subscribers, this`stored
      ensures Valid() && !Active(stored) && starts == old(starts) && toStart.None?
      ensures if !Active(old(stored))
              then stored == old(stored) && events == old(events) && subscribers == old(subscribers)
              else
                && stored == Ending(old(stored), 125) && disk.stored == stored && subscribers == []
                && events == Fitting(cost, old(events) + [Error(LostCommand()), Completed(Last(stored), 125)],
                                     MAX_OUTPUT_BYTES)
                && ReplayedUpTo(events, Completed(Last(stored), 125), Last(old(stored)))
      ensures old(Flowing()) ==> Flowing()
    {
      hide Fitting, Bytes, EventBytes, Streaming, RunsTo, Replayed, ReplayedUpTo, Delivered, Loadable, Seqs;
      if Active(stored) {
        LossIsReplayed(cost, events, subscribers, Last(stored));
        Abandon(LostCommand(), 125, {});
      }
    }
  }

  function LostCommand(): string {
    "worker restarted after dispatch; command was not re-executed and its outcome is unknown"
  }

  /** Nobody is listening when a lost command is completed, and its completion is kept for
      readers that rejoin. */
  lemma LossIsReplayed(cost: Event -> nat, events: seq<Event>, subscribers: seq<Subscriber>, last: nat)
    requires EventBytes(cost, Completed(last + 1, 125)) <= MAX_OUTPUT_BYTES
    ensures Delivered(Delivered(subscribers, Error(LostCommand()), {}), Completed(last + 1, 125), {}) == []
    ensures ReplayedUpTo(
              Fitting(cost, events + [Error(LostCommand()), Completed(last + 1, 125)], MAX_OUTPUT_BYTES),
              Completed(last + 1, 125), last)
  {
    hide Fitting, Bytes, EventBytes, ReplayedUpTo, Delivered;
    var held, end := events + [Error(LostCommand())], Completed(last + 1, 125);
    NobodyTakes(subscribers, Error(LostCommand()));
    NobodyTakes([], end);
    assert events + [Error(LostCommand()), end] == held + [end];
    LastIsKept(cost, held, end, MAX_OUTPUT_BYTES);
    ReplayedBelow(Fitting(cost, held + [end], MAX_OUTPUT_BYTES), end);
  }

  function Ending(stored: Stored, code: int): Stored
    requires stored.command.Some?
  {
    stored.(command := Some(stored.command.value.(status := Done(code), sequence := stored.command.value.sequence + 1)))
  }

  /** Why a run request is turned down, if it is. */
  function Verdict(stored: Stored, id: nat, text: string, cwd: string): Option<Refusal> {
    if stored.command.None? then None
    else
      var existing := stored.command.value;
      if existing.id == id then (if existing.text != text || existing.cwd != cwd then Some(IdentityReused) else None)
      else if !existing.status.Done? then Some(AlreadyRunning)
      else if id <= stored.highWatermark then Some(IdentityRetired)
      else None
  }

  predicate Fresh(stored: Stored, id: nat) {
    stored.command.None? || stored.command.value.id != id
  }

  function Joined(subscribers: seq<Subscriber>, s: Subscriber): seq<Subscriber> {
    (if |subscribers| >= MAX_SUBSCRIBERS then subscribers[1..] else subscribers) + [s]
  }

  /** The reader is the newest subscriber; the others are still there, but for the oldest when
      there were too many. */
  ghost predicate Enrolled(before: seq<Subscriber>, after: seq<Subscriber>, s: Subscriber) {
    && after != [] && after[|after| - 1] == s
    && |after| == (if |before| < MAX_SUBSCRIBERS then |before| + 1 else |before|)
    && after[..|after| - 1] == before[|before| + 1 - |after|..]
  }

  lemma NothingRuns(cost: Event -> nat, after: nat)
    ensures RunsTo([], 0) && Seqs([]) == [] && Replayed([], after) == [] && Bytes(cost, []) == 0
  {
  }

  ghost predicate Streaming(subscribers: seq<Subscriber>, stored: Stored) {
    forall s :: s in subscribers && !Ended(s.sent) ==> StreamContinues(s, stored)
  }

  lemma NobodyStreams(subscribers: seq<Subscriber>, stored: Stored)
    requires forall s :: s in subscribers ==> Ended(s.sent)
    ensures Streaming(subscribers, stored)
  {
  }

  /** A stream that starts with the replay has no break, and the others are not touched. */
  lemma ReplayStreams(subscribers: seq<Subscriber>, stored: Stored, events: seq<Event>, s: Subscriber)
    requires Streaming(subscribers, stored) && s.sent == Replayed(events, s.after)
    requires RunsTo(events, Last(stored)) && (Last(stored) > 0 ==> Seqs(events) != [])
    ensures Streaming(Joined(subscribers, s), stored)
  {
    hide Continues, RunsTo, Seqs, Replayed, Ended;
    ReplayContinues(events, Last(stored), s.after);
    assert StreamContinues(s, stored);
    forall t | t in Joined(subscribers, s) && !Ended(t.sent) ensures StreamContinues(t, stored) {
      assert t in subscribers || t == s;
    }
  }

  lemma SameStreams(subscribers: seq<Subscriber>, before: Stored, after: Stored)
    requires Streaming(subscribers, before) && Last(after) == Last(before)
    ensures Streaming(subscribers, after)
  {
    hide Continues;
    forall s | s in subscribers && !Ended(s.sent) ensures StreamContinues(s, after) {
      assert StreamContinues(s, before);
    }
  }

  lemma StartIsLoadable(a: Stored, b: Stored, starts: seq<nat>, id: nat)
    requires Loadable(a, starts) && b.highWatermark == a.highWatermark
    requires b.command.Some? && b.command.value.id == id == b.highWatermark
    requires forall i :: 0 <= i < |starts| ==> starts[i] < id
    ensures Loadable(b, starts + [id])
  {
  }

  /** A numbered event that fits keeps the spool contiguous and something of it retained. */
  lemma FlowAppends(cost: Event -> nat, events: seq<Event>, last: nat, e: Event)
    requires RunsTo(events, last) && SequenceOf(e) == Some(last + 1) && EventBytes(cost, e) <= MAX_OUTPUT_BYTES
    ensures RunsTo(Fitting(cost, events + [e], MAX_OUTPUT_BYTES), last + 1)
    ensures Seqs(Fitting(cost, events + [e], MAX_OUTPUT_BYTES)) != []
  {
    hide Consecutive, Fitting;
    RunsOn(events, last, e);
    var kept := Fitting(cost, events + [e], MAX_OUTPUT_BYTES);
    NewestIsKept(cost, events, e, MAX_OUTPUT_BYTES);
    RunsToSuffix(events + [e], last + 1, |events| + 1 - |kept|);
    assert kept == kept[..|kept| - 1] + [e];
    SeqsConcat(kept[..|kept| - 1], [e]);
    SeqsOne(e);
  }

  lemma FlowStays(cost: Event -> nat, events: seq<Event>, last: nat, e: Event)
    requires RunsTo(events, last) && SequenceOf(e).None?
    ensures RunsTo(Fitting(cost, events + [e], MAX_OUTPUT_BYTES), last)
  {
    hide Consecutive, Fitting;
    RunsOn(events, last, e);
    var kept := Fitting(cost, events + [e], MAX_OUTPUT_BYTES);
    RunsToSuffix(events + [e], last, |events| + 1 - |kept|);
  }

  lemma StreamsGrow(subscribers: seq<Subscriber>, before: Stored, after: Stored, e: Event, takes: set<nat>)
    requires Streaming(subscribers, before) && !e.OutputGap?
    requires Last(after) == if SequenceOf(e).Some? then Last(before) + 1 else Last(before)
    requires SequenceOf(e).Some? ==> SequenceOf(e).value == Last(before) + 1
    ensures Streaming(Delivered(subscribers, e, takes), after)
    ensures e.Completed? ==> forall s :: s in Delivered(subscribers, e, takes) ==> Ended(s.sent)
  {
    hide Continues;
    forall t | t in Delivered(subscribers, e, takes)
      ensures (!Ended(t.sent) ==> StreamContinues(t, after)) && (e.Completed? ==> Ended(t.sent))
    {
      DeliveredFrom(subscribers, e, takes, t);
      var s :| s in subscribers && t == Given(s, e);
      if !Ended(s.sent) {
        var joined: nat :| joined <= Last(before) && Continues(s.sent, s.after, joined, Last(before));
        LiveContinues(s.sent, s.after, joined, Last(before), e);
        assert Continues(t.sent, t.after, joined, Last(after));
      }
    }
  }

  /** However often the worker dies and wherever, the next life starts from its files, which
      `RuntimeState.Valid` keeps loadable, and nothing is started a second time. It has no
      subscribers, so the streams of every command it accepts are without a break; those of the
      last command are when its counter was stored. */
  method Restart(cost: Event -> nat, disk: Disk, starts: seq<nat>) returns (worker: RuntimeState)
    requires Loadable(disk.stored, starts)
    requires EventBytes(cost, Completed(Last(disk.stored) + 1, 125)) <= MAX_OUTPUT_BYTES
    ensures fresh(worker) && worker.Valid() && worker.cost == cost && worker.starts == starts
    ensures StrictlyIncreasing(starts)
    ensures !Active(worker.stored) && worker.toStart.None? && worker.subscribers == []
    ensures worker.stored == if Active(disk.stored) then Ending(disk.stored, 125) else disk.stored
    ensures && RunsTo(disk.spool, Last(disk.stored))
            && (Last(disk.stored) > 0 ==> Seqs(disk.spool) != [])
            ==> worker.Flowing()
  {
    hide Fitting, Bytes, RunsTo, Seqs, ReplayedUpTo, Streaming, Delivered, RuntimeState.Flowing, Ending,
         EventBytes, StrictlyIncreasing, Last;
    worker := new RuntimeState.Load(cost, disk, starts);
    worker.RecoverIncompleteCommand();
  }

  /** The first command a worker accepts after a restart, whatever the last life left behind:
      its streams have no break. */
  method ServeAfterRestart(cost: Event -> nat, disk: Disk, starts: seq<nat>, reader: nat, id: nat, text: string,
                           cwd: string)
    returns (worker: RuntimeState, served: Served)
    requires Loadable(disk.stored, starts) && id > disk.stored.highWatermark
    requires EventBytes(cost, Completed(Last(disk.stored) + 1, 125)) <= MAX_OUTPUT_BYTES
    ensures fresh(worker) && worker.Valid() && worker.Flowing() && served == Stream([], true, true)
    ensures worker.toStart == Some(id) && worker.starts == starts && worker.subscribers == [Subscriber(reader, 0, [])]
  {
    worker := Restart(cost, disk, starts);
    served := worker.Serve(reader, id, text, cwd, 0);
  }

  /** A worker that dies between emptying the spool and storing the new command restarts with
      the old record, and one that dies right after storing it restarts with the new one. */
  lemma DispatchMayBeCutShort(before: Disk, starts: seq<nat>, id: nat, text: string, cwd: string)
    requires Loadable(before.stored, starts) && !Active(before.stored) && Fresh(before.stored, id)
    requires before.stored.command.Some? ==> id > before.stored.highWatermark
    ensures Loadable(Stored(Max(before.stored.highWatermark, id), Some(Command(id, text, cwd, Dispatching, 0))), starts)
    ensures Loadable(Stored(Max(before.stored.highWatermark, id), Some(Command(id, text, cwd, Running, 0))),
                     starts + [id])
  {
  }
}
