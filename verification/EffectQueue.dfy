/** The queue of effects a session is waiting for, and its stored form. */
module EffectQueue {
  import opened Protocol

  datatype Delivery = AtLeastOnce | AtMostOnce

  /** An effect waiting to complete; `timeout` is in nanoseconds. */
  datatype Pending<F> = Pending(id: EffectId, delivery: Delivery, attempts: nat, effect: F, timeout: Option<nat>)

  /** An effect as journals and checkpoints hold it; the deadline is in milliseconds. */
  datatype Stored<F> = Stored(id: EffectId, delivery: Delivery, attempts: nat, effect: F, timeoutMs: Option<nat>)

  // ----- effects on disk -----

  const NANOS_PER_MILLI := 1_000_000
  const MAX_MILLIS := 0xFFFF_FFFF_FFFF_FFFF

  function Encode<F>(p: Pending<F>): Stored<F> {
    Stored(p.id, p.delivery, p.attempts, p.effect,
           if p.timeout.None? then None else Some(Min(p.timeout.value / NANOS_PER_MILLI, MAX_MILLIS)))
  }

  function Decode<F>(s: Stored<F>): Pending<F> {
    Pending(s.id, s.delivery, s.attempts, s.effect,
            if s.timeoutMs.None? then None else Some(s.timeoutMs.value * NANOS_PER_MILLI))
  }

  function EncodeAll<F>(ps: seq<Pending<F>>): (r: seq<Stored<F>>)
    ensures |r| == |ps| && forall i :: 0 <= i < |r| ==> r[i] == Encode(ps[i])
  {
    seq(|ps|, i requires 0 <= i < |ps| => Encode(ps[i]))
  }

  function DecodeAll<F>(ss: seq<Stored<F>>): (r: seq<Pending<F>>)
    ensures |r| == |ss| && forall i :: 0 <= i < |r| ==> r[i] == Decode(ss[i])
  {
    seq(|ss|, i requires 0 <= i < |ss| => Decode(ss[i]))
  }

  /** The queue as a checkpoint or a journal gives it back. */
  function Canon<F>(ps: seq<Pending<F>>): (r: seq<Pending<F>>)
    ensures |r| == |ps| && forall i :: 0 <= i < |r| ==> r[i] == Decode(Encode(ps[i]))
  {
    DecodeAll(EncodeAll(ps))
  }

  // ----- queue operations -----

  /** Drops every entry with the completed identity. */
  function Retain<F>(ps: seq<Pending<F>>, completed: EffectId): seq<Pending<F>> {
    if ps == [] then []
    else (if ps[0].id == completed then [] else [ps[0]]) + Retain(ps[1..], completed)
  }

  function RetainIf<F>(ps: seq<Pending<F>>, completed: Option<EffectId>): seq<Pending<F>> {
    if completed.None? then ps else Retain(ps, completed.value)
  }

  /** Raises the attempt count of the first entry with this identity. */
  function Mark<F>(ps: seq<Pending<F>>, effect: EffectId, attempt: nat): seq<Pending<F>> {
    if ps == [] then []
    else if ps[0].id == effect then [ps[0].(attempts := Max(ps[0].attempts, attempt))] + ps[1..]
    else [ps[0]] + Mark(ps[1..], effect, attempt)
  }

  // ----- what storing a queue keeps -----

  lemma CanonConcat<F>(a: seq<Pending<F>>, b: seq<Pending<F>>)
    ensures Canon(a + b) == Canon(a) + Canon(b)
  {
  }

  lemma CanonIdempotent<F>(ps: seq<Pending<F>>)
    ensures Canon(Canon(ps)) == Canon(ps)
  {
    forall i | 0 <= i < |ps| ensures Decode(Encode(Decode(Encode(ps[i])))) == Decode(Encode(ps[i])) {
      StoredFormIsStable(ps[i]);
    }
  }

  lemma StoredFormIsStable<F>(p: Pending<F>)
    ensures Encode(Decode(Encode(p))) == Encode(p)
  {
  }

  /** A stored effect comes back as it was, but for the part of a millisecond of its deadline. */
  lemma DeadlineIsRoundedDown<F>(p: Pending<F>)
    ensures var q := Decode(Encode(p));
            && q.(timeout := p.timeout) == p && (q.timeout.None? <==> p.timeout.None?)
            && (p.timeout.Some? && p.timeout.value / NANOS_PER_MILLI <= MAX_MILLIS ==>
                  q.timeout.value <= p.timeout.value < q.timeout.value + NANOS_PER_MILLI)
            && (p.timeout.Some? && p.timeout.value / NANOS_PER_MILLI > MAX_MILLIS ==>
                  q.timeout.value == MAX_MILLIS * NANOS_PER_MILLI)
  {
  }

  /** A recovered queue is exactly the queue that was running if and only if every deadline
      is a whole number of milliseconds that fits the stored field. */
  lemma CanonExact<F>(ps: seq<Pending<F>>)
    ensures Canon(ps) == ps <==>
            forall i :: 0 <= i < |ps| && ps[i].timeout.Some? ==>
              ps[i].timeout.value % NANOS_PER_MILLI == 0 && ps[i].timeout.value / NANOS_PER_MILLI <= MAX_MILLIS
  {
    if Canon(ps) == ps {
      forall i | 0 <= i < |ps| && ps[i].timeout.Some?
        ensures ps[i].timeout.value % NANOS_PER_MILLI == 0 && ps[i].timeout.value / NANOS_PER_MILLI <= MAX_MILLIS
      {
        assert Canon(ps)[i] == ps[i];
        WholeMillis(ps[i].timeout.value);
      }
    } else {
      if forall i :: 0 <= i < |ps| && ps[i].timeout.Some? ==>
          ps[i].timeout.value % NANOS_PER_MILLI == 0 && ps[i].timeout.value / NANOS_PER_MILLI <= MAX_MILLIS
      {
        forall i | 0 <= i < |ps| ensures Canon(ps)[i] == ps[i] {
          if ps[i].timeout.Some? {
            WholeMillis(ps[i].timeout.value);
          }
        }
      }
    }
  }

  lemma WholeMillis(t: nat)
    ensures Min(t / NANOS_PER_MILLI, MAX_MILLIS) * NANOS_PER_MILLI == t <==>
            t % NANOS_PER_MILLI == 0 && t / NANOS_PER_MILLI <= MAX_MILLIS
  {
  }

  lemma {:induction false} CanonRetain<F>(ps: seq<Pending<F>>, completed: EffectId)
    ensures Canon(Retain(ps, completed)) == Retain(Canon(ps), completed)
  {
    if ps != [] {
      assert Canon(ps)[1..] == Canon(ps[1..]);
      CanonRetain(ps[1..], completed);
      CanonConcat(if ps[0].id == completed then [] else [ps[0]], Retain(ps[1..], completed));
    }
  }

  lemma MarkFront<F>(ps: seq<Pending<F>>)
    requires ps != []
    ensures Mark(Canon(ps), ps[0].id, ps[0].attempts + 1) == Canon([ps[0].(attempts := ps[0].attempts + 1)] + ps[1..])
  {
    CanonConcat([ps[0].(attempts := ps[0].attempts + 1)], ps[1..]);
    assert Canon(ps)[1..] == Canon(ps[1..]);
  }

  lemma MarkCons<F>(p: Pending<F>, rest: seq<Pending<F>>, effect: EffectId, attempt: nat)
    ensures Mark([p] + rest, effect, attempt)
            == if p.id == effect then [p.(attempts := Max(p.attempts, attempt))] + rest
               else [p] + Mark(rest, effect, attempt)
  {
    assert ([p] + rest)[1..] == rest;
  }

  lemma {:induction false} RetainConcat<F>(a: seq<Pending<F>>, b: seq<Pending<F>>, id: EffectId)
    ensures Retain(a + b, id) == Retain(a, id) + Retain(b, id)
  {
    if a == [] {
      assert a + b == b;
    } else {
      assert (a + b)[1..] == a[1..] + b;
      RetainConcat(a[1..], b, id);
    }
  }
}
