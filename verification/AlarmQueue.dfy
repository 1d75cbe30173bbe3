/** The timer queue of charge_only_mode/alarm.c: a linked list of alarms in time order. */
module AlarmQueue {

  // ---- time ----

  datatype TimeVal = TimeVal(sec: nat, usec: nat)

  predicate Normal(t: TimeVal) { t.usec < 1000000 }

  function Micros(t: TimeVal): nat { 1000000 * t.sec + t.usec }

  /** t is later than u, as the program compares seconds and then microseconds. */
  predicate Later(t: TimeVal, u: TimeVal) { t.sec > u.sec || (t.sec == u.sec && t.usec > u.usec) }

  lemma LaterIsMicros(t: TimeVal, u: TimeVal)
    requires Normal(t) && Normal(u)
    ensures Later(t, u) <==> Micros(t) > Micros(u)
  {
  }

  /** The time ms milliseconds after t. */
  function Plus(t: TimeVal, ms: nat): TimeVal {
    var usec := t.usec + ms * 1000;
    if usec >= 1000000 then TimeVal(t.sec + usec / 1000000, usec % 1000000) else TimeVal(t.sec, usec)
  }

  lemma PlusIsMicros(t: TimeVal, ms: nat)
    ensures Micros(Plus(t, ms)) == Micros(t) + 1000 * ms && Normal(Plus(t, ms))
  {
  }

  /** C division: towards zero. */
  function Quotient(x: int, y: nat): int
    requires y > 0
  {
    if x >= 0 then x / y else -(-x / y)
  }

  /** alarm_get_time_until_next for a first alarm at t. */
  function MillisUntil(t: TimeVal, now: TimeVal): int { (t.sec - now.sec) * 1000 + Quotient(t.usec - now.usec, 1000) }

  /** A due alarm is never waited for; one taken for due is due within a millisecond, and one
      that is waited for is overslept by less than a millisecond. */
  lemma MillisUntilIsClose(t: TimeVal, now: TimeVal)
    requires Normal(t) && Normal(now)
    ensures !Later(t, now) ==> MillisUntil(t, now) < 1
    ensures MillisUntil(t, now) < 1 ==> Micros(t) < Micros(now) + 1000
    ensures MillisUntil(t, now) >= 1 ==> Micros(now) + 1000 * MillisUntil(t, now) < Micros(t) + 1000
  {
  }

  // ---- queues as sequences ----

  /** An alarm, numbered in the order of setting. */
  datatype Alarm<C> = Alarm(time: TimeVal, f: C, serial: nat)

  /** In time order, and first set first among equal times. */
  predicate Before<C>(a: Alarm<C>, b: Alarm<C>) {
    Later(b.time, a.time) || (a.time == b.time && a.serial < b.serial)
  }

  predicate Ordered<C>(q: seq<Alarm<C>>) {
    forall i, j :: 0 <= i < j < |q| ==> Before(q[i], q[j])
  }

  /** All alarms of q were set before number n. */
  predicate SetBefore<C>(q: seq<Alarm<C>>, n: nat) { forall i :: 0 <= i < |q| ==> q[i].serial < n }

  /** Behind every alarm that is not later. */
  function Inserted<C>(q: seq<Alarm<C>>, a: Alarm<C>): seq<Alarm<C>> {
    if q == [] || Later(q[0].time, a.time) then [a] + q else [q[0]] + Inserted(q[1..], a)
  }

  function Without<C(==)>(q: seq<Alarm<C>>, f: C): seq<Alarm<C>> {
    if q == [] then [] else (if q[0].f == f then [] else [q[0]]) + Without(q[1..], f)
  }

  /** The alarms that are due, which in a queue stand in front. */
  function Due<C>(q: seq<Alarm<C>>, now: TimeVal): seq<Alarm<C>> {
    if q == [] || Later(q[0].time, now) then [] else [q[0]] + Due(q[1..], now)
  }

  function Count<C(==)>(q: seq<Alarm<C>>, f: C): nat {
    if q == [] then 0 else (if q[0].f == f then 1 else 0) + Count(q[1..], f)
  }

  lemma {:induction false} InsertedAt<C>(q: seq<Alarm<C>>, a: Alarm<C>, i: nat)
    requires i <= |q| && (forall j :: 0 <= j < i ==> !Later(q[j].time, a.time)) && (i < |q| ==> Later(q[i].time, a.time))
    ensures Inserted(q, a) == q[..i] + [a] + q[i..]
  {
    if i > 0 {
      InsertedAt(q[1..], a, i - 1);
      assert q == [q[0]] + q[1..];
    }
  }

  predicate AllAfter<C>(q: seq<Alarm<C>>, x: Alarm<C>) { forall i :: 0 <= i < |q| ==> Before(x, q[i]) }

  lemma {:induction false} InsertedAfter<C>(q: seq<Alarm<C>>, a: Alarm<C>, x: Alarm<C>)
    requires AllAfter(q, x) && Before(x, a)
    ensures AllAfter(Inserted(q, a), x)
  {
    if q != [] && !Later(q[0].time, a.time) { InsertedAfter(q[1..], a, x); }
  }

  /** An alarm set last goes behind those of its own time. */
  lemma {:induction false} InsertedOrdered<C>(q: seq<Alarm<C>>, a: Alarm<C>)
    requires Ordered(q) && SetBefore(q, a.serial)
    ensures Ordered(Inserted(q, a)) && SetBefore(Inserted(q, a), a.serial + 1)
  {
    if q != [] {
      if Later(q[0].time, a.time) {
        LaterAll(q, a);
      } else {
        InsertedOrdered(q[1..], a);
        InsertedAfter(q[1..], a, q[0]);
      }
    }
  }

  lemma LaterAll<C>(q: seq<Alarm<C>>, a: Alarm<C>)
    requires Ordered(q) && q != [] && Later(q[0].time, a.time)
    ensures AllAfter(q, a)
  {
    forall i | 0 <= i < |q| ensures Before(a, q[i]) { assert i > 0 ==> Before(q[0], q[i]); }
  }

  lemma {:induction false} WithoutAfter<C>(q: seq<Alarm<C>>, f: C, x: Alarm<C>)
    requires AllAfter(q, x)
    ensures AllAfter(Without(q, f), x)
  {
    if q != [] { WithoutAfter(q[1..], f, x); }
  }

  lemma {:induction false} WithoutOrdered<C>(q: seq<Alarm<C>>, f: C, n: nat)
    requires Ordered(q) && SetBefore(q, n)
    ensures Ordered(Without(q, f)) && SetBefore(Without(q, f), n) && |Without(q, f)| == |q| - Count(q, f)
  {
    if q != [] {
      WithoutOrdered(q[1..], f, n);
      WithoutAfter(q[1..], f, q[0]);
    }
  }

  lemma {:induction false} CountInserted<C>(q: seq<Alarm<C>>, a: Alarm<C>, f: C)
    ensures Count(Inserted(q, a), f) == Count(q, f) + (if a.f == f then 1 else 0)
  {
    if q != [] && !Later(q[0].time, a.time) { CountInserted(q[1..], a, f); }
  }

  lemma {:induction false} CountWithout<C>(q: seq<Alarm<C>>, f: C, g: C)
    ensures Count(Without(q, f), g) == if f == g then 0 else Count(q, g)
  {
    if q != [] {
      CountWithout(q[1..], f, g);
      var r := Without(q[1..], f);
      assert Without(q, f) == if q[0].f == f then r else [q[0]] + r;
      assert ([q[0]] + r)[1..] == r;
    }
  }

  /** An alarm set for later than now is not due. */
  lemma {:induction false} DueInserted<C>(q: seq<Alarm<C>>, a: Alarm<C>, now: TimeVal)
    requires Later(a.time, now)
    ensures Due(Inserted(q, a), now) == Due(q, now)
  {
    if q != [] && !Later(q[0].time, a.time) {
      DueInserted(q[1..], a, now);
      assert Inserted(q, a)[1..] == Inserted(q[1..], a);
    }
  }

  predicate NoneDue<C>(q: seq<Alarm<C>>, now: TimeVal) { forall i :: 0 <= i < |q| ==> Later(q[i].time, now) }

  lemma NothingDue<C>(q: seq<Alarm<C>>, now: TimeVal)
    requires Ordered(q)
    ensures Due(q, now) == [] <==> NoneDue(q, now)
  {
    if q != [] && Later(q[0].time, now) {
      forall i | 0 <= i < |q| ensures Later(q[i].time, now) { assert i > 0 ==> Before(q[0], q[i]); }
    }
  }

  lemma {:induction false} NoneDueWithout<C>(q: seq<Alarm<C>>, f: C, now: TimeVal)
    requires NoneDue(q, now)
    ensures NoneDue(Without(q, f), now)
  {
    if q != [] { NoneDueWithout(q[1..], f, now); }
  }

  /** Cancelling removes from the due alarms just those it removes from the queue. */
  lemma {:induction false} DueWithout<C>(q: seq<Alarm<C>>, f: C, now: TimeVal)
    requires Ordered(q)
    ensures Due(Without(q, f), now) == Without(Due(q, now), f)
  {
    if q != [] {
      DueWithout(q[1..], f, now);
      if Later(q[0].time, now) {
        NothingDue(q, now);
        NoneDueWithout(q, f, now);
      } else if q[0].f != f {
        assert Without(q, f)[1..] == Without(q[1..], f);
        assert Due(q, now)[1..] == Due(q[1..], now);
      } else {
        assert Without(q, f) == Without(q[1..], f);
        assert Due(q, now)[1..] == Due(q[1..], now);
      }
    }
  }

  lemma {:induction false} WithoutLast<C>(q: seq<Alarm<C>>, a: Alarm<C>, f: C)
    ensures Without(q + [a], f) == Without(q, f) + (if a.f == f then [] else [a])
  {
    if q == [] {
      assert q + [a] == [a];
    } else {
      WithoutLast(q[1..], a, f);
      assert (q + [a])[1..] == q[1..] + [a];
    }
  }

  lemma {:induction false} CountTotal<C>(q: seq<Alarm<C>>, f: C)
    ensures |Without(q, f)| == |q| - Count(q, f) && Count(q, f) <= |q|
  {
    if q != [] { CountTotal(q[1..], f); }
  }

  /** How the list and the place in it change as alarm_cancel looks at one alarm. */
  ghost predicate SiftStep<C>(list: seq<Alarm<C>>, i: nat, list': seq<Alarm<C>>, i': nat, f: C) {
    && i < |list|
    && list' == (if list[i].f == f then list[..i] + list[i + 1..] else list)
    && i' == (if list[i].f == f then i else i + 1)
  }

  /** The lists and places of a whole cancellation, one for each alarm looked at. */
  ghost predicate Sifts<C>(lists: seq<seq<Alarm<C>>>, places: seq<nat>, f: C) {
    && |lists| == |places| > 0 && places[0] == 0 && places[|places| - 1] == |lists[|lists| - 1]|
    && forall k: nat :: k < |lists| - 1 ==> StepAt(lists, places, k, f)
  }

  ghost predicate StepAt<C>(lists: seq<seq<Alarm<C>>>, places: seq<nat>, k: nat, f: C) {
    k + 1 < |lists| == |places| && SiftStep(lists[k], places[k], lists[k + 1], places[k + 1], f)
  }

  function SiftList<C(==)>(v: seq<Alarm<C>>, f: C, k: nat): seq<Alarm<C>>
    requires k <= |v|
  {
    Without(v[..k], f) + v[k..]
  }

  lemma SiftOne<C>(v: seq<Alarm<C>>, f: C, k: nat)
    requires k < |v|
    ensures SiftStep(SiftList(v, f, k), |Without(v[..k], f)|, SiftList(v, f, k + 1), |Without(v[..k + 1], f)|, f)
  {
    var w := Without(v[..k], f);
    assert v[..k + 1] == v[..k] + [v[k]];
    WithoutLast(v[..k], v[k], f);
    assert v[k..] == [v[k]] + v[k + 1..];
    assert SiftList(v, f, k)[|w|] == v[k];
  }

  /** The cancellation of f in v. */
  lemma SiftsOf<C>(v: seq<Alarm<C>>, f: C) returns (lists: seq<seq<Alarm<C>>>, places: seq<nat>)
    ensures Sifts(lists, places, f) && |lists| == |v| + 1 && lists[0] == v && lists[|v|] == Without(v, f)
  {
    lists := seq(|v| + 1, k requires 0 <= k <= |v| => SiftList(v, f, k));
    places := seq(|v| + 1, k requires 0 <= k <= |v| => |Without(v[..k], f)|);
    assert v[..|v|] == v && lists[0] == v && lists[|v|] == Without(v, f);
    forall k: nat | k < |v| ensures StepAt(lists, places, k, f) {
      SiftOne(v, f, k);
    }
  }
}
