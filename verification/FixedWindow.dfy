/** Fixed-window counters in Redis: the HTTP rate limit and the Telegram throttle share this code shape.
    Time is in milliseconds; `Seconds` is `int(time.time())`. */
module FixedWindow {
  /** A Redis key is the caller's key with the window number appended. */
  datatype Slot<K> = Slot(key: K, window: nat)

  /** The value of a Redis key and the moment Redis drops it. */
  datatype Counter = Counter(count: nat, expiresAt: nat)

  type Store<!K(==)> = map<Slot<K>, Counter>

  function Seconds(now: nat): nat {
    now / 1000
  }

  function WindowOf(now: nat, width: nat): nat
    requires width > 0
  {
    Seconds(now) / width
  }

  /** Redis forgets a key once its deadline is reached. */
  function Unexpired<K(==)>(store: Store<K>, now: nat): Store<K> {
    map s | s in store && now < store[s].expiresAt :: store[s]
  }

  /** INCR, then EXPIRE when the key is new. */
  function Increment<K(==)>(store: Store<K>, slot: Slot<K>, ttl: nat, now: nat): Store<K> {
    var live := Unexpired(store, now);
    if slot in live then live[slot := Counter(live[slot].count + 1, live[slot].expiresAt)]
    else live[slot := Counter(1, now + ttl * 1000)]
  }

  function RetryAfter(now: nat, width: nat): nat
    requires width > 0
  {
    width - Seconds(now) % width
  }

  class Redis<K(==)> {
    var counters: Store<K>

    constructor ()
      ensures counters == map[]
    {
      counters := map[];
    }

    /** INCR and EXPIRE on the slot of the current window, then the comparison with the limit. */
    method TryConsumeWindow(key: K, limit: nat, width: nat, ttl: nat, now: nat)
      returns (allowed: bool, retryAfter: nat)
      requires width > 0
      modifies this
      ensures counters == Increment(old(counters), Slot(key, WindowOf(now, width)), ttl, now)
      ensures allowed <==> counters[Slot(key, WindowOf(now, width))].count <= limit
      ensures retryAfter == RetryAfter(now, width)
    {
      var seconds := now / 1000;
      var slot := Slot(key, seconds / width);
      counters := Unexpired(counters, now);
      var count := 1;
      if slot in counters {
        count := counters[slot].count + 1;
        counters := counters[slot := Counter(count, counters[slot].expiresAt)];
      } else {
        counters := counters[slot := Counter(1, now + ttl * 1000)];
      }
      retryAfter := width - seconds % width;
      allowed := count <= limit;
    }
  }

  // ----- Whole histories of calls -----

  datatype Call<K> = Call(key: K, at: nat)

  /** Limit, window width and time-to-live, the last two in seconds. */
  datatype Policy = Policy(limit: nat, width: nat, ttl: nat)

  /** The time-to-live covers at least one window: 60 of 60 for HTTP, 2 of 1 for Telegram. */
  ghost predicate Sound(p: Policy) {
    0 < p.width <= p.ttl
  }

  ghost predicate Chronological<K>(calls: seq<Call<K>>) {
    forall i, j | 0 <= i < j < |calls| :: calls[i].at <= calls[j].at
  }

  ghost function SlotOf<K>(c: Call<K>, p: Policy): Slot<K>
    requires p.width > 0
  {
    Slot(c.key, WindowOf(c.at, p.width))
  }

  /** The store after a history of calls. */
  ghost function After<K>(calls: seq<Call<K>>, p: Policy): Store<K>
    requires p.width > 0
  {
    if calls == [] then map[]
    else
      var last := calls[|calls| - 1];
      Increment(After(calls[..|calls| - 1], p), SlotOf(last, p), p.ttl, last.at)
  }

  /** The verdict given to the last call of a history. */
  ghost predicate LastAdmitted<K>(calls: seq<Call<K>>, p: Policy)
    requires calls != [] && p.width > 0
  {
    After(calls, p)[SlotOf(calls[|calls| - 1], p)].count <= p.limit
  }

  /** How many calls of a history fall in one slot. */
  ghost function Attempts<K>(calls: seq<Call<K>>, slot: Slot<K>, p: Policy): nat
    requires p.width > 0
  {
    if calls == [] then 0
    else Attempts(calls[..|calls| - 1], slot, p) + (if SlotOf(calls[|calls| - 1], p) == slot then 1 else 0)
  }

  /** How many admitted calls of a key fall in the windows lo..hi. */
  ghost function AdmittedIn<K>(calls: seq<Call<K>>, key: K, lo: nat, hi: nat, p: Policy): nat
    requires p.width > 0
  {
    if calls == [] then 0
    else
      var slot := SlotOf(calls[|calls| - 1], p);
      AdmittedIn(calls[..|calls| - 1], key, lo, hi, p)
      + (if slot.key == key && lo <= slot.window <= hi && LastAdmitted(calls, p) then 1 else 0)
  }

  /** How many admitted calls of a key were made from `start` on and before `end`. */
  ghost function AdmittedBetween<K>(calls: seq<Call<K>>, key: K, start: nat, end: nat, p: Policy): nat
    requires p.width > 0
  {
    if calls == [] then 0
    else
      var last := calls[|calls| - 1];
      AdmittedBetween(calls[..|calls| - 1], key, start, end, p)
      + (if last.key == key && start <= last.at < end && LastAdmitted(calls, p) then 1 else 0)
  }

  /** The first millisecond after a window. */
  ghost function WindowEnd(window: nat, width: nat): nat {
    (window + 1) * width * 1000
  }

  lemma WithinWindow(now: nat, width: nat)
    requires width > 0
    ensures WindowOf(now, width) * width <= Seconds(now) < (WindowOf(now, width) + 1) * width
    ensures now < WindowEnd(WindowOf(now, width), width) <= now + width * 1000
  {
    var s, w := Seconds(now), WindowOf(now, width);
    assert s == w * width + s % width;
    assert (w + 1) * width == w * width + width;
  }

  /** Until its window is over, a slot holds exactly the number of calls made in it. */
  lemma {:induction false} ExpiryForgetsNothing<K>(calls: seq<Call<K>>, slot: Slot<K>, now: nat, p: Policy)
    requires Sound(p) && Chronological(calls)
    requires calls != [] ==> calls[|calls| - 1].at <= now
    requires now < WindowEnd(slot.window, p.width)
    ensures Attempts(calls, slot, p) == 0 <==> slot !in After(calls, p)
    ensures slot in After(calls, p) ==>
              && After(calls, p)[slot].count == Attempts(calls, slot, p)
              && WindowEnd(slot.window, p.width) <= After(calls, p)[slot].expiresAt
  {
    if calls != [] {
      var last := calls[|calls| - 1];
      ExpiryForgetsNothing(calls[..|calls| - 1], slot, last.at, p);
      WithinWindow(last.at, p.width);
    }
  }

  /** When the first call of a slot was made. */
  ghost function FirstAt<K>(calls: seq<Call<K>>, slot: Slot<K>, p: Policy): nat
    requires p.width > 0 && Attempts(calls, slot, p) > 0
  {
    var n := |calls| - 1;
    if Attempts(calls[..n], slot, p) > 0 then FirstAt(calls[..n], slot, p) else calls[n].at
  }

  /** EXPIRE counts from the first call of a window; later ones do not prolong the key. */
  lemma {:induction false} LivesFromFirstCall<K>(calls: seq<Call<K>>, slot: Slot<K>, now: nat, p: Policy)
    requires Sound(p) && Chronological(calls)
    requires calls != [] ==> calls[|calls| - 1].at <= now
    requires now < WindowEnd(slot.window, p.width) && slot in After(calls, p)
    ensures Attempts(calls, slot, p) > 0
    ensures After(calls, p)[slot].expiresAt == FirstAt(calls, slot, p) + p.ttl * 1000
  {
    var n := |calls| - 1;
    var last := calls[n];
    ExpiryForgetsNothing(calls, slot, now, p);
    ExpiryForgetsNothing(calls[..n], slot, last.at, p);
    if slot in After(calls[..n], p) {
      LivesFromFirstCall(calls[..n], slot, last.at, p);
    }
  }

  /** Per key and window exactly the first `limit` calls are admitted. */
  lemma AdmitsExactlyTheFirst<K>(calls: seq<Call<K>>, p: Policy)
    requires Sound(p) && Chronological(calls) && calls != []
    ensures LastAdmitted(calls, p)
            <==> Attempts(calls[..|calls| - 1], SlotOf(calls[|calls| - 1], p), p) < p.limit
  {
    var last := calls[|calls| - 1];
    WithinWindow(last.at, p.width);
    ExpiryForgetsNothing(calls, SlotOf(last, p), last.at, p);
  }

  /** The number admitted in one window is the smaller of the attempts and the limit. */
  lemma {:induction false} AdmittedPerWindow<K>(calls: seq<Call<K>>, slot: Slot<K>, p: Policy)
    requires Sound(p) && Chronological(calls)
    ensures AdmittedIn(calls, slot.key, slot.window, slot.window, p)
            == if Attempts(calls, slot, p) <= p.limit then Attempts(calls, slot, p) else p.limit
  {
    if calls != [] {
      AdmittedPerWindow(calls[..|calls| - 1], slot, p);
      AdmitsExactlyTheFirst(calls, p);
    }
  }

  lemma {:induction false} AdmittedSplits<K>(calls: seq<Call<K>>, key: K, lo: nat, hi: nat, p: Policy)
    requires p.width > 0 && lo < hi
    ensures AdmittedIn(calls, key, lo, hi, p)
            == AdmittedIn(calls, key, lo, hi - 1, p) + AdmittedIn(calls, key, hi, hi, p)
  {
    if calls != [] {
      AdmittedSplits(calls[..|calls| - 1], key, lo, hi, p);
    }
  }

  lemma {:induction false} AdmittedPerWindows<K>(calls: seq<Call<K>>, key: K, lo: nat, hi: nat, p: Policy)
    requires Sound(p) && Chronological(calls) && lo <= hi
    ensures AdmittedIn(calls, key, lo, hi, p) <= (hi - lo + 1) * p.limit
    decreases hi
  {
    AdmittedPerWindow(calls, Slot(key, hi), p);
    if lo < hi {
      AdmittedPerWindows(calls, key, lo, hi - 1, p);
      AdmittedSplits(calls, key, lo, hi, p);
      assert (hi - lo + 1) * p.limit == (hi - 1 - lo + 1) * p.limit + p.limit;
    }
  }

  lemma ProductMonotone(a: nat, b: nat, width: nat)
    requires a <= b
    ensures a * width <= b * width
  {
  }

  lemma BelowNextMultiple(a: nat, b: nat, width: nat)
    requires a * width < (b + 1) * width
    ensures a <= b
  {
    if a > b {
      ProductMonotone(b + 1, a, width);
    }
  }

  lemma SpanTouches(start: nat, at: nat, m: nat, width: nat)
    requires width > 0 && start <= at < start + m * width * 1000
    ensures WindowOf(start, width) <= WindowOf(at, width) <= WindowOf(start, width) + m
  {
    WithinWindow(start, width);
    WithinWindow(at, width);
    var a, b := WindowOf(start, width), WindowOf(at, width);
    BelowNextMultiple(a, b, width);
    var span := m * width;
    assert Seconds(at) <= Seconds(start) + span;
    assert (a + 1) * width + span == (a + m + 1) * width;
    BelowNextMultiple(b, a + m, width);
  }

  lemma {:induction false} BetweenIsWithin<K>(calls: seq<Call<K>>, key: K, start: nat, m: nat, p: Policy)
    requires p.width > 0
    ensures AdmittedBetween(calls, key, start, start + m * p.width * 1000, p)
            <= AdmittedIn(calls, key, WindowOf(start, p.width), WindowOf(start, p.width) + m, p)
  {
    if calls != [] {
      BetweenIsWithin(calls[..|calls| - 1], key, start, m, p);
      var at := calls[|calls| - 1].at;
      if start <= at < start + m * p.width * 1000 {
        SpanTouches(start, at, m, p.width);
      }
    }
  }

  /** Any span of m window lengths, wherever it starts, admits at most (m + 1) * limit calls of a key. */
  lemma SpanBound<K>(calls: seq<Call<K>>, key: K, start: nat, m: nat, p: Policy)
    requires Sound(p) && Chronological(calls)
    ensures AdmittedBetween(calls, key, start, start + m * p.width * 1000, p) <= (m + 1) * p.limit
  {
    var lo := WindowOf(start, p.width);
    BetweenIsWithin(calls, key, start, m, p);
    AdmittedPerWindows(calls, key, lo, lo + m, p);
  }

  /** Retry-After (section 10.2.3 of RFC 9110) is between 1 and the width, and names the first
      second of the next window: no earlier second is in a later window. */
  lemma RetryAfterIsNextWindow(now: nat, later: nat, width: nat)
    requires width > 0 && now <= later
    ensures 1 <= RetryAfter(now, width) <= width
    ensures WindowOf(later, width) > WindowOf(now, width)
            <==> Seconds(later) >= Seconds(now) + RetryAfter(now, width)
  {
    NextWindowStarts(now, width);
    WithinWindow(later, width);
    var w, v := WindowOf(now, width), WindowOf(later, width);
    hide Seconds, RetryAfter;
    if v > w {
      ProductMonotone(w + 1, v, width);
    } else {
      ProductMonotone(v + 1, w + 1, width);
    }
  }

  lemma NextWindowStarts(now: nat, width: nat)
    requires width > 0
    ensures Seconds(now) + RetryAfter(now, width) == (WindowOf(now, width) + 1) * width
    ensures 1 <= RetryAfter(now, width) <= width
  {
    var w := WindowOf(now, width);
    assert Seconds(now) == w * width + Seconds(now) % width;
    assert (w + 1) * width == w * width + width;
  }
}
