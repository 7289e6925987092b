/** What the sliding-window limiter of internal/api/middleware/ratelimit.go decides, said over
    the full history of requests, with nothing compacted and nothing forgotten. Times and
    durations are nanoseconds. */
module RateLimitSpec {

  type Key = string
  type Time = int

  const SECOND := 1_000_000_000

  /** What an endpoint allows: `max` hits in any window. */
  datatype RawLimit = Limit(max: nat, window: int)
  type Limit = l: RawLimit | l.max > 0 && l.window > 0 witness Limit(1, 1)

  type Limits = Key -> Limit

  datatype Served = Served(key: Key, now: Time, allowed: bool)

  /** The allowed hits of `key`, oldest first. */
  function AllowedHits(history: seq<Served>, key: Key): seq<Time> {
    if history == [] then []
    else
      var last := history[|history| - 1];
      AllowedHits(history[..|history| - 1], key) + if last.allowed && last.key == key then [last.now] else []
  }

  /** The hits after `cutoff`, in order. */
  function Active(hits: seq<Time>, cutoff: Time): seq<Time> {
    if hits == [] then []
    else Active(hits[..|hits| - 1], cutoff) + if hits[|hits| - 1] > cutoff then [hits[|hits| - 1]] else []
  }

  /** The allowed hits of `key` that count at `now`: those in (now - window, now]. */
  function Counted(history: seq<Served>, key: Key, limit: Limit, now: Time): seq<Time> {
    Active(AllowedHits(history, key), now - limit.window)
  }

  function Min(hits: seq<Time>): (m: Time)
    requires hits != []
    ensures m in hits && forall h | h in hits :: m <= h
  {
    if |hits| == 1 then hits[0]
    else
      var m := Min(hits[1..]);
      assert hits == [hits[0]] + hits[1..];
      if m < hits[0] then m else hits[0]
  }

  /** The decision on a request, with the duration to wait when it is denied. */
  function Decide(history: seq<Served>, key: Key, limit: Limit, now: Time): (bool, int) {
    var counted := Counted(history, key, limit, now);
    if |counted| < limit.max then (true, 0) else (false, Wait(counted, limit.window, now))
  }

  /** Until the oldest counted hit leaves the window, but no less than a second. */
  function Wait(counted: seq<Time>, window: int, now: Time): int
    requires counted != []
  {
    var wait := Min(counted) + window - now;
    if wait < SECOND then SECOND else wait
  }

  function LastTime(history: seq<Served>): Time
    requires history != []
  {
    history[|history| - 1].now
  }

  /** Requests served in time order, each decided by the rule. */
  predicate ServedByRule(limits: Limits, history: seq<Served>) {
    history != [] ==>
      var before, last := history[..|history| - 1], history[|history| - 1];
      && ServedByRule(limits, before)
      && (before != [] ==> LastTime(before) <= last.now)
      && last.allowed == Decide(before, last.key, limits(last.key), last.now).0
  }

  predicate NotBefore(history: seq<Served>, now: Time) {
    history != [] ==> LastTime(history) <= now
  }

  // ---- active hits -------------------------------------------------------------------------

  lemma NoneActive(cutoff: Time)
    ensures Active([], cutoff) == []
  {}

  lemma ActiveAppend(hits: seq<Time>, hit: Time, cutoff: Time)
    ensures Active(hits + [hit], cutoff) == Active(hits, cutoff) + if hit > cutoff then [hit] else []
  {
    assert (hits + [hit])[..|hits|] == hits;
  }

  lemma HitsAppend(history: seq<Served>, served: Served, key: Key)
    ensures AllowedHits(history + [served], key) ==
            AllowedHits(history, key) + if served.allowed && served.key == key then [served.now] else []
  {
    assert (history + [served])[..|history|] == history;
  }

  lemma {:induction false} ActiveContents(hits: seq<Time>, cutoff: Time)
    ensures forall h :: h in Active(hits, cutoff) <==> h in hits && h > cutoff
    ensures |Active(hits, cutoff)| <= |hits|
  {
    if hits != [] {
      ActiveContents(hits[..|hits| - 1], cutoff);
      assert hits == hits[..|hits| - 1] + [hits[|hits| - 1]];
    }
  }

  lemma {:induction false} ActiveTwice(hits: seq<Time>, cutoff: Time, later: Time)
    requires cutoff <= later
    ensures Active(Active(hits, cutoff), later) == Active(hits, later)
  {
    if hits != [] {
      var init, last := hits[..|hits| - 1], hits[|hits| - 1];
      ActiveTwice(init, cutoff, later);
      ActiveAppend(Active(init, cutoff), last, later);
      assert Active(init, cutoff) + [] == Active(init, cutoff);
    }
  }

  lemma {:induction false} ActiveShrinks(hits: seq<Time>, cutoff: Time, later: Time)
    requires cutoff <= later
    ensures |Active(hits, later)| <= |Active(hits, cutoff)|
  {
    ActiveTwice(hits, cutoff, later);
    ActiveContents(Active(hits, cutoff), later);
  }

  /** A hit that counted and no longer does makes the count smaller. */
  lemma {:induction false} ActiveDrops(hits: seq<Time>, cutoff: Time, later: Time, gone: Time)
    requires cutoff <= later && gone in hits && cutoff < gone <= later
    ensures |Active(hits, later)| < |Active(hits, cutoff)|
  {
    var init, last := hits[..|hits| - 1], hits[|hits| - 1];
    assert hits == init + [last];
    if gone in init {
      ActiveDrops(init, cutoff, later, gone);
    } else {
      ActiveShrinks(init, cutoff, later);
    }
  }

  // ---- the rule -------------------------------------------------------------------------------

  lemma LastByRule(limits: Limits, history: seq<Served>)
    requires ServedByRule(limits, history) && history != []
    ensures var before, last := history[..|history| - 1], history[|history| - 1];
            && ServedByRule(limits, before) && NotBefore(before, last.now) && LastTime(history) == last.now
            && last.allowed == (|Counted(before, last.key, limits(last.key), last.now)| < limits(last.key).max)
  {}

  /** No more hits than allowed ever count. */
  lemma {:induction false} CountIsBounded(limits: Limits, history: seq<Served>, key: Key, now: Time)
    requires ServedByRule(limits, history) && NotBefore(history, now)
    ensures |Counted(history, key, limits(key), now)| <= limits(key).max
  {
    if history != [] {
      hide *;
      LastByRule(limits, history);
      var before, last := history[..|history| - 1], history[|history| - 1];
      assert history == before + [last];
      CountIsBounded(limits, before, key, last.now);
      CountedAfter(before, last, key, limits(key), now);
    } else {
      ActiveContents([], now - limits(key).window);
    }
  }

  lemma CountedAfter(before: seq<Served>, last: Served, key: Key, limit: Limit, now: Time)
    requires last.now <= now
    ensures |Counted(before + [last], key, limit, now)| <=
            |Counted(before, key, limit, last.now)| + if last.allowed && last.key == key then 1 else 0
  {
    hide AllowedHits, Active;
    var hits := AllowedHits(before, key);
    HitsAppend(before, last, key);
    ActiveAppend(hits, last.now, last.now - limit.window);
    ActiveShrinks(AllowedHits(before + [last], key), last.now - limit.window, now - limit.window);
    assert hits + [] == hits;
  }

  /** A further request, seen from a history. */
  datatype Attempt = Attempt(key: Key, now: Time)

  function Serve(limits: Limits, history: seq<Served>, attempts: seq<Attempt>): seq<Served>
    decreases |attempts|
  {
    if attempts == [] then history
    else
      Serve(limits, ServeOne(limits, history, attempts[0]), attempts[1..])
  }

  predicate InOrder(history: seq<Served>, attempts: seq<Attempt>) {
    && (attempts != [] ==> NotBefore(history, attempts[0].now))
    && forall i, j | 0 <= i < j < |attempts| :: attempts[i].now <= attempts[j].now
  }

  function ServeOne(limits: Limits, history: seq<Served>, a: Attempt): seq<Served> {
    history + [Served(a.key, a.now, Decide(history, a.key, limits(a.key), a.now).0)]
  }

  lemma ServeOneByRule(limits: Limits, history: seq<Served>, a: Attempt)
    requires ServedByRule(limits, history) && NotBefore(history, a.now)
    ensures ServedByRule(limits, ServeOne(limits, history, a)) && LastTime(ServeOne(limits, history, a)) == a.now
  {
    hide Decide;
    assert ServeOne(limits, history, a)[..|history|] == history;
  }

  /** `key` is used up, and the oldest hit that counts is `oldest`. */
  predicate Saturated(limits: Limits, history: seq<Served>, key: Key, oldest: Time) {
    && history != [] && ServedByRule(limits, history)
    && var counted := Counted(history, key, limits(key), LastTime(history));
       |counted| >= limits(key).max && oldest == Min(counted)
  }

  lemma StaysSaturated(limits: Limits, history: seq<Served>, key: Key, oldest: Time, a: Attempt)
    requires Saturated(limits, history, key, oldest) && NotBefore(history, a.now)
    requires a.now < oldest + limits(key).window
    ensures Saturated(limits, ServeOne(limits, history, a), key, oldest)
    ensures AllowedHits(ServeOne(limits, history, a), key) == AllowedHits(history, key)
  {
    hide AllowedHits, Active, ServedByRule;
    var window := limits(key).window;
    var hits := AllowedHits(history, key);
    AllStillCounted(hits, LastTime(history) - window, a.now - window);
    HitsAppend(history, Served(a.key, a.now, Decide(history, a.key, limits(a.key), a.now).0), key);
    assert hits + [] == hits;
    ServeOneByRule(limits, history, a);
  }

  /** While the oldest counted hit counts, requests for its key are denied, whatever else is
      requested meanwhile. */
  lemma {:induction false} DeniedMeanwhile(limits: Limits, history: seq<Served>, key: Key, oldest: Time,
                                           attempts: seq<Attempt>)
    requires Saturated(limits, history, key, oldest) && InOrder(history, attempts)
    requires attempts != [] ==> attempts[|attempts| - 1].now < oldest + limits(key).window
    ensures var after := Serve(limits, history, attempts);
            && Saturated(limits, after, key, oldest) && AllowedHits(after, key) == AllowedHits(history, key)
            && history != [] && after != [] && LastTime(history) <= LastTime(after)
    decreases |attempts|
  {
    hide Saturated, AllowedHits, Decide;
    SaturatedIsNonempty(limits, history, key, oldest);
    if attempts != [] {
      var a := attempts[0];
      assert a.now <= attempts[|attempts| - 1].now;
      StaysSaturated(limits, history, key, oldest, a);
      RestInOrder(ServeOne(limits, history, a), attempts);
      DeniedMeanwhile(limits, ServeOne(limits, history, a), key, oldest, attempts[1..]);
    }
  }

  lemma SaturatedIsNonempty(limits: Limits, history: seq<Served>, key: Key, oldest: Time)
    requires Saturated(limits, history, key, oldest)
    ensures history != []
  {}

  lemma RestInOrder(next: seq<Served>, attempts: seq<Attempt>)
    requires attempts != [] && next != [] && LastTime(next) == attempts[0].now
    requires forall i, j | 0 <= i < j < |attempts| :: attempts[i].now <= attempts[j].now
    ensures InOrder(next, attempts[1..])
  {}

  /** Nothing that counted is dropped before the oldest of it. */
  lemma {:induction false} AllStillCounted(hits: seq<Time>, cutoff: Time, later: Time)
    requires cutoff <= later && (forall h | h in Active(hits, cutoff) :: h > later)
    ensures Active(hits, later) == Active(hits, cutoff)
  {
    ActiveTwice(hits, cutoff, later);
    NothingDropped(Active(hits, cutoff), later);
  }

  lemma {:induction false} NothingDropped(hits: seq<Time>, cutoff: Time)
    requires forall h | h in hits :: h > cutoff
    ensures Active(hits, cutoff) == hits
  {
    if hits != [] {
      var init := hits[..|hits| - 1];
      assert hits == init + [hits[|hits| - 1]];
      assert forall h | h in init :: h in hits;
      assert hits[|hits| - 1] in hits;
      NothingDropped(init, cutoff);
    }
  }

  /** The last request was for `key`, and was denied. */
  predicate LastIsDenied(history: seq<Served>, key: Key)
    requires history != []
  {
    var last := history[|history| - 1];
    last.key == key && !last.allowed
  }

  /** After a denied request: every request for the key is denied until the oldest counted hit
      leaves the window, and the first one from then on is allowed. In particular the first
      request made no earlier than the returned duration is. */
  lemma RetryAfterIsExact(limits: Limits, history: seq<Served>, key: Key, attempts: seq<Attempt>, now: Time)
    requires ServedByRule(limits, history) && InOrder(history, attempts)
    requires history != [] && LastIsDenied(history, key)
    requires attempts != [] ==> attempts[|attempts| - 1].now < FreeAt(limits, history, key)
    requires NotBefore(Serve(limits, history, attempts), now)
    ensures var after := Serve(limits, history, attempts);
            Decide(after, key, limits(key), now).0 <==> now >= FreeAt(limits, history, key)
    ensures LastTime(history) + Decide(history[..|history| - 1], key, limits(key),
                                       LastTime(history)).1 >= FreeAt(limits, history, key)
  {
    hide AllowedHits, Active, Serve, ServedByRule, InOrder, Saturated, FreeAt, Decide;
    WaitReaches(limits, history, key);
    DeniedIsSaturated(limits, history, key);
    DeniedMeanwhile(limits, history, key, FreeAt(limits, history, key) - limits(key).window, attempts);
    FreeExactly(limits, history, key, Serve(limits, history, attempts), now);
  }

  /** A denied request saw a used-up key; its oldest counted hit fixes when it is free. */
  lemma DeniedIsSaturated(limits: Limits, history: seq<Served>, key: Key)
    requires ServedByRule(limits, history) && history != [] && LastIsDenied(history, key)
    ensures Saturated(limits, history, key, FreeAt(limits, history, key) - limits(key).window)
    ensures LastTime(history) < FreeAt(limits, history, key)
  {
    hide AllowedHits, Active, ServedByRule, Wait, Min, LastIsDenied;
    LastWasDenied(limits, history, key);
    var counted := Counted(history, key, limits(key), LastTime(history));
    ActiveContents(AllowedHits(history, key), LastTime(history) - limits(key).window);
    assert |counted| >= limits(key).max && Min(counted) in counted;
  }

  lemma WaitReaches(limits: Limits, history: seq<Served>, key: Key)
    requires ServedByRule(limits, history) && history != [] && LastIsDenied(history, key)
    ensures LastTime(history) + Decide(history[..|history| - 1], key, limits(key), LastTime(history)).1
            >= FreeAt(limits, history, key)
  {
    hide FreeAt, Decide, ServedByRule;
    WaitIsUntilFree(limits, history, key);
  }

  /** While no hit of the key is added, the first request from `FreeAt` on is allowed. */
  lemma FreeExactly(limits: Limits, history: seq<Served>, key: Key, after: seq<Served>, now: Time)
    requires history != [] && ServedByRule(limits, history)
    requires Saturated(limits, history, key, FreeAt(limits, history, key) - limits(key).window)
    requires AllowedHits(after, key) == AllowedHits(history, key) && LastTime(history) <= now
    ensures Decide(after, key, limits(key), now).0 <==> now >= FreeAt(limits, history, key)
  {
    hide AllowedHits, Active, ServedByRule, Wait;
    var window, denied, hits := limits(key).window, LastTime(history), AllowedHits(history, key);
    var oldest := FreeAt(limits, history, key) - window;
    CountIsBounded(limits, history, key, denied);
    ActiveContents(hits, denied - window);
    if now >= oldest + window {
      ActiveDrops(hits, denied - window, now - window, oldest);
    } else {
      AllStillCounted(hits, denied - window, now - window);
    }
  }

  lemma LastWasDenied(limits: Limits, history: seq<Served>, key: Key)
    requires ServedByRule(limits, history) && history != []
    ensures var before := history[..|history| - 1];
            LastIsDenied(history, key) ==>
            && AllowedHits(history, key) == AllowedHits(before, key)
            && !Decide(before, key, limits(key), LastTime(history)).0
  {}

  /** When the oldest hit counted at the end of `history` leaves the window. */
  function FreeAt(limits: Limits, history: seq<Served>, key: Key): Time
    requires history != []
  {
    var counted := Counted(history, key, limits(key), LastTime(history));
    (if counted == [] then LastTime(history) else Min(counted)) + limits(key).window
  }

  // ---- the Retry-After header --------------------------------------------------------------

  /** formatRetryAfter: time.Duration.Round to seconds, at least one. */
  function HeaderSeconds(wait: int): int
    requires wait >= 0
  {
    var seconds := (wait + SECOND / 2) / SECOND;
    if seconds < 1 then 1 else seconds
  }

  /** The header (section 10.2.3 of RFC 9110) is rounded to the nearest second: waiting for it
      is enough exactly when the duration is not rounded down. */
  lemma HeaderSufficesExactly(wait: int)
    requires wait >= SECOND
    ensures HeaderSeconds(wait) * SECOND >= wait <==> wait % SECOND == 0 || 2 * (wait % SECOND) >= SECOND
  {
    var q, r := wait / SECOND, wait % SECOND;
    assert wait == q * SECOND + r;
    assert (wait + SECOND / 2) / SECOND == if r < SECOND / 2 then q else q + 1;
  }

  /** A client that waits as long as the header says is still denied when the duration was
      rounded down, and is allowed otherwise. */
  lemma HonouringTheHeader(limits: Limits, history: seq<Served>, key: Key)
    requires ServedByRule(limits, history) && history != []
    ensures var wait := Decide(history[..|history| - 1], key, limits(key), LastTime(history)).1;
            LastIsDenied(history, key) ==>
            wait >= SECOND &&
            (Decide(history, key, limits(key), LastTime(history) + HeaderSeconds(wait) * SECOND).0
             <==> wait % SECOND == 0 || 2 * (wait % SECOND) >= SECOND)
  {
    hide AllowedHits, Active, ServedByRule, HeaderSeconds, Decide, FreeAt, Serve;
    WaitIsUntilFree(limits, history, key);
    if LastIsDenied(history, key) {
      var wait := Decide(history[..|history| - 1], key, limits(key), LastTime(history)).1;
      HeaderSufficesExactly(wait);
      HeaderIsPositive(wait);
      var later := LastTime(history) + HeaderSeconds(wait) * SECOND;
      ServeNothing(limits, history);
      RetryAfterIsExact(limits, history, key, [], later);
    }
  }

  /** Such a client exists: with one hit a minute, a second request 0.6 s after the first is told
      to wait 59.4 s, reads 59 in the header, and is denied again after 59 s. */
  lemma HeaderCanBeTooShort(key: Key)
    ensures var limit := Limit(1, 60 * SECOND);
            var limits: Limits := _ => limit;
            var history := [Served(key, 0, true), Served(key, 600_000_000, false)];
            && ServedByRule(limits, history) && LastIsDenied(history, key)
            && var wait := Decide(history[..1], key, limit, 600_000_000).1;
               && wait == 59_400_000_000 && HeaderSeconds(wait) == 59
               && !Decide(history, key, limit, 600_000_000 + 59 * SECOND).0
  {
    hide AllowedHits, Active, ServedByRule, Wait, Min, Decide, LastIsDenied;
    var limit: Limit := Limit(1, 60 * SECOND);
    var limits: Limits := _ => limit;
    var a, b := Served(key, 0, true), Served(key, 600_000_000, false);
    FirstRequest(limits, a);
    OneHit([], a, limit, b.now);
    assert [a] + [b] == [a, b] && [a, b][..1] == [a] && [] + [a] == [a];
    OneMoreServed(limits, [a], b);
    assert LastIsDenied([a, b], key) by { LastOf(a, b); }
    HonouringTheHeader(limits, [a, b], key);
  }

  lemma LastOf(a: Served, b: Served)
    ensures LastIsDenied([a, b], b.key) <==> !b.allowed
  {}

  lemma FirstRequest(limits: Limits, a: Served)
    requires a.allowed
    ensures AllowedHits([], a.key) == [] && ServedByRule(limits, [a])
  {
    NoneActive(a.now - limits(a.key).window);
    assert [a][..0] == [];
  }

  lemma OneMoreServed(limits: Limits, before: seq<Served>, last: Served)
    requires ServedByRule(limits, before) && NotBefore(before, last.now)
    requires last.allowed == Decide(before, last.key, limits(last.key), last.now).0
    ensures ServedByRule(limits, before + [last])
  {
    hide Decide;
    assert (before + [last])[..|before|] == before;
  }

  /** With one hit allowed a window, the next request waits for the first hit to leave it. */
  lemma OneHit(before: seq<Served>, a: Served, limit: Limit, now: Time)
    requires AllowedHits(before, a.key) == [] && a.allowed && limit.max == 1 && a.now > now - limit.window
    requires a.now + limit.window - now >= SECOND
    ensures Decide(before + [a], a.key, limit, now) == (false, a.now + limit.window - now)
  {
    hide AllowedHits, Active;
    HitsAppend(before, a, a.key);
    ActiveAppend([], a.now, now - limit.window);
    NoneActive(now - limit.window);
    assert [] + [a.now] == [a.now];
  }

  lemma ServeNothing(limits: Limits, history: seq<Served>)
    ensures Serve(limits, history, []) == history
  {}

  lemma HeaderIsPositive(wait: int)
    requires wait >= 0
    ensures HeaderSeconds(wait) >= 1
  {}

  /** The returned duration reaches exactly the moment the oldest hit leaves the window, or a
      second if that is sooner. */
  lemma WaitIsUntilFree(limits: Limits, history: seq<Served>, key: Key)
    requires ServedByRule(limits, history) && history != []
    ensures var wait := Decide(history[..|history| - 1], key, limits(key), LastTime(history)).1;
            var until := FreeAt(limits, history, key) - LastTime(history);
            LastIsDenied(history, key) ==> wait == if until < SECOND then SECOND else until
  {
    hide AllowedHits, Active, ServedByRule;
    LastWasDenied(limits, history, key);
  }

  // ---- keys ---------------------------------------------------------------------------------

  function KeyFor(ip: string, endpoint: string): Key {
    ip + "|" + endpoint
  }

  /** Endpoint names hold no bar, so two clients or two endpoints never share a bucket. */
  lemma {:induction false} KeysAreDistinct(ip1: string, endpoint1: string, ip2: string, endpoint2: string)
    requires '|' !in endpoint1 && '|' !in endpoint2
    requires KeyFor(ip1, endpoint1) == KeyFor(ip2, endpoint2)
    ensures ip1 == ip2 && endpoint1 == endpoint2
    decreases |endpoint1|
  {
    var k1, k2 := KeyFor(ip1, endpoint1), KeyFor(ip2, endpoint2);
    LastOfKey(ip1, endpoint1);
    LastOfKey(ip2, endpoint2);
    if endpoint1 != "" && endpoint2 != "" {
      var e1, e2 := endpoint1[..|endpoint1| - 1], endpoint2[..|endpoint2| - 1];
      assert k1[..|k1| - 1] == KeyFor(ip1, e1) && k2[..|k2| - 1] == KeyFor(ip2, e2);
      assert endpoint1 == e1 + [k1[|k1| - 1]] && endpoint2 == e2 + [k2[|k2| - 1]];
      KeysAreDistinct(ip1, e1, ip2, e2);
    }
  }

  /** The last character of a key is the bar exactly when the endpoint has no name. */
  lemma LastOfKey(ip: string, endpoint: string)
    requires '|' !in endpoint
    ensures var k := KeyFor(ip, endpoint);
            && (endpoint == "" <==> k[|k| - 1] == '|')
            && (endpoint == "" ==> k[..|k| - 1] == ip)
            && (endpoint != "" ==> k[|k| - 1] == endpoint[|endpoint| - 1])
  {
    if endpoint != "" { assert endpoint[|endpoint| - 1] in endpoint; }
  }
}
