/** The limiter as it runs (internal/api/middleware/ratelimit.go): buckets compacted in place,
    stale buckets swept now and then. It decides every request as `RateLimitSpec` does over
    the full history. */
module RateLimiter {
  import opened RateLimitSpec

  const SWEEP_INTERVAL := 60 * SECOND

  /** The hits of one key: the first `len` entries of `buf`, oldest first. */
  class Bucket {
    var buf: array<Time>
    var len: nat
    const window: int

    ghost predicate Valid()
      reads this
    {
      len <= buf.Length
    }

    function Hits(): seq<Time>
      requires Valid()
      reads this, buf
    {
      buf[..len]
    }

    constructor (window: int)
      ensures Valid() && Hits() == [] && fresh(buf) && this.window == window
    {
      buf := new Time[4];
      len := 0;
      this.window := window;
    }

    /** Keep the hits after `cutoff`, writing over the same storage that is being read. */
    method Compact(cutoff: Time)
      requires Valid()
      modifies this`len, buf
      ensures Valid() && buf == old(buf) && Hits() == Active(old(Hits()), cutoff)
    {
      hide Active;
      NoneActive(cutoff);
      ghost var was := Hits();
      var kept := 0;
      for i := 0 to len
        invariant 0 <= kept <= i && len == old(len)
        invariant buf[..kept] == Active(was[..i], cutoff)
        invariant forall j | i <= j < len :: buf[j] == was[j]
      {
        ActiveAppend(was[..i], was[i], cutoff);
        assert was[..i + 1] == was[..i] + [was[i]];
        ghost var front := buf[..kept];
        if buf[i] > cutoff {
          buf[kept] := buf[i];
          kept := kept + 1;
          assert buf[..kept] == front + [was[i]];
        }
      }
      assert was[..len] == was;
      len := kept;
    }

    /** The newest hit is outside the window. */
    predicate IsStale(now: Time)
      requires Valid()
      reads this, buf
    {
      len == 0 || buf[len - 1] <= now - window
    }

    /** The search for the oldest hit. */
    method Oldest() returns (oldest: Time)
      requires Valid() && len > 0
      ensures oldest == Min(Hits())
    {
      oldest := buf[0];
      for i := 1 to len
        invariant oldest in buf[..i] && forall h | h in buf[..i] :: oldest <= h
      {
        if buf[i] < oldest { oldest := buf[i]; }
        assert buf[..i + 1] == buf[..i] + [buf[i]];
      }
    }

    method Append(hit: Time)
      requires Valid()
      modifies this`buf, this`len, buf
      ensures Valid() && Hits() == old(Hits()) + [hit] && (buf == old(buf) || fresh(buf))
    {
      if len == buf.Length {
        var bigger := new Time[2 * buf.Length + 1];
        for i := 0 to len
          invariant buf == old(buf) && len == old(len) && fresh(bigger) && bigger.Length > len
          invariant bigger[..i] == buf[..i]
          invariant buf[..] == old(buf[..])
        {
          bigger[i] := buf[i];
        }
        buf := bigger;
      }
      buf[len] := hit;
      len := len + 1;
    }

    /** Drop what is out of the window, then deny with a wait or record the request. */
    method Take(max: nat, now: Time) returns (retryAfter: int, allowed: bool)
      requires Valid() && max > 0
      modifies this`buf, this`len, buf
      ensures Valid() && (buf == old(buf) || fresh(buf)) && len == |Hits()|
      ensures var active := Active(old(Hits()), now - window);
              && allowed == (|active| < max)
              && Hits() == (if allowed then active + [now] else active)
              && retryAfter == (if allowed then 0 else Wait(active, window, now))
    {
      hide Active, Min;
      Compact(now - window);
      if len >= max {
        var oldest := Oldest();
        retryAfter := oldest + window - now;
        if retryAfter < SECOND { retryAfter := SECOND; }
        return retryAfter, false;
      }
      Append(now);
      return 0, true;
    }
  }

  // ---- refinement on values ------------------------------------------------------------------

  function At(view: map<Key, seq<Time>>, key: Key): seq<Time> {
    if key in view then view[key] else []
  }

  ghost predicate Ascending(hits: seq<Time>) {
    forall i, j | 0 <= i < j < |hits| :: hits[i] <= hits[j]
  }

  /** What a bucket must still know at `now` of the allowed hits of its key. */
  ghost predicate Faithful(hits: seq<Time>, allowed: seq<Time>, limit: Limit, now: Time) {
    && Active(hits, now - limit.window) == Active(allowed, now - limit.window)
    && Ascending(hits) && |hits| <= limit.max
    && (hits != [] ==> hits[|hits| - 1] <= now)
  }

  /** Every bucket, held or swept away, is faithful. */
  ghost predicate Refines(limits: Limits, view: map<Key, seq<Time>>, history: seq<Served>, now: Time) {
    forall k: Key :: Faithful(At(view, k), AllowedHits(history, k), limits(k), now)
  }

  lemma StaysFaithful(hits: seq<Time>, allowed: seq<Time>, limit: Limit, now: Time, later: Time)
    requires Faithful(hits, allowed, limit, now) && now <= later
    ensures Faithful(hits, allowed, limit, later)
  {
    hide Active, Ascending;
    ActiveTwice(hits, now - limit.window, later - limit.window);
    ActiveTwice(allowed, now - limit.window, later - limit.window);
  }

  lemma {:induction false} ActiveAscends(hits: seq<Time>, cutoff: Time)
    requires Ascending(hits)
    ensures Ascending(Active(hits, cutoff))
    ensures forall h | h in Active(hits, cutoff) :: hits != [] && h <= hits[|hits| - 1]
  {
    if hits != [] {
      var init, last := hits[..|hits| - 1], hits[|hits| - 1];
      ActiveAscends(init, cutoff);
      assert forall h | h in Active(init, cutoff) :: h <= last;
      assert forall i | 0 <= i < |Active(init, cutoff)| :: Active(init, cutoff)[i] in Active(init, cutoff);
    }
  }

  /** A bucket whose newest hit is out of the window holds nothing that counts. */
  lemma {:induction false} StaleIsEmpty(hits: seq<Time>, cutoff: Time)
    requires Ascending(hits) && (hits != [] ==> hits[|hits| - 1] <= cutoff)
    ensures Active(hits, cutoff) == []
  {
    if hits != [] { StaleIsEmpty(hits[..|hits| - 1], cutoff); }
  }

  lemma ForgettingStaleIsFaithful(hits: seq<Time>, allowed: seq<Time>, limit: Limit, now: Time)
    requires Faithful(hits, allowed, limit, now)
    requires hits == [] || hits[|hits| - 1] <= now - limit.window
    ensures Faithful([], allowed, limit, now)
  {
    StaleIsEmpty(hits, now - limit.window);
  }

  /** Compacting at `now`, and recording the request if it is allowed. */
  lemma CompactedIsFaithful(hits: seq<Time>, allowed: seq<Time>, limit: Limit, now: Time)
    requires Faithful(hits, allowed, limit, now)
    ensures var active := Active(hits, now - limit.window);
            && active == Active(allowed, now - limit.window)
            && Faithful(active, allowed, limit, now)
            && (|active| < limit.max ==> Faithful(active + [now], allowed + [now], limit, now))
  {
    hide Active;
    var cutoff := now - limit.window;
    var active := Active(hits, cutoff);
    ActiveTwice(hits, cutoff, cutoff);
    ActiveContents(hits, cutoff);
    ActiveAscends(hits, cutoff);
    ActiveAppend(active, now, cutoff);
    ActiveAppend(allowed, now, cutoff);
    assert active != [] ==> active[|active| - 1] in active;
    assert Ascending(active + [now]) by {
      forall i | 0 <= i < |active| ensures active[i] <= now { assert active[i] in active; }
    }
  }

  /** The step of `Allow` as a whole. */
  lemma RequestRefines(limits: Limits, view: map<Key, seq<Time>>, history: seq<Served>, key: Key, now: Time)
    requires Refines(limits, view, history, now)
    ensures var limit := limits(key);
            var active := Active(At(view, key), now - limit.window);
            && active == Counted(history, key, limit, now)
            && Refines(limits, view[key := active], history + [Served(key, now, false)], now)
            && (|active| < limit.max ==> Refines(limits, view[key := active + [now]],
                                                 history + [Served(key, now, true)], now))
  {
    hide Faithful;
    var active := Active(At(view, key), now - limits(key).window);
    CompactedIsFaithful(At(view, key), AllowedHits(history, key), limits(key), now);
    forall k: Key
      ensures AllowedHits(history + [Served(key, now, false)], k) == AllowedHits(history, k)
      ensures AllowedHits(history + [Served(key, now, true)], k) ==
              AllowedHits(history, k) + if k == key then [now] else []
    {
      HitsAppend(history, Served(key, now, false), k);
      HitsAppend(history, Served(key, now, true), k);
      assert AllowedHits(history, k) + [] == AllowedHits(history, k);
    }
  }

  /** A request decided on a compacted bucket is decided by the rule, and recorded faithfully. */
  lemma TakenByRule(limits: Limits, view: map<Key, seq<Time>>, history: seq<Served>, key: Key, now: Time)
    requires Refines(limits, view, history, now) && ServedByRule(limits, history) && NotBefore(history, now)
    ensures var limit := limits(key);
            var active := Active(At(view, key), now - limit.window);
            var allowed := |active| < limit.max;
            var history' := history + [Served(key, now, allowed)];
            && Decide(history, key, limit, now) == (allowed, if allowed then 0 else Wait(active, limit.window, now))
            && |active| <= limit.max
            && ServedByRule(limits, history') && LastTime(history') == now
            && Refines(limits, view[key := if allowed then active + [now] else active], history', now)
  {
    hide Refines, ServedByRule, AllowedHits, Active, Wait;
    RequestRefines(limits, view, history, key, now);
    CountIsBounded(limits, history, key, now);
    ServeOneByRule(limits, history, Attempt(key, now));
  }

  // ---- the limiter -----------------------------------------------------------------------------

  class Limiter {
    var store: map<Key, Bucket>
    var lastSweep: Time
    ghost const limits: Limits
    ghost var history: seq<Served>

    ghost predicate Shape()
      reads this`store, store.Values
    {
      && (forall k | k in store :: store[k].Valid() && store[k].window == limits(k).window)
      && (forall j, k | j in store && k in store && j != k :: store[j] != store[k] && store[j].buf != store[k].buf)
    }

    ghost function View(): map<Key, seq<Time>>
      requires Shape()
      reads this`store, store.Values, set b | b in store.Values :: b.buf
    {
      map k | k in store :: store[k].Hits()
    }

    ghost predicate Valid()
      reads this, store.Values, set b | b in store.Values :: b.buf
    {
      && Shape() && ServedByRule(limits, history)
      && (if history == [] then store == map[] else Refines(limits, View(), history, LastTime(history)))
    }

    constructor (ghost limits: Limits, start: Time)
      ensures Valid() && history == [] && this.limits == limits
    {
      store := map[];
      lastSweep := start;
      this.limits := limits;
      history := [];
    }

    /** sweep: drop the buckets whose newest hit is outside their window, once an interval. */
    method Sweep(now: Time)
      requires forall k | k in store :: store[k].Valid()
      modifies this`store, this`lastSweep
      ensures SweptFrom(old(store), now)
      ensures now - old(lastSweep) < SWEEP_INTERVAL ==> store == old(store)
      ensures now - old(lastSweep) >= SWEEP_INTERVAL ==> forall k | k in store ::
                store[k].Valid() && !store[k].IsStale(now)
    {
      if now - lastSweep < SWEEP_INTERVAL { return; }
      lastSweep := now;
      var keys := store.Keys;
      ghost var all := store;
      while keys != {}
        invariant forall k | k in all :: all[k].Valid()
        invariant keys <= store.Keys <= all.Keys
        invariant forall k | k in store :: store[k] == all[k]
        invariant forall k | k in all && k !in keys :: k in store <==> !all[k].IsStale(now)
        decreases keys
      {
        var key :| key in keys;
        var bucket := store[key];
        keys := keys - {key};
        if bucket.IsStale(now) {
          store := store - {key};
        }
      }
    }

    /** The store holds the buckets of `all`, less some whose hits are all out of their window. */
    ghost predicate SweptFrom(all: map<Key, Bucket>, now: Time)
      requires forall k | k in all :: all[k].Valid()
      reads this, all.Values, set b | b in all.Values :: b.buf
    {
      && store.Keys <= all.Keys
      && (forall k | k in store :: store[k] == all[k])
      && (forall k | k in all && k !in store :: all[k].IsStale(now))
    }

    /** The bucket of `key`, made if there is none. */
    method BucketFor(key: Key, window: int) returns (bucket: Bucket)
      requires Shape() && window == limits(key).window
      modifies this`store
      ensures Shape() && key in store && store[key] == bucket
      ensures key in old(store) ==> store == old(store)
      ensures key !in old(store) ==>
                fresh(bucket) && fresh(bucket.buf) && store == old(store)[key := bucket] && bucket.Hits() == []
    {
      if key in store { return store[key]; }
      bucket := new Bucket(window);
      store := store[key := bucket];
    }

    /** The bucket `Allow` works on: sweeping first and adding an empty bucket forget nothing. */
    method Prepare(key: Key, window: int, now: Time) returns (bucket: Bucket)
      requires Valid() && NotBefore(history, now) && window == limits(key).window
      modifies this`store, this`lastSweep
      ensures Shape() && key in store && store[key] == bucket
      ensures bucket.Valid() && bucket.window == window
      ensures forall k | k in store && k != key :: store[k] != bucket && store[k].buf != bucket.buf
      ensures Refines(limits, View(), history, now) && At(View(), key) == bucket.Hits()
      ensures forall k | k in store ::
                || (k in old(store) && store[k] == old(store)[k])
                || (fresh(store[k]) && fresh(store[k].buf))
    {
      hide ServedByRule, AllowedHits, Active, Faithful, Refines, View, Shape, SweptFrom;
      RefinesNow(now);
      HasShape();
      label entry:
      ghost var view0 := View();
      Sweep(now);
      SweptView@entry(now);
      ghost var swept := View();
      SweptRefines(limits, view0, swept, history, now);
      label swept:
      bucket := BucketFor(key, window);
      GrownView@swept(key);
      SameContents(limits, swept, View(), history, now);
      DistinctBuckets(key);
    }

    lemma HasShape()
      requires Valid()
      ensures Shape() && forall k | k in store :: store[k].Valid()
    {}

    lemma DistinctBuckets(key: Key)
      requires Shape() && key in store
      ensures store[key].Valid() && store[key].window == limits(key).window
      ensures forall k | k in store && k != key :: store[k] != store[key] && store[k].buf != store[key].buf
      ensures At(View(), key) == store[key].Hits()
    {}

    twostate lemma SweptView(now: Time)
      requires old(Shape())
      requires forall k | k in old(store) :: unchanged(old(store)[k]) && unchanged(old(store[k].buf))
      requires SweptFrom(old(store), now)
      ensures Shape() && store.Keys <= old(store).Keys && forall k | k in store :: store[k] == old(store)[k]
      ensures View().Keys <= old(View()).Keys && forall k | k in View() :: View()[k] == old(View())[k]
      ensures forall k | k in old(View()) && k !in View() ::
                old(View())[k] == [] || old(View())[k][|old(View())[k]| - 1] <= now - limits(k).window
    {}

    twostate lemma GrownView(key: Key)
      requires old(Shape()) && Shape() && key in store
      requires forall k | k in old(store) :: unchanged(old(store)[k]) && unchanged(old(store[k].buf))
      requires store == old(store) || (key !in old(store) && store == old(store)[key := store[key]]
                                       && store[key].Hits() == [])
      ensures forall k :: At(View(), k) == At(old(View()), k)
    {}

    /** Only the bucket of `key` changed. */
    twostate lemma OnlyBucketChanged(key: Key)
      requires old(Shape()) && store == old(store) && key in store
      requires store[key].Valid() && store[key].window == limits(key).window
      requires store[key].buf == old(store[key].buf) || fresh(store[key].buf)
      requires forall k | k in store && k != key ::
                 old(allocated(store[k].buf)) && unchanged(store[k]) && unchanged(old(store[k].buf))
      ensures Shape() && View() == old(View())[key := store[key].Hits()]
    {
      OthersUntouched(key);
    }

    twostate lemma OthersUntouched(key: Key)
      requires old(Shape()) && store == old(store) && key in store
      requires store[key].Valid() && store[key].window == limits(key).window
      requires store[key].buf == old(store[key].buf) || fresh(store[key].buf)
      requires forall k | k in store && k != key ::
                 old(allocated(store[k].buf)) && unchanged(store[k]) && unchanged(old(store[k].buf))
      ensures Shape()
    {}

    /** allow: the decision of the rule over the whole history, whatever was compacted or swept. */
    method Allow(ip: string, endpoint: string, max: nat, window: int, now: Time)
      returns (retryAfter: int, allowed: bool)
      requires Valid() && NotBefore(history, now)
      requires max > 0 && window > 0 && limits(KeyFor(ip, endpoint)) == Limit(max, window)
      modifies this, store.Values, set b | b in store.Values :: b.buf
      ensures Valid()
      ensures history == old(history) + [Served(KeyFor(ip, endpoint), now, allowed)]
      ensures (allowed, retryAfter) == Decide(old(history), KeyFor(ip, endpoint), Limit(max, window), now)
      ensures KeyFor(ip, endpoint) in store && store[KeyFor(ip, endpoint)].len <= max
    {
      hide *;
      FollowsRule();
      var key := KeyFor(ip, endpoint);
      var bucket := Prepare(key, window, now);
      ghost var before, view := history, View();
      TakenByRule(limits, view, before, key, now);

      label prepared:
      retryAfter, allowed := bucket.Take(max, now);
      OnlyBucketChanged@prepared(key);
      history := history + [Served(key, now, allowed)];
      Recorded();
    }

    lemma FollowsRule()
      requires Valid()
      ensures ServedByRule(limits, history)
    {}

    lemma Recorded()
      requires Shape() && ServedByRule(limits, history)
      requires history != [] && Refines(limits, View(), history, LastTime(history))
      ensures Valid()
    {}

    lemma RefinesNow(now: Time)
      requires Valid() && NotBefore(history, now)
      ensures Refines(limits, View(), history, now)
    {
      hide Faithful;
      if history == [] {
        forall k: Key ensures Faithful(At(View(), k), AllowedHits(history, k), limits(k), now) {
          EmptyIsFaithful(limits(k), now);
        }
      } else {
        forall k: Key ensures Faithful(At(View(), k), AllowedHits(history, k), limits(k), now) {
          StaysFaithful(At(View(), k), AllowedHits(history, k), limits(k), LastTime(history), now);
        }
      }
    }
  }

  lemma EmptyIsFaithful(limit: Limit, now: Time)
    ensures Faithful([], [], limit, now)
  {}

  lemma SameContents(limits: Limits, view: map<Key, seq<Time>>, view': map<Key, seq<Time>>, history: seq<Served>,
                     now: Time)
    requires Refines(limits, view, history, now) && forall k :: At(view, k) == At(view', k)
    ensures Refines(limits, view', history, now)
  {}

  lemma SweptRefines(limits: Limits, view: map<Key, seq<Time>>, swept: map<Key, seq<Time>>, history: seq<Served>,
                     now: Time)
    requires Refines(limits, view, history, now)
    requires swept.Keys <= view.Keys && forall k | k in swept :: swept[k] == view[k]
    requires forall k | k in view && k !in swept :: view[k] == [] || view[k][|view[k]| - 1] <= now - limits(k).window
    ensures Refines(limits, swept, history, now)
  {
    hide Faithful;
    forall k: Key ensures Faithful(At(swept, k), AllowedHits(history, k), limits(k), now) {
      if k in view && k !in swept {
        ForgettingStaleIsFaithful(view[k], AllowedHits(history, k), limits(k), now);
      }
    }
  }
}
