/**
  The bounded, swept rate limiter (server/src/app.ts, createRateLimiter).

  A map from key to bucket that remembers insertion order, swept at most once a minute and cut
  back by its oldest tenth when it is full. The reference limiter beside it is never swept and
  never cut back. Times are milliseconds handed in by the caller.
 */
module RateLimiter {
  import opened FiniteSets

  type Key = string

  const SWEEP_INTERVAL: int := 60_000
  const MAX_BUCKETS: nat := 20_000
  const EVICT_COUNT: nat := 2_000

  datatype Bucket = Bucket(count: int, resetAt: int)

  /** `order` lists the keys of `buckets`, oldest first. */
  datatype State = State(buckets: map<Key, Bucket>, order: seq<Key>, lastSweep: int)

  datatype Request = Request(key: Key, limit: int, windowMs: int, now: int)

  const INITIAL: State := State(map[], [], 0)

  ghost predicate Distinct(keys: seq<Key>) {
    forall i, j :: 0 <= i < j < |keys| ==> keys[i] != keys[j]
  }

  ghost predicate ValidState(s: State) {
    Distinct(s.order) && forall k :: k in s.order <==> k in s.buckets
  }

  /** The keys whose bucket has not expired, in the same order. */
  function Unexpired(keys: seq<Key>, buckets: map<Key, Bucket>, now: int): seq<Key>
    requires forall k :: k in keys ==> k in buckets
  {
    if keys == [] then []
    else
      var last := keys[|keys| - 1];
      Unexpired(keys[..|keys| - 1], buckets, now) + (if buckets[last].resetAt <= now then [] else [last])
  }

  function Sweep(s: State, now: int): State
    requires ValidState(s)
  {
    if now - s.lastSweep > SWEEP_INTERVAL then
      State(map k | k in s.buckets && s.buckets[k].resetAt > now :: s.buckets[k],
            Unexpired(s.order, s.buckets, now), now)
    else s
  }

  function Oldest(order: seq<Key>): seq<Key> {
    order[..if |order| < EVICT_COUNT then |order| else EVICT_COUNT]
  }

  function Evict(s: State): State {
    State(s.buckets - (set k | k in Oldest(s.order)), s.order[|Oldest(s.order)|..], s.lastSweep)
  }

  /** The key has no bucket and there is no room for one. */
  predicate Full(s: State, key: Key) {
    key !in s.buckets && |s.buckets| >= MAX_BUCKETS
  }

  function Insert(s: State, key: Key, bucket: Bucket): State {
    s.(buckets := s.buckets[key := bucket], order := if key in s.buckets then s.order else s.order + [key])
  }

  /** One call: the new state, and whether the request is let through. */
  function Limit(s: State, r: Request): (State, bool)
    requires ValidState(s)
  {
    var swept := Sweep(s, r.now);
    if r.key !in swept.buckets || swept.buckets[r.key].resetAt <= r.now then
      var room := if Full(swept, r.key) then Evict(swept) else swept;
      (Insert(room, r.key, Bucket(1, r.now + r.windowMs)), true)
    else
      var b := swept.buckets[r.key];
      (swept.(buckets := swept.buckets[r.key := Bucket(b.count + 1, b.resetAt)]), b.count + 1 <= r.limit)
  }

  /** The reference: a fixed window per key, never swept, never cut back. */
  function Reference(m: map<Key, Bucket>, r: Request): (map<Key, Bucket>, bool) {
    if r.key !in m || m[r.key].resetAt <= r.now then
      (m[r.key := Bucket(1, r.now + r.windowMs)], true)
    else
      (m[r.key := Bucket(m[r.key].count + 1, m[r.key].resetAt)], m[r.key].count + 1 <= r.limit)
  }

  // ---------------------------------------------------------------------------
  // The state stays valid and bounded

  lemma {:induction false} UnexpiredKeeps(keys: seq<Key>, buckets: map<Key, Bucket>, now: int)
    requires Distinct(keys) && forall k :: k in keys ==> k in buckets
    ensures Distinct(Unexpired(keys, buckets, now))
    ensures forall k :: k in Unexpired(keys, buckets, now) <==> k in keys && buckets[k].resetAt > now
  {
    if keys != [] {
      var front, last := keys[..|keys| - 1], keys[|keys| - 1];
      assert keys == front + [last];
      UnexpiredKeeps(front, buckets, now);
    }
  }

  lemma SweepValid(s: State, now: int)
    requires ValidState(s)
    ensures ValidState(Sweep(s, now))
    ensures Sweep(s, now).buckets.Keys <= s.buckets.Keys
  {
    UnexpiredKeeps(s.order, s.buckets, now);
  }

  lemma EvictValid(s: State)
    requires ValidState(s)
    ensures ValidState(Evict(s))
    ensures Evict(s).buckets.Keys <= s.buckets.Keys
  {
    var n := |Oldest(s.order)|;
    assert s.order == s.order[..n] + s.order[n..];
  }

  lemma InsertValid(s: State, key: Key, bucket: Bucket)
    requires ValidState(s)
    ensures ValidState(Insert(s, key, bucket))
  {
  }

  lemma LimitValid(s: State, r: Request)
    requires ValidState(s)
    ensures ValidState(Limit(s, r).0)
  {
    var swept := Sweep(s, r.now);
    SweepValid(s, r.now);
    EvictValid(swept);
    InsertValid(if Full(swept, r.key) then Evict(swept) else swept, r.key, Bucket(1, r.now + r.windowMs));
  }

  lemma {:induction false} DistinctSize(keys: seq<Key>, s: set<Key>)
    requires Distinct(keys) && forall k :: k in keys <==> k in s
    ensures |keys| == |s|
  {
    if keys != [] {
      var front, last := keys[..|keys| - 1], keys[|keys| - 1];
      assert keys == front + [last];
      DistinctSize(front, s - {last});
    }
  }

  lemma EvictMakesRoom(s: State)
    requires ValidState(s) && |s.buckets| == MAX_BUCKETS
    ensures |Evict(s).buckets| < MAX_BUCKETS
  {
    DistinctSize(s.order, s.buckets.Keys);
    EvictValid(s);
    DistinctSize(Evict(s).order, Evict(s).buckets.Keys);
  }

  lemma LimitBounded(s: State, r: Request)
    requires ValidState(s) && |s.buckets| <= MAX_BUCKETS
    ensures |Limit(s, r).0.buckets| <= MAX_BUCKETS
  {
    var swept := Sweep(s, r.now);
    SweepValid(s, r.now);
    SubsetSize(swept.buckets.Keys, s.buckets.Keys);
    if Full(swept, r.key) { EvictMakesRoom(swept); }
  }

  /** A call more than a minute after the last sweep leaves only live buckets; a sooner one drops none. */
  lemma SweepsWhenDue(s: State, r: Request)
    requires ValidState(s)
    ensures var t := Limit(s, r).0;
            if r.now - s.lastSweep > 60_000
            then t.lastSweep == r.now && forall k :: k in t.buckets && k != r.key ==> t.buckets[k].resetAt > r.now
            else t.lastSweep == s.lastSweep && (|s.buckets| < MAX_BUCKETS ==> s.buckets.Keys <= t.buckets.Keys)
  {
    hide Unexpired;
  }

  /** A new key that finds the table full drops the two thousand keys that came first, and no other. */
  lemma EvictsOldest(s: State, r: Request)
    requires ValidState(s) && |s.buckets| == MAX_BUCKETS && r.key !in s.buckets && r.now - s.lastSweep <= 60_000
    ensures var t := Limit(s, r).0;
            && |s.order| == 20_000 && t.order == s.order[2_000..] + [r.key]
            && forall k :: k in s.order[2_000..] ==> k in t.buckets && t.buckets[k] == s.buckets[k]
  {
    hide Unexpired;
    DistinctSize(s.order, s.buckets.Keys);
    EvictValid(s);
  }

  ghost function Run(s: State, trace: seq<Request>): State
    requires ValidState(s)
    decreases |trace|
  {
    if trace == [] then s
    else (LimitValid(s, trace[0]); Run(Limit(s, trace[0]).0, trace[1..]))
  }

  /** The table never exceeds 20,000 entries, on any trace whatever its times. */
  lemma {:induction false} TableBounded(s: State, trace: seq<Request>)
    requires ValidState(s) && |s.buckets| <= MAX_BUCKETS
    ensures |Run(s, trace).buckets| <= MAX_BUCKETS
    decreases |trace|
  {
    if trace != [] {
      LimitValid(s, trace[0]);
      LimitBounded(s, trace[0]);
      TableBounded(Limit(s, trace[0]).0, trace[1..]);
    }
  }

  // ---------------------------------------------------------------------------
  // The swept limiter makes the reference's decisions

  ghost function Decisions(s: State, trace: seq<Request>): (d: seq<bool>)
    requires ValidState(s)
    ensures |d| == |trace|
    decreases |trace|
  {
    if trace == [] then []
    else (LimitValid(s, trace[0]); [Limit(s, trace[0]).1] + Decisions(Limit(s, trace[0]).0, trace[1..]))
  }

  function ReferenceDecisions(m: map<Key, Bucket>, trace: seq<Request>): (d: seq<bool>)
    ensures |d| == |trace|
    decreases |trace|
  {
    if trace == [] then []
    else [Reference(m, trace[0]).1] + ReferenceDecisions(Reference(m, trace[0]).0, trace[1..])
  }

  /** No call of the trace evicts for lack of room. */
  ghost predicate NoEviction(s: State, trace: seq<Request>)
    requires ValidState(s)
    decreases |trace|
  {
    trace == [] ||
    (!Full(Sweep(s, trace[0].now), trace[0].key)
     && (LimitValid(s, trace[0]); NoEviction(Limit(s, trace[0]).0, trace[1..])))
  }

  predicate TimeFrom(now: int, trace: seq<Request>) {
    && (forall i :: 0 <= i < |trace| ==> now <= trace[i].now)
    && (forall i, j :: 0 <= i < j < |trace| ==> trace[i].now <= trace[j].now)
  }

  /** They agree on every bucket, except that the swept table may have dropped expired ones. */
  ghost predicate Agree(buckets: map<Key, Bucket>, m: map<Key, Bucket>, now: int) {
    && (forall k :: k in buckets ==> k in m && m[k] == buckets[k])
    && (forall k :: k in m && k !in buckets ==> m[k].resetAt <= now)
  }

  lemma StepAgrees(s: State, m: map<Key, Bucket>, r: Request, now: int)
    requires ValidState(s) && Agree(s.buckets, m, now) && now <= r.now
    requires !Full(Sweep(s, r.now), r.key)
    ensures Limit(s, r).1 == Reference(m, r).1
    ensures Agree(Limit(s, r).0.buckets, Reference(m, r).0, r.now)
  {
    assert Agree(Sweep(s, r.now).buckets, m, r.now);
  }

  /**
    On any trace with non-decreasing time and no capacity eviction the swept limiter decides
    exactly as the reference limiter does.
   */
  lemma {:induction false} SameDecisions(s: State, m: map<Key, Bucket>, trace: seq<Request>, now: int)
    requires ValidState(s) && Agree(s.buckets, m, now) && TimeFrom(now, trace) && NoEviction(s, trace)
    ensures Decisions(s, trace) == ReferenceDecisions(m, trace)
    decreases |trace|
  {
    if trace != [] {
      StepAgrees(s, m, trace[0], now);
      LimitValid(s, trace[0]);
      SameDecisions(Limit(s, trace[0]).0, Reference(m, trace[0]).0, trace[1..], trace[0].now);
    }
  }

  // ---------------------------------------------------------------------------
  // At most twice the limit in any interval one window long

  /** How many requests for `key` at a time in [from, to] are let through. */
  function Admitted(trace: seq<Request>, decisions: seq<bool>, key: Key, from: int, to: int): nat
    requires |decisions| == |trace|
    decreases |trace|
  {
    if trace == [] then 0
    else (if trace[0].key == key && from <= trace[0].now <= to && decisions[0] then 1 else 0)
         + Admitted(trace[1..], decisions[1..], key, from, to)
  }

  /** Every request for the key uses this limit and window. */
  predicate Constant(trace: seq<Request>, key: Key, limit: int, windowMs: int) {
    forall i :: 0 <= i < |trace| && trace[i].key == key ==>
      trace[i].limit == limit && trace[i].windowMs == windowMs
  }

  function Left(b: Bucket, limit: int): int {
    if b.count < limit then limit - b.count else 0
  }

  /**
    How many more requests from time `now` on can be let through in [from, from + window]: two
    windows' worth before any window reaches past `from`, one more once the window that does has
    expired, and otherwise what that window has left, plus one more if it began by `from`.
   */
  function Budget(m: map<Key, Bucket>, key: Key, limit: int, windowMs: int, from: int, now: int): int {
    if now > from + windowMs then 0
    else if key !in m || m[key].resetAt <= from then 2 * limit
    else if m[key].resetAt <= now then limit
    else if m[key].resetAt - windowMs <= from then Left(m[key], limit) + limit
    else Left(m[key], limit)
  }

  /** The key's bucket was opened by a request with this window, no later than `now`. */
  predicate BucketOk(m: map<Key, Bucket>, key: Key, windowMs: int, now: int) {
    key in m ==> 1 <= m[key].count && m[key].resetAt <= now + windowMs
  }

  lemma BudgetStep(m: map<Key, Bucket>, r: Request, key: Key, limit: int, windowMs: int, from: int, now: int)
    requires 1 <= limit && 0 < windowMs && now <= r.now
    requires r.key == key ==> r.limit == limit && r.windowMs == windowMs
    requires BucketOk(m, key, windowMs, now)
    ensures var (after, ok) := Reference(m, r);
            && BucketOk(after, key, windowMs, r.now)
            && Budget(after, key, limit, windowMs, from, r.now)
               + (if r.key == key && from <= r.now <= from + windowMs && ok then 1 else 0)
               <= Budget(m, key, limit, windowMs, from, now)
  {
  }

  lemma {:induction false} AdmittedWithinBudget(m: map<Key, Bucket>, trace: seq<Request>, key: Key,
                                                limit: int, windowMs: int, from: int, now: int)
    requires 1 <= limit && 0 < windowMs && TimeFrom(now, trace)
    requires Constant(trace, key, limit, windowMs) && BucketOk(m, key, windowMs, now)
    ensures Admitted(trace, ReferenceDecisions(m, trace), key, from, from + windowMs)
            <= Budget(m, key, limit, windowMs, from, now)
    decreases |trace|
  {
    if trace != [] {
      BudgetStep(m, trace[0], key, limit, windowMs, from, now);
      var after := Reference(m, trace[0]).0;
      assert Constant(trace[1..], key, limit, windowMs);
      AdmittedWithinBudget(after, trace[1..], key, limit, windowMs, from, trace[0].now);
      assert ReferenceDecisions(m, trace)[1..] == ReferenceDecisions(after, trace[1..]);
    }
  }

  /**
    From the empty table, on any trace with non-decreasing time and no eviction, a key whose limit
    (at least one) and window never change is let through at most twice its limit in any closed
    interval one window long.
   */
  lemma AtMostTwiceTheLimit(trace: seq<Request>, key: Key, limit: int, windowMs: int, from: int, now: int)
    requires 1 <= limit && 0 < windowMs && TimeFrom(now, trace)
    requires Constant(trace, key, limit, windowMs) && NoEviction(INITIAL, trace)
    ensures Admitted(trace, Decisions(INITIAL, trace), key, from, from + windowMs) <= 2 * limit
  {
    SameDecisions(INITIAL, map[], trace, now);
    AdmittedWithinBudget(map[], trace, key, limit, windowMs, from, now);
  }

  /** The same request `n` times over. */
  function Repeated(r: Request, n: nat): (trace: seq<Request>)
    ensures |trace| == n && forall i :: 0 <= i < n ==> trace[i] == r
  {
    if n == 0 then [] else [r] + Repeated(r, n - 1)
  }

  /** How many of the trace's requests for `key` the reference lets through in [from, to]. */
  function Score(m: map<Key, Bucket>, trace: seq<Request>, key: Key, from: int, to: int): nat
    decreases |trace|
  {
    if trace == [] then 0
    else (if trace[0].key == key && from <= trace[0].now <= to && Reference(m, trace[0]).1 then 1 else 0)
         + Score(Reference(m, trace[0]).0, trace[1..], key, from, to)
  }

  lemma {:induction false} ScoreIsAdmitted(m: map<Key, Bucket>, trace: seq<Request>, key: Key, from: int, to: int)
    ensures Score(m, trace, key, from, to) == Admitted(trace, ReferenceDecisions(m, trace), key, from, to)
    decreases |trace|
  {
    if trace != [] {
      var after := Reference(m, trace[0]).0;
      ScoreIsAdmitted(after, trace[1..], key, from, to);
      assert ReferenceDecisions(m, trace)[1..] == ReferenceDecisions(after, trace[1..]);
    }
  }

  lemma ScoreFirst(m: map<Key, Bucket>, r: Request, rest: seq<Request>, from: int, to: int)
    requires from <= r.now <= to && Reference(m, r).1
    ensures Score(m, [r] + rest, r.key, from, to) == 1 + Score(Reference(m, r).0, rest, r.key, from, to)
  {
    assert ([r] + rest)[1..] == rest;
  }

  lemma RepeatedFirst(r: Request, n: nat, rest: seq<Request>)
    requires n > 0
    ensures Repeated(r, n) + rest == [r] + (Repeated(r, n - 1) + rest)
  {
  }

  lemma Overwritten(m: map<Key, Bucket>, key: Key, first: Bucket, second: Bucket)
    ensures m[key := first][key := second] == m[key := second]
  {
  }

  /** Inside an open window a burst within the limit is let through. */
  lemma {:induction false} BurstScore(m: map<Key, Bucket>, b: Bucket, r: Request, n: nat, rest: seq<Request>,
                                      from: int, to: int)
    requires from <= r.now <= to && b.resetAt > r.now && b.count + n <= r.limit
    ensures Score(m[r.key := b], Repeated(r, n) + rest, r.key, from, to)
         == n + Score(m[r.key := Bucket(b.count + n, b.resetAt)], rest, r.key, from, to)
    decreases n
  {
    if n == 0 {
      assert [] + rest == rest;
    } else {
      var next := Bucket(b.count + 1, b.resetAt);
      RepeatedFirst(r, n, rest);
      Overwritten(m, r.key, b, next);
      ScoreFirst(m[r.key := b], r, Repeated(r, n - 1) + rest, from, to);
      BurstScore(m, next, r, n - 1, rest, from, to);
    }
  }

  /** A burst of as many requests as the limit opens a window and is let through. */
  lemma WindowScore(m: map<Key, Bucket>, r: Request, rest: seq<Request>, from: int, to: int)
    requires 1 <= r.limit && 0 < r.windowMs && from <= r.now <= to
    requires r.key in m ==> m[r.key].resetAt <= r.now
    ensures Score(m, Repeated(r, r.limit) + rest, r.key, from, to)
         == r.limit + Score(m[r.key := Bucket(r.limit, r.now + r.windowMs)], rest, r.key, from, to)
  {
    hide Score, Repeated;
    RepeatedFirst(r, r.limit, rest);
    ScoreFirst(m, r, Repeated(r, r.limit - 1) + rest, from, to);
    BurstScore(m, Bucket(1, r.now + r.windowMs), r, r.limit - 1, rest, from, to);
  }

  /** A trace of one key never fills the table. */
  lemma {:induction false} OneKeyNoEviction(s: State, trace: seq<Request>, key: Key)
    requires ValidState(s) && s.buckets.Keys <= {key} && forall i :: 0 <= i < |trace| ==> trace[i].key == key
    ensures NoEviction(s, trace)
    decreases |trace|
  {
    if trace != [] {
      var swept := Sweep(s, trace[0].now);
      assert swept.buckets.Keys <= {key};
      SubsetSize(swept.buckets.Keys, {key});
      LimitValid(s, trace[0]);
      OneKeyNoEviction(Limit(s, trace[0]).0, trace[1..], key);
    }
  }

  lemma LastWindowScore(m: map<Key, Bucket>, r: Request, from: int, to: int)
    requires 1 <= r.limit && 0 < r.windowMs && from <= r.now <= to
    requires r.key in m ==> m[r.key].resetAt <= r.now
    ensures Score(m, Repeated(r, r.limit), r.key, from, to) == r.limit
  {
    WindowScore(m, r, [], from, to);
    assert Repeated(r, r.limit) + [] == Repeated(r, r.limit);
  }

  lemma TwoWindowsScore(m: map<Key, Bucket>, filled: map<Key, Bucket>, first: Request, second: Request, to: int)
    requires 1 <= first.limit == second.limit && 0 < first.windowMs && 0 < second.windowMs
    requires first.key !in m && second.key == first.key && first.now <= second.now <= to
    requires filled == m[first.key := Bucket(first.limit, first.now + first.windowMs)]
    requires first.now + first.windowMs <= second.now
    ensures Score(m, Repeated(first, first.limit) + Repeated(second, second.limit), first.key, first.now, to)
         == first.limit + second.limit
  {
    hide Score, Repeated;
    var rest := Repeated(second, second.limit);
    LastWindowScore(filled, second, first.now, to);
    WindowScore(m, first, rest, first.now, to);
  }

  lemma BurstsInOrder(first: Request, second: Request)
    requires first.now <= second.now
    ensures forall m: nat, n: nat :: TimeFrom(first.now, Repeated(first, m) + Repeated(second, n))
  {
  }

  lemma TwoWindowsAdmitted(m: map<Key, Bucket>, first: Request, second: Request, trace: seq<Request>)
    requires 1 <= first.limit == second.limit && 0 < first.windowMs && 0 < second.windowMs
    requires first.key !in m && second.key == first.key && second.now == first.now + first.windowMs
    requires trace == Repeated(first, first.limit) + Repeated(second, second.limit)
    ensures Admitted(trace, ReferenceDecisions(m, trace), first.key, first.now, second.now) == 2 * first.limit
  {
    hide Score, Repeated, Admitted, ReferenceDecisions;
    TwoWindowsScore(m, m[first.key := Bucket(first.limit, second.now)], first, second, second.now);
    ScoreIsAdmitted(m, trace, first.key, first.now, second.now);
  }

  /**
    The factor two is reached for every limit and window: a burst as a window opens and another
    as it resets.
   */
  lemma TwiceIsReached(key: Key, limit: int, windowMs: int, from: int)
    requires 1 <= limit && 0 < windowMs
    ensures var second := Request(key, limit, windowMs, from + windowMs);
            var trace := Repeated(Request(key, limit, windowMs, from), limit) + Repeated(second, limit);
            && TimeFrom(from, trace) && NoEviction(INITIAL, trace)
            && Admitted(trace, Decisions(INITIAL, trace), key, from, from + windowMs) == 2 * limit
  {
    hide TimeFrom, Repeated, NoEviction, Admitted;
    var first, second := Request(key, limit, windowMs, from), Request(key, limit, windowMs, from + windowMs);
    var trace := Repeated(first, limit) + Repeated(second, limit);
    BurstsInOrder(first, second);
    OneKeyNoEviction(INITIAL, trace, key);
    TwoWindowsAdmitted(map[], first, second, trace);
    SameDecisions(INITIAL, map[], trace, from);
  }

  /** Deleting from the insertion order. */
  function RemoveAt(order: seq<Key>, i: nat): (r: seq<Key>)
    requires i < |order|
    ensures |r| == |order| - 1 && r[..i] == order[..i] && r[i..] == order[i + 1..]
  {
    order[..i] + order[i + 1..]
  }

  /** After visiting the first `i` keys: the survivors among them, then the keys not yet visited. */
  ghost predicate Visited(keys: seq<Key>, all: map<Key, Bucket>, now: int, i: nat, kept: nat,
                          order: seq<Key>, buckets: map<Key, Bucket>)
    requires i <= |keys| && forall k :: k in keys ==> k in all
  {
    && kept <= |order|
    && order[..kept] == Unexpired(keys[..i], all, now) && order[kept..] == keys[i..]
    && (forall k :: k in buckets <==> k in all && !(k in keys[..i] && all[k].resetAt <= now))
    && (forall k :: k in buckets ==> buckets[k] == all[k])
  }

  lemma ValidKeys(s: State)
    requires ValidState(s)
    ensures Distinct(s.order) && forall k :: k in s.order <==> k in s.buckets
  {
  }

  lemma VisitNone(keys: seq<Key>, all: map<Key, Bucket>, now: int)
    requires forall k :: k in keys <==> k in all
    ensures Visited(keys, all, now, 0, 0, keys, all)
  {
    assert keys[..0] == [];
  }

  lemma VisitedAll(keys: seq<Key>, all: map<Key, Bucket>, now: int, order: seq<Key>, buckets: map<Key, Bucket>)
    requires forall k :: k in keys <==> k in all
    requires Visited(keys, all, now, |keys|, |order|, order, buckets)
    ensures order == Unexpired(keys, all, now)
    ensures buckets == map k | k in all && all[k].resetAt > now :: all[k]
  {
    assert keys[..|keys|] == keys && order[..|order|] == order;
  }

  lemma VisitNext(keys: seq<Key>, all: map<Key, Bucket>, now: int, i: nat, kept: nat,
                  order: seq<Key>, buckets: map<Key, Bucket>)
    requires i < |keys| && Distinct(keys) && forall k :: k in keys ==> k in all
    requires Visited(keys, all, now, i, kept, order, buckets)
    ensures kept < |order| && order[kept] == keys[i] && keys[i] in buckets && buckets[keys[i]] == all[keys[i]]
    ensures if all[keys[i]].resetAt <= now
            then Visited(keys, all, now, i + 1, kept, RemoveAt(order, kept), buckets - {keys[i]})
            else Visited(keys, all, now, i + 1, kept + 1, order, buckets)
  {
    var k := keys[i];
    assert order[kept..][0] == k;
    assert keys[..i + 1] == keys[..i] + [k] && keys[..i + 1][..i] == keys[..i];
    assert order[kept + 1..] == order[kept..][1..] == keys[i + 1..];
    assert order[..kept + 1] == order[..kept] + [k];
  }

  // ---------------------------------------------------------------------------
  // The limiter itself, updated in place

  /** The table without the first `n` of some keys. */
  function Without(buckets: map<Key, Bucket>, keys: seq<Key>, n: nat): map<Key, Bucket>
    requires n <= |keys|
  {
    buckets - (set k | k in keys[..n])
  }

  lemma WithoutNext(buckets: map<Key, Bucket>, keys: seq<Key>, n: nat)
    requires n < |keys|
    ensures Without(buckets, keys, n + 1) == Without(buckets, keys, n) - {keys[n]}
  {
    assert keys[..n + 1] == keys[..n] + [keys[n]];
  }

  class Limiter {
    var buckets: map<Key, Bucket>
    var order: seq<Key>
    var lastSweep: int

    ghost function View(): State reads this {
      State(buckets, order, lastSweep)
    }

    ghost predicate Valid() reads this {
      ValidState(View())
    }

    constructor ()
      ensures Valid() && View() == INITIAL
    {
      buckets, order, lastSweep := map[], [], 0;
    }

    /** The body of the sweep: visit every key in order and delete the expired ones. */
    method DropExpired(now: int)
      requires Valid()
      modifies this`buckets, this`order
      ensures buckets == old(map k | k in buckets && buckets[k].resetAt > now :: buckets[k])
      ensures order == Unexpired(old(order), old(buckets), now)
    {
      hide Visited, Unexpired, Distinct, ValidState;
      ghost var keys, all := order, buckets;
      var i, kept := 0, 0;
      ValidKeys(View());
      VisitNone(keys, all, now);
      while kept < |order|
        invariant 0 <= kept <= |order| && i + |order| - kept == |keys| && 0 <= i
        invariant Visited(keys, all, now, i, kept, order, buckets)
        decreases |order| - kept
      {
        VisitNext(keys, all, now, i, kept, order, buckets);
        if buckets[order[kept]].resetAt <= now {
          buckets := buckets - {order[kept]};
          order := RemoveAt(order, kept);
        } else {
          kept := kept + 1;
        }
        i := i + 1;
      }
      VisitedAll(keys, all, now, order, buckets);
    }

    /** Delete the oldest keys, up to a tenth of the capacity. */
    method DropOldest()
      requires Valid()
      modifies this`buckets, this`order
      ensures View() == Evict(old(View()))
    {
      var remove := EVICT_COUNT;
      ghost var n := 0;
      ghost var was, keys := buckets, order;
      while order != [] && remove > 0
        invariant 0 <= n <= |keys| && remove == EVICT_COUNT - n >= 0
        invariant order == keys[n..]
        invariant buckets == Without(was, keys, n)
      {
        WithoutNext(was, keys, n);
        buckets := buckets - {order[0]};
        order := order[1..];
        remove := remove - 1;
        n := n + 1;
      }
      assert keys[..n] == Oldest(keys);
    }

    /** The opportunistic sweep, at most once a minute. */
    method SweepIfDue(now: int)
      requires Valid()
      modifies this
      ensures View() == Sweep(old(View()), now)
    {
      if now - lastSweep > SWEEP_INTERVAL {
        lastSweep := now;
        DropExpired(now);
      }
    }

    /** Open a window for the key, making room for a new key when the table is full. */
    method Open(key: Key, resetAt: int)
      requires Valid()
      modifies this`buckets, this`order
      ensures View()
           == Insert(if Full(old(View()), key) then Evict(old(View())) else old(View()), key, Bucket(1, resetAt))
    {
      if key !in buckets && |buckets| >= MAX_BUCKETS { DropOldest(); }
      if key !in buckets { order := order + [key]; }
      buckets := buckets[key := Bucket(1, resetAt)];
    }

    /** One rate-limited call; `ok` is false where the source answers 429. */
    method Check(key: Key, limit: int, windowMs: int, now: int) returns (ok: bool)
      requires Valid()
      modifies this
      ensures Valid()
      ensures (View(), ok) == Limit(old(View()), Request(key, limit, windowMs, now))
    {
      hide Sweep, Evict, ValidState;
      LimitValid(View(), Request(key, limit, windowMs, now));
      SweepValid(View(), now);
      SweepIfDue(now);
      if key !in buckets || buckets[key].resetAt <= now {
        Open(key, now + windowMs);
        ok := true;
      } else {
        var b := buckets[key];
        buckets := buckets[key := Bucket(b.count + 1, b.resetAt)];
        ok := b.count + 1 <= limit;
      }
    }
  }
}
