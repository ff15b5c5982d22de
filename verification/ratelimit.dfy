/** The rate limit of one client address (internal/middleware/ratelimit.go): a counter in
    Redis that the first request of a window gives a lifetime of one minute.  INCR and
    EXPIRE are separate commands, so other requests run between them, and EXPIRE may be
    lost.  `limit` is requestsPerMinute. */
module RateLimits {
  import opened Tasks

  const MINUTE: int := 60 * SECOND

  datatype Counter = Counter(count: nat, expiry: Option<int>)

  predicate Alive(k: Option<Counter>, now: int) {
    k.Some? && (k.value.expiry.Some? ==> now < k.value.expiry.value)
  }

  /** INCR: a key that is missing or has expired starts over at one, without expiry. */
  function Incr(k: Option<Counter>, now: int): Counter {
    if Alive(k, now) then k.value.(count := k.value.count + 1) else Counter(1, None)
  }

  /** EXPIRE: no effect on a key that is gone. */
  function Expire(k: Option<Counter>, now: int): Option<Counter> {
    if Alive(k, now) then Some(k.value.(expiry := Some(now + MINUTE))) else k
  }

  /** A request let through at `time`, counted in lifetime number `life` of the key. */
  datatype Admit = Admit(time: int, life: nat)

  /** `pending` requests have read a count of one and not sent EXPIRE yet; `starts` lists
      when each lifetime of the key began. */
  datatype State = State(key: Option<Counter>, pending: nat, starts: seq<int>, admits: seq<Admit>, now: int)

  datatype Event = Request(time: int) | SetExpiry(time: int) | LoseExpiry(time: int)

  function LatestLife(starts: seq<int>): nat {
    if starts == [] then 0 else |starts| - 1
  }

  function Fresh(now: int): State {
    State(None, 0, [], [], now)
  }

  predicate Enabled(s: State, e: Event) {
    s.now <= e.time && (!e.Request? ==> s.pending > 0)
  }

  function Apply(limit: int, s: State, e: Event): State
    requires Enabled(s, e)
  {
    match e
    case Request(t) =>
      var k := Incr(s.key, t);
      var starts := if k.count == 1 then s.starts + [t] else s.starts;
      State(Some(k), if k.count == 1 then s.pending + 1 else s.pending, starts,
            if k.count > limit then s.admits else s.admits + [Admit(t, LatestLife(starts))], t)
    case SetExpiry(t) => s.(key := Expire(s.key, t), pending := s.pending - 1, now := t)
    case LoseExpiry(t) => s.(pending := s.pending - 1, now := t)
  }

  predicate ValidRun(limit: int, s: State, es: seq<Event>)
    decreases |es|
  {
    es == [] || (Enabled(s, es[0]) && ValidRun(limit, Apply(limit, s, es[0]), es[1..]))
  }

  function Run(limit: int, s: State, es: seq<Event>): State
    requires ValidRun(limit, s, es)
    decreases |es|
  {
    if es == [] then s else Run(limit, Apply(limit, s, es[0]), es[1..])
  }

  // ----- Lifetimes -----

  function Quota(limit: int): nat {
    if limit > 0 then limit else 0
  }

  function Least(a: nat, b: nat): nat {
    if a < b then a else b
  }

  /** How many requests lifetime `k` let through. */
  function InLife(admits: seq<Admit>, k: nat): nat {
    if admits == [] then 0
    else InLife(admits[..|admits| - 1], k) + if admits[|admits| - 1].life == k then 1 else 0
  }

  ghost predicate KeyInOrder(s: State) {
    && (s.key.None? <==> s.starts == [])
    && (s.pending > 0 ==> s.pending == 1 && s.key.Some? && s.key.value.expiry.None?)
    && (s.key.Some? ==> s.key.value.count >= 1 && s.starts[|s.starts| - 1] <= s.now)
    && (s.key.Some? && s.key.value.expiry.Some? ==> s.key.value.expiry.value >= s.starts[|s.starts| - 1] + MINUTE)
  }

  /** Lifetimes begin a minute or more apart. */
  ghost predicate Spaced(starts: seq<int>) {
    forall k :: 0 < k < |starts| ==> starts[k] - starts[k - 1] >= MINUTE
  }

  /** Requests are let through during their lifetime. */
  ghost predicate AdmitsInOrder(s: State) {
    forall a :: a in s.admits ==>
      && a.life < |s.starts| && s.starts[a.life] <= a.time <= s.now
      && (a.life + 1 < |s.starts| ==> a.time <= s.starts[a.life + 1])
  }

  ghost predicate WithinQuota(limit: int, s: State) {
    && (forall k: nat :: InLife(s.admits, k) <= Quota(limit))
    && (s.key.Some? ==> InLife(s.admits, LatestLife(s.starts)) == Least(s.key.value.count, Quota(limit)))
  }

  /** The request that begins a lifetime is let through. */
  ghost predicate StartsAdmitted(limit: int, s: State) {
    limit >= 1 ==> forall k :: 0 <= k < |s.starts| ==> Admit(s.starts[k], k) in s.admits
  }

  ghost predicate Good(limit: int, s: State) {
    KeyInOrder(s) && Spaced(s.starts) && AdmitsInOrder(s) && WithinQuota(limit, s) && StartsAdmitted(limit, s)
  }

  lemma {:induction false} NoneInLaterLife(s: State, admits: seq<Admit>, k: nat)
    requires AdmitsInOrder(s) && (forall a :: a in admits ==> a in s.admits) && k >= |s.starts|
    ensures InLife(admits, k) == 0
    decreases |admits|
  {
    if admits != [] {
      assert admits[|admits| - 1] in admits;
      NoneInLaterLife(s, admits[..|admits| - 1], k);
    }
  }

  lemma InLifeSnoc(admits: seq<Admit>, a: Admit, k: nat)
    ensures InLife(admits + [a], k) == InLife(admits, k) + if a.life == k then 1 else 0
  {
  }

  lemma RequestKeepsQuota(limit: int, s: State, t: int)
    requires KeyInOrder(s) && AdmitsInOrder(s) && WithinQuota(limit, s) && s.now <= t
    ensures WithinQuota(limit, Apply(limit, s, Request(t)))
  {
    var count, s' := Incr(s.key, t).count, Apply(limit, s, Request(t));
    var life := LatestLife(s'.starts);
    if count == 1 { NoneInLaterLife(s, s.admits, life); }
    hide AdmitsInOrder;
    if count <= limit {
      forall k: nat ensures InLife(s'.admits, k) <= Quota(limit) { InLifeSnoc(s.admits, Admit(t, life), k); }
      InLifeSnoc(s.admits, Admit(t, life), life);
    }
  }

  lemma StepKeepsStarts(limit: int, s: State, e: Event)
    requires KeyInOrder(s) && StartsAdmitted(limit, s) && Enabled(s, e)
    ensures StartsAdmitted(limit, Apply(limit, s, e))
  {
  }

  lemma ExpiryKeepsQuota(limit: int, s: State, e: Event)
    requires WithinQuota(limit, s) && Enabled(s, e) && !e.Request?
    ensures WithinQuota(limit, Apply(limit, s, e))
  {
  }

  lemma StepKeepsKey(limit: int, s: State, e: Event)
    requires KeyInOrder(s) && Enabled(s, e)
    ensures KeyInOrder(Apply(limit, s, e))
  {
  }

  lemma StepKeepsSpaced(limit: int, s: State, e: Event)
    requires KeyInOrder(s) && Spaced(s.starts) && Enabled(s, e)
    ensures Spaced(Apply(limit, s, e).starts)
  {
  }

  lemma StepKeepsAdmits(limit: int, s: State, e: Event)
    requires KeyInOrder(s) && AdmitsInOrder(s) && Enabled(s, e)
    ensures AdmitsInOrder(Apply(limit, s, e))
  {
  }

  lemma StepKeepsGood(limit: int, s: State, e: Event)
    requires Good(limit, s) && Enabled(s, e)
    ensures Good(limit, Apply(limit, s, e))
  {
    hide Apply, KeyInOrder, Spaced, AdmitsInOrder, WithinQuota, StartsAdmitted;
    StepKeepsStarts(limit, s, e);
    StepKeepsKey(limit, s, e);
    StepKeepsSpaced(limit, s, e);
    StepKeepsAdmits(limit, s, e);
    if e.Request? {
      RequestKeepsQuota(limit, s, e.time);
    } else {
      ExpiryKeepsQuota(limit, s, e);
    }
  }

  lemma {:induction false} RunKeepsGood(limit: int, s: State, es: seq<Event>)
    requires Good(limit, s) && ValidRun(limit, s, es)
    ensures Good(limit, Run(limit, s, es))
    decreases |es|
  {
    if es != [] {
      StepKeepsGood(limit, s, es[0]);
      RunKeepsGood(limit, Apply(limit, s, es[0]), es[1..]);
    }
  }

  // ----- Windows -----

  predicate InWindow(a: Admit, from: int, length: int) {
    from <= a.time < from + length
  }

  /** How many requests were let through from `from` on, for `length`. */
  function CountIn(admits: seq<Admit>, from: int, length: int): nat {
    if admits == [] then 0
    else CountIn(admits[..|admits| - 1], from, length) + if InWindow(admits[|admits| - 1], from, length) then 1 else 0
  }

  function InLives(admits: seq<Admit>, lo: nat, hi: nat): nat
    requires lo <= hi
    decreases hi
  {
    InLife(admits, hi) + if lo < hi then InLives(admits, lo, hi - 1) else 0
  }

  lemma {:induction false} InLivesSnoc(admits: seq<Admit>, a: Admit, lo: nat, hi: nat)
    requires lo <= hi
    ensures InLives(admits + [a], lo, hi) == InLives(admits, lo, hi) + if lo <= a.life <= hi then 1 else 0
    decreases hi
  {
    assert (admits + [a])[..|admits|] == admits;
    if lo < hi { InLivesSnoc(admits, a, lo, hi - 1); }
  }

  lemma {:induction false} NoneInLives(lo: nat, hi: nat)
    requires lo <= hi
    ensures InLives([], lo, hi) == 0
    decreases hi
  {
    if lo < hi { NoneInLives(lo, hi - 1); }
  }

  lemma {:induction false} InLivesBound(admits: seq<Admit>, lo: nat, hi: nat, quota: nat)
    requires lo <= hi && forall k: nat :: InLife(admits, k) <= quota
    ensures InLives(admits, lo, hi) <= (hi - lo + 1) * quota
    decreases hi
  {
    if lo < hi {
      InLivesBound(admits, lo, hi - 1, quota);
      assert (hi - lo + 1) * quota == (hi - 1 - lo + 1) * quota + quota;
    }
  }

  lemma {:induction false} WindowIsInLives(admits: seq<Admit>, from: int, length: int, lo: nat, hi: nat)
    requires lo <= hi && forall a :: a in admits && InWindow(a, from, length) ==> lo <= a.life <= hi
    ensures CountIn(admits, from, length) <= InLives(admits, lo, hi)
    decreases |admits|
  {
    if admits == [] {
      NoneInLives(lo, hi);
    } else {
      var front, last := admits[..|admits| - 1], admits[|admits| - 1];
      assert admits == front + [last];
      WindowIsInLives(front, from, length, lo, hi);
      InLivesSnoc(front, last, lo, hi);
    }
  }

  lemma {:induction false} NoneInWindow(admits: seq<Admit>, from: int, length: int)
    requires forall a :: a in admits ==> !InWindow(a, from, length)
    ensures CountIn(admits, from, length) == 0
    decreases |admits|
  {
    if admits != [] {
      assert admits[|admits| - 1] in admits;
      NoneInWindow(admits[..|admits| - 1], from, length);
    }
  }

  lemma {:induction false} StartsApart(starts: seq<int>, i: nat, j: nat)
    requires Spaced(starts) && i <= j < |starts|
    ensures starts[j] - starts[i] >= (j - i) * MINUTE
    decreases j
  {
    if i < j { StartsApart(starts, i, j - 1); }
  }

  /** Two requests of one window are at most so many lifetimes apart. */
  lemma LivesApart(s: State, a: Admit, b: Admit, from: int, length: int)
    requires Spaced(s.starts) && AdmitsInOrder(s) && a in s.admits && b in s.admits
    requires InWindow(a, from, length) && InWindow(b, from, length) && a.life < b.life
    ensures b.life - a.life <= (length - 1) / MINUTE + 1
  {
    StartsApart(s.starts, a.life + 1, b.life);
    assert (b.life - a.life - 1) * MINUTE <= length - 1;
  }

  /** The request of least (or greatest) lifetime inside a window. */
  lemma {:induction false} ExtremeLives(admits: seq<Admit>, from: int, length: int) returns (lo: Admit, hi: Admit)
    requires exists a :: a in admits && InWindow(a, from, length)
    ensures lo in admits && hi in admits && InWindow(lo, from, length) && InWindow(hi, from, length)
    ensures forall a :: a in admits && InWindow(a, from, length) ==> lo.life <= a.life <= hi.life
    decreases |admits|
  {
    var front, last := admits[..|admits| - 1], admits[|admits| - 1];
    assert admits == front + [last];
    if exists a :: a in front && InWindow(a, from, length) {
      lo, hi := ExtremeLives(front, from, length);
      if InWindow(last, from, length) {
        if last.life < lo.life { lo := last; }
        if last.life > hi.life { hi := last; }
      }
    } else {
      lo, hi := last, last;
    }
  }

  /** The window misses a request of these lifetimes. */
  lemma {:induction false} WindowMissesOne(admits: seq<Admit>, from: int, length: int, lo: nat, hi: nat, a: Admit)
    requires lo <= hi && forall x :: x in admits && InWindow(x, from, length) ==> lo <= x.life <= hi
    requires a in admits && lo <= a.life <= hi && !InWindow(a, from, length)
    ensures CountIn(admits, from, length) + 1 <= InLives(admits, lo, hi)
    decreases |admits|
  {
    var front, last := admits[..|admits| - 1], admits[|admits| - 1];
    assert admits == front + [last];
    InLivesSnoc(front, last, lo, hi);
    if last == a {
      WindowIsInLives(front, from, length, lo, hi);
    } else {
      WindowMissesOne(front, from, length, lo, hi, a);
    }
  }

  /** The most that a stretch of this length can let through. */
  function Most(limit: int, length: int): nat
    requires length > 0
  {
    if limit <= 0 then 0 else MostFor(limit, length)
  }

  function MostFor(limit: int, length: int): nat
    requires limit > 0 && length > 0
  {
    MulMonotone(2, (length - 1) / MINUTE + 2, limit);
    ((length - 1) / MINUTE + 2) * limit - 1
  }

  /** Main result, for every interleaving of requests from one address, with EXPIREs
      delayed or lost: each lifetime of the key lets at most `limit` requests through, a
      new lifetime begins a minute or more after the last, and so any stretch of time lets
      through at most `limit` per started minute, plus `limit` - 1 once. */
  lemma WindowIsBounded(limit: int, begin: int, es: seq<Event>, from: int, length: int)
    requires ValidRun(limit, Fresh(begin), es) && length > 0
    ensures var s := Run(limit, Fresh(begin), es);
            && (forall k: nat :: InLife(s.admits, k) <= Quota(limit)) && Spaced(s.starts)
            && CountIn(s.admits, from, length) <= Most(limit, length)
  {
    RunKeepsGood(limit, Fresh(begin), es);
    WindowOfGood(limit, Run(limit, Fresh(begin), es), from, length);
  }

  lemma WindowOfGood(limit: int, s: State, from: int, length: int)
    requires Good(limit, s) && length > 0
    ensures CountIn(s.admits, from, length) <= Most(limit, length)
  {
    hide CountIn, KeyInOrder, Spaced, StartsAdmitted, InLives, MostFor;
    if exists a :: a in s.admits && InWindow(a, from, length) {
      var lo, hi := ExtremeLives(s.admits, from, length);
      WindowIsInLives(s.admits, from, length, lo.life, hi.life);
      InLivesBound(s.admits, lo.life, hi.life, Quota(limit));
      assert lo.life < |s.starts|;
      hide AdmitsInOrder, WithinQuota;
      if limit > 0 {
        if InWindow(Admit(s.starts[lo.life], lo.life), from, length) {
          StartInWindow(limit, s, from, length, lo, hi);
        } else {
          StartBeforeWindow(limit, s, from, length, lo, hi);
        }
      }
    } else {
      NoneInWindow(s.admits, from, length);
    }
  }

  lemma FewLives(apart: nat, limit: int, length: int, count: nat)
    requires limit > 0 && apart * MINUTE <= length - 1 && count <= (apart + 1) * limit
    ensures count <= MostFor(limit, length)
  {
    var most := (length - 1) / MINUTE + 1;
    MulMonotone(apart + 1, most, limit);
    assert (most + 1) * limit == most * limit + limit;
  }

  lemma ManyLives(apart: nat, limit: int, length: int, count: nat)
    requires limit > 0 && length > 0 && apart <= (length - 1) / MINUTE + 1 && count + 1 <= (apart + 1) * limit
    ensures count <= MostFor(limit, length)
  {
    MulMonotone(apart + 1, (length - 1) / MINUTE + 2, limit);
  }

  /** The earliest lifetime of the window begins inside it: one lifetime fewer fits. */
  lemma StartInWindow(limit: int, s: State, from: int, length: int, lo: Admit, hi: Admit)
    requires Good(limit, s) && limit > 0 && length > 0 && lo in s.admits && hi in s.admits && lo.life <= hi.life
    requires InWindow(hi, from, length) && InWindow(Admit(s.starts[lo.life], lo.life), from, length)
    requires CountIn(s.admits, from, length) <= (hi.life - lo.life + 1) * Quota(limit)
    ensures CountIn(s.admits, from, length) <= MostFor(limit, length)
  {
    hide CountIn, InLife, MostFor, WithinQuota, StartsAdmitted, KeyInOrder;
    StartsApart(s.starts, lo.life, hi.life);
    FewLives(hi.life - lo.life, limit, length, CountIn(s.admits, from, length));
  }

  lemma LivesWithin(s: State, lo: Admit, hi: Admit, from: int, length: int)
    requires Spaced(s.starts) && AdmitsInOrder(s) && lo in s.admits && hi in s.admits && lo.life <= hi.life
    requires InWindow(lo, from, length) && InWindow(hi, from, length) && length > 0
    ensures hi.life - lo.life <= (length - 1) / MINUTE + 1
  {
    if lo.life < hi.life { LivesApart(s, lo, hi, from, length); }
    hide Spaced, AdmitsInOrder, InWindow;
    assert (length - 1) / MINUTE >= 0;
  }

  /** It begins before: its first request is outside. */
  lemma StartBeforeWindow(limit: int, s: State, from: int, length: int, lo: Admit, hi: Admit)
    requires Good(limit, s) && limit > 0 && length > 0 && lo in s.admits && hi in s.admits && lo.life <= hi.life
    requires InWindow(lo, from, length) && InWindow(hi, from, length)
    requires forall a :: a in s.admits && InWindow(a, from, length) ==> lo.life <= a.life <= hi.life
    requires !InWindow(Admit(s.starts[lo.life], lo.life), from, length)
    ensures CountIn(s.admits, from, length) <= MostFor(limit, length)
  {
    hide CountIn, InLife, InLives, MostFor, KeyInOrder;
    assert Admit(s.starts[lo.life], lo.life) in s.admits;
    WindowMissesOne(s.admits, from, length, lo.life, hi.life, Admit(s.starts[lo.life], lo.life));
    InLivesBound(s.admits, lo.life, hi.life, Quota(limit));
    LivesWithin(s, lo, hi, from, length);
    hide Good, Spaced, AdmitsInOrder, WithinQuota, StartsAdmitted, InWindow;
    ManyLives(hi.life - lo.life, limit, length, CountIn(s.admits, from, length));
  }

  lemma MulMonotone(a: nat, b: nat, c: nat)
    requires a <= b
    ensures a * c <= b * c
  {
  }

  // ----- The promise of a limit per minute -----

  function Many<T>(x: T, k: nat): seq<T> {
    if k == 0 then [] else Many(x, k - 1) + [x]
  }

  lemma {:induction false} CountInMany(admits: seq<Admit>, a: Admit, k: nat, from: int, length: int)
    ensures CountIn(admits + Many(a, k), from, length)
         == CountIn(admits, from, length) + if InWindow(a, from, length) then k else 0
  {
    if k == 0 {
      assert admits + [] == admits;
    } else {
      var more := admits + Many(a, k - 1);
      assert admits + Many(a, k) == more + [a] && (more + [a])[..|more|] == more;
      CountInMany(admits, a, k - 1, from, length);
    }
  }

  lemma RunSnoc(limit: int, s: State, es: seq<Event>, e: Event)
    requires ValidRun(limit, s, es) && Enabled(Run(limit, s, es), e)
    ensures ValidRun(limit, s, es + [e]) && Run(limit, s, es + [e]) == Apply(limit, Run(limit, s, es), e)
    decreases |es|
  {
    if es == [] {
      assert [e][1..] == [] && es + [e] == [e];
    } else {
      assert (es + [e])[1..] == es[1..] + [e];
      RunSnoc(limit, Apply(limit, s, es[0]), es[1..], e);
    }
  }

  /** `k` more requests at time `t`, within the quota of a lifetime that is under way. */
  lemma {:induction false} Burst(limit: int, begin: State, es: seq<Event>, t: int, k: nat) returns (more: seq<Event>)
    requires ValidRun(limit, begin, es)
    requires var s := Run(limit, begin, es);
             s.now <= t && Alive(s.key, t) && s.key.value.count >= 1 && s.key.value.count + k <= limit
    ensures ValidRun(limit, begin, more)
    ensures var s := Run(limit, begin, es);
            Run(limit, begin, more) == s.(
              key := Some(Counter(s.key.value.count + k, s.key.value.expiry)),
              admits := s.admits + Many(Admit(t, LatestLife(s.starts)), k),
              now := if k == 0 then s.now else t)
    decreases k
  {
    var s := Run(limit, begin, es);
    if k == 0 {
      assert s.admits + [] == s.admits;
      more := es;
    } else {
      more := Burst(limit, begin, es, t, k - 1);
      var a := Admit(t, LatestLife(s.starts));
      assert s.admits + Many(a, k - 1) + [a] == s.admits + Many(a, k);
      RunSnoc(limit, begin, more, Request(t));
      more := more + [Request(t)];
    }
  }

  /** One request opens a lifetime and sets its expiry. */
  lemma Opening(limit: int, begin: State, es: seq<Event>, t: int) returns (more: seq<Event>)
    requires ValidRun(limit, begin, es) && limit >= 1
    requires var s := Run(limit, begin, es); s.now <= t && !Alive(s.key, t) && s.pending == 0
    ensures ValidRun(limit, begin, more)
    ensures var s := Run(limit, begin, es);
            Run(limit, begin, more) == State(Some(Counter(1, Some(t + MINUTE))), 0, s.starts + [t],
                                             s.admits + [Admit(t, |s.starts|)], t)
  {
    RunSnoc(limit, begin, es, Request(t));
    more := es + [Request(t)];
    RunSnoc(limit, begin, more, SetExpiry(t));
    more := more + [SetExpiry(t)];
  }

  /** The bound is reached: with a limit of two or more, a run that lets 2 * limit - 1
      requests through within one minute, at the end of one lifetime and the start of the
      next. */
  lemma MinuteBoundIsReached(limit: int) returns (es: seq<Event>)
    requires limit >= 2
    ensures ValidRun(limit, Fresh(0), es)
    ensures CountIn(Run(limit, Fresh(0), es).admits, 59 * SECOND, 60 * SECOND) == 2 * limit - 1
    ensures Most(limit, 60 * SECOND) == 2 * limit - 1
  {
    es := TwoBurstsRun(limit);
    hide ValidRun, Run, CountIn;
    assert MINUTE == 60 * SECOND;
  }

  lemma TwoBurstsRun(limit: int) returns (es: seq<Event>)
    requires limit >= 2
    ensures ValidRun(limit, Fresh(0), es)
    ensures CountIn(Run(limit, Fresh(0), es).admits, 59 * SECOND, MINUTE) == 2 * limit - 1 == Most(limit, MINUTE)
  {
    hide ValidRun, Run;
    var late := 59 * SECOND;
    RunEmpty(limit, Fresh(0));
    es := Opening(limit, Fresh(0), [], 0);
    es := Burst(limit, Fresh(0), es, late, limit - 1);
    es := Opening(limit, Fresh(0), es, MINUTE);
    es := Burst(limit, Fresh(0), es, MINUTE, limit - 1);
    TwoBursts(limit - 1);
    assert [] + [Admit(0, 0)] == [Admit(0, 0)];
    hide Many, CountIn;
  }

  lemma TwoBursts(k: nat)
    ensures CountIn([Admit(0, 0)] + Many(Admit(59 * SECOND, 0), k) + [Admit(MINUTE, 1)] + Many(Admit(MINUTE, 1), k),
                    59 * SECOND, MINUTE) == 2 * k + 1
  {
    var late, a, b, c := 59 * SECOND, Admit(0, 0), Admit(59 * SECOND, 0), Admit(MINUTE, 1);
    CountInMany([a] + Many(b, k) + [c], c, k, late, MINUTE);
    CountInMany([a] + Many(b, k), c, 1, late, MINUTE);
    assert Many(c, 1) == [c] by { assert Many(c, 0) == []; }
    CountInMany([a], b, k, late, MINUTE);
    assert [a][..0] == [] && CountIn([a], late, MINUTE) == 0;
  }

  lemma RunEmpty(limit: int, s: State)
    ensures ValidRun(limit, s, []) && Run(limit, s, []) == s
  {
  }

  ghost predicate KeepsPromise(limit: int, begin: int, es: seq<Event>, from: int) {
    ValidRun(limit, Fresh(begin), es) ==>
      CountIn(Run(limit, Fresh(begin), es).admits, from, 60 * SECOND) <= Quota(limit)
  }

  /** "At most N requests per minute" is kept in every run and every minute exactly when
      the limit is one, or lets nothing through. */
  lemma PerMinutePromiseIff(limit: int)
    ensures (forall begin, es, from :: KeepsPromise(limit, begin, es, from)) <==> limit <= 1
  {
    if limit <= 1 {
      forall begin, es, from ensures KeepsPromise(limit, begin, es, from) {
        if ValidRun(limit, Fresh(begin), es) { WindowIsBounded(limit, begin, es, from, MINUTE); }
      }
    } else {
      var es := MinuteBoundIsReached(limit);
      assert !KeepsPromise(limit, 0, es, 59 * SECOND);
    }
  }

  /** The key has no expiry and nobody is going to set one: EXPIRE was lost. */
  predicate Stuck(s: State) {
    s.pending == 0 && s.key.Some? && s.key.value.expiry.None? && s.key.value.count >= 1
  }

  /** Then the window never ends: in every continuation the requests let through stay
      within what the quota had left, for ever. */
  lemma {:induction false} LostExpiryBlocks(limit: int, s: State, es: seq<Event>)
    requires Stuck(s) && ValidRun(limit, s, es)
    ensures var left := if Quota(limit) > s.key.value.count then Quota(limit) - s.key.value.count else 0;
            Stuck(Run(limit, s, es)) && |Run(limit, s, es).admits| <= |s.admits| + left
    decreases |es|
  {
    if es != [] {
      LostExpiryBlocks(limit, Apply(limit, s, es[0]), es[1..]);
    }
  }

  // ----- The middleware -----

  datatype Decision =
    | Unlimited
    | Allowed(remaining: int)
    | TooManyRequests(resetAt: Option<int>)

  /** The Redis keys "ratelimit:<address>". */
  class Limiter {
    const enabled: bool
    const limit: int
    var keys: map<string, Counter>

    function Key(ip: string): Option<Counter>
      reads this
    {
      if ip in keys then Some(keys[ip]) else None
    }

    constructor (enabled: bool, limit: int)
      ensures this.enabled == enabled && this.limit == limit && keys == map[]
    {
      this.enabled, this.limit, keys := enabled, limit, map[];
    }

    method IncrKey(ip: string, now: int) returns (count: nat)
      modifies this
      ensures keys == old(keys)[ip := Incr(old(Key(ip)), now)] && count == keys[ip].count
    {
      if ip in keys && (keys[ip].expiry.Some? ==> now < keys[ip].expiry.value) {
        count := keys[ip].count + 1;
        keys := keys[ip := keys[ip].(count := count)];
      } else {
        count := 1;
        keys := keys[ip := Counter(1, None)];
      }
    }

    method ExpireKey(ip: string, now: int)
      modifies this
      ensures Key(ip) == Expire(old(Key(ip)), now)
      ensures forall other :: other != ip ==> Key(other) == old(Key(other))
    {
      if Alive(Key(ip), now) { keys := keys[ip := keys[ip].(expiry := Some(now + MINUTE))]; }
    }

    /** One request that no other overlaps.  `redisUp` says whether INCR succeeds; when it
        does not, the request passes uncounted. */
    method Handle(ip: string, redisUp: bool, now: int) returns (d: Decision)
      modifies this
      ensures d.Unlimited? <==> !enabled || !redisUp
      ensures d.Unlimited? ==> keys == old(keys)
      ensures forall other :: other != ip ==> Key(other) == old(Key(other))
      ensures !d.Unlimited? ==> var k := Incr(old(Key(ip)), now);
                                && Key(ip) == (if k.count == 1 then Expire(Some(k), now) else Some(k))
                                && (d.Allowed? <==> k.count <= limit)
                                && (d.Allowed? ==> d.remaining == limit - k.count >= 0)
                                && (d.TooManyRequests? ==> d.resetAt == Key(ip).value.expiry)
    {
      if !enabled || !redisUp { return Unlimited; }
      var count := IncrKey(ip, now);
      if count == 1 { ExpireKey(ip, now); }
      if count > limit { return TooManyRequests(keys[ip].expiry); }
      d := Allowed(limit - count);
    }
  }
}
