/** Idempotency keys (internal/model/task.go, SetIdempotencyKey) and the five-minute
    duplicate check of a submission (internal/service/task_service.go). */
module Dedup {
  import opened Tasks

  // ----- The key -----

  /** The order of sort.Strings. */
  predicate Less(a: string, b: string) {
    b != "" && (a == "" || a[0] < b[0] || (a[0] == b[0] && Less(a[1..], b[1..])))
  }

  lemma {:induction false} LessIsTotal(a: string, b: string)
    ensures Less(a, b) || a == b || Less(b, a)
  {
    if a != "" && b != "" && a[0] == b[0] {
      LessIsTotal(a[1..], b[1..]);
      assert a == [a[0]] + a[1..] && b == [b[0]] + b[1..];
    }
  }

  lemma {:induction false} LessIsAsymmetric(a: string, b: string)
    requires Less(a, b)
    ensures !Less(b, a) && a != b
  {
    if a != "" && a[0] == b[0] { LessIsAsymmetric(a[1..], b[1..]); }
  }

  lemma {:induction false} LessIsTransitive(a: string, b: string, c: string)
    requires Less(a, b) && Less(b, c)
    ensures Less(a, c)
  {
    if a != "" && a[0] == b[0] && b[0] == c[0] { LessIsTransitive(a[1..], b[1..], c[1..]); }
  }

  ghost predicate Sorted(keys: seq<string>) {
    forall i, j :: 0 <= i < j < |keys| ==> Less(keys[i], keys[j])
  }

  /** `keys` lists the keys of the map, each once, in ascending order. */
  ghost predicate SortedKeysOf(env: map<string, string>, keys: seq<string>) {
    Sorted(keys) && forall k :: k in keys <==> k in env
  }

  lemma SortedHeadIsLeast(keys: seq<string>, k: string)
    requires Sorted(keys) && k in keys
    ensures k == keys[0] || Less(keys[0], k)
  {
  }

  lemma BothEmpty(a: seq<string>, b: seq<string>)
    requires forall k :: k in a <==> k in b
    ensures a == [] <==> b == []
  {
    if a != [] { assert a[0] in b; }
    if b != [] { assert b[0] in a; }
  }

  /** Main result about sorting: a set has only one sorted listing. */
  lemma {:induction false} SortedListingIsUnique(a: seq<string>, b: seq<string>)
    requires Sorted(a) && Sorted(b) && forall k :: k in a <==> k in b
    ensures a == b
    decreases |a|
  {
    BothEmpty(a, b);
    if a != [] {
      assert a[0] in b;
      SortedHeadIsLeast(b, a[0]);
      assert b[0] in a;
      SortedHeadIsLeast(a, b[0]);
      if a[0] != b[0] { LessIsAsymmetric(a[0], b[0]); }
      TailMembers(a);
      TailMembers(b);
      SortedListingIsUnique(a[1..], b[1..]);
      assert a == [a[0]] + a[1..] && b == [b[0]] + b[1..];
    }
  }

  lemma TailMembers(keys: seq<string>)
    requires keys != [] && Sorted(keys)
    ensures forall k :: k in keys[1..] <==> k in keys && k != keys[0]
  {
    forall k | k in keys[1..] ensures k in keys && k != keys[0] {
      var i :| 0 <= i < |keys| - 1 && keys[1..][i] == k;
      assert Less(keys[0], keys[i + 1]);
      LessIsAsymmetric(keys[0], k);
    }
    forall k | k in keys && k != keys[0] ensures k in keys[1..] {
      var i :| 0 <= i < |keys| && keys[i] == k;
      assert keys[1..][i - 1] == k;
    }
  }

  /** What is hashed after the command and the working directory. */
  function Pairs(env: map<string, string>, keys: seq<string>): string
    requires forall k :: k in keys ==> k in env
  {
    if keys == [] then "" else Pairs(env, keys[..|keys| - 1]) + keys[|keys| - 1] + env[keys[|keys| - 1]]
  }

  ghost predicate IsPreimage(job: Job, p: string) {
    exists keys :: SortedKeysOf(job.env, keys) && p == job.command + job.workdir + Pairs(job.env, keys)
  }

  /** The parts of a job that the key covers. */
  predicate SameWork(a: Job, b: Job) {
    a.command == b.command && a.workdir == b.workdir && a.env == b.env
  }

  /** Whatever order the environment is enumerated in, the hashed text of the same work
      is the same. */
  lemma PreimageIsUnique(a: Job, b: Job, p: string, q: string)
    requires SameWork(a, b) && IsPreimage(a, p) && IsPreimage(b, q)
    ensures p == q
  {
    var ks :| SortedKeysOf(a.env, ks) && p == a.command + a.workdir + Pairs(a.env, ks);
    var ls :| SortedKeysOf(b.env, ls) && q == b.command + b.workdir + Pairs(b.env, ls);
    SortedListingIsUnique(ks, ls);
  }

  lemma InsertSorted(s: seq<string>, at: nat, x: string)
    requires at <= |s| && Sorted(s)
    requires forall i :: 0 <= i < at ==> Less(s[i], x)
    requires forall i :: at <= i < |s| ==> Less(x, s[i])
    ensures Sorted(s[..at] + [x] + s[at..])
    ensures forall k :: k in s[..at] + [x] + s[at..] <==> k in s || k == x
  {
  }

  /** Collects the keys in whatever order the map gives them, sorts them, and writes the
      key-value pairs; the result is hashed by the caller. */
  method Preimage(job: Job) returns (p: string)
    ensures IsPreimage(job, p)
  {
    var keys: seq<string> := [];
    var rest := job.env.Keys;
    while rest != {}
      invariant rest <= job.env.Keys && Sorted(keys)
      invariant forall k :: k in keys <==> k in job.env && k !in rest
      decreases |rest|
    {
      var k :| k in rest;
      rest := rest - {k};
      var at := 0;
      while at < |keys| && Less(keys[at], k)
        invariant at <= |keys| && forall i :: 0 <= i < at ==> Less(keys[i], k)
      {
        at := at + 1;
      }
      AllAbove(keys, at, k);
      InsertSorted(keys, at, k);
      keys := keys[..at] + [k] + keys[at..];
    }
    p := job.command + job.workdir;
    for i := 0 to |keys|
      invariant p == job.command + job.workdir + Pairs(job.env, keys[..i])
    {
      assert keys[..i + 1][..i] == keys[..i];
      PairsStep(job.command + job.workdir, Pairs(job.env, keys[..i]), keys[i], job.env[keys[i]]);
      p := p + keys[i];
      p := p + job.env[keys[i]];
    }
    assert keys[..|keys|] == keys;
  }

  lemma PairsStep(a: string, b: string, k: string, v: string)
    ensures a + b + k + v == a + (b + k + v)
  {
  }

  lemma AllAbove(keys: seq<string>, at: nat, k: string)
    requires at <= |keys| && Sorted(keys) && k !in keys && (at < |keys| ==> !Less(keys[at], k))
    ensures forall i :: at <= i < |keys| ==> Less(k, keys[i])
  {
    forall i | at <= i < |keys| ensures Less(k, keys[i]) {
      LessIsTotal(keys[at], k);
      if i > at { LessIsTransitive(k, keys[at], keys[i]); }
    }
  }

  lemma {:induction false} PairsAgree(env: map<string, string>, env': map<string, string>, keys: seq<string>)
    requires forall k :: k in keys ==> k in env && k in env' && env[k] == env'[k]
    ensures Pairs(env, keys) == Pairs(env', keys)
    decreases |keys|
  {
    if keys != [] { PairsAgree(env, env', keys[..|keys| - 1]); }
  }

  lemma {:induction false} PairsFirst(env: map<string, string>, k: string, keys: seq<string>)
    requires k in env && forall x :: x in keys ==> x in env
    ensures Pairs(env, [k] + keys) == k + env[k] + Pairs(env, keys)
    decreases |keys|
  {
    if keys == [] {
      assert [k] + keys == [k] && [k][..0] == [];
    } else {
      var front, last := keys[..|keys| - 1], keys[|keys| - 1];
      assert ([k] + keys)[..|keys|] == [k] + front;
      PairsFirst(env, k, front);
      assert k + env[k] + Pairs(env, front) + last + env[last] == k + env[k] + (Pairs(env, front) + last + env[last]);
    }
  }

  lemma EmptyKeyFirst(env: map<string, string>, keys: seq<string>)
    requires "" !in env && SortedKeysOf(env, keys)
    ensures SortedKeysOf(env["" := ""], [""] + keys) && Pairs(env["" := ""], [""] + keys) == Pairs(env, keys)
  {
    var env' := env["" := ""];
    forall k | k in keys ensures Less("", k) { assert k in env; }
    PairsFirst(env', "", keys);
    PairsAgree(env, env', keys);
    assert "" + env'[""] + Pairs(env', keys) == Pairs(env', keys);
  }

  lemma EmptyKeyHeads(env: map<string, string>, keys: seq<string>)
    requires "" in env && SortedKeysOf(env, keys)
    ensures keys != [] && keys[0] == "" && SortedKeysOf(env - {""}, keys[1..])
  {
    SortedHeadIsLeast(keys, "");
    assert !Less(keys[0], "");
    hide Less;
    TailMembers(keys);
  }

  lemma EmptyKeyIsFirst(env: map<string, string>, keys: seq<string>)
    requires "" in env && SortedKeysOf(env, keys)
    ensures keys != [] && keys[0] == "" && SortedKeysOf(env - {""}, keys[1..])
    ensures Pairs(env, keys) == env[""] + Pairs(env - {""}, keys[1..])
  {
    EmptyKeyHeads(env, keys);
    hide Sorted, Pairs;
    assert keys == [""] + keys[1..];
    PairsFirst(env, "", keys[1..]);
    PairsAgree(env, env - {""}, keys[1..]);
    assert "" + env[""] == env[""];
  }

  lemma IsPreimageOf(job: Job, keys: seq<string>, p: string)
    requires SortedKeysOf(job.env, keys) && p == job.command + job.workdir + Pairs(job.env, keys)
    ensures IsPreimage(job, p)
  {
  }

  /** The text has no separators: for every job there is other work with the same text, so
      that the check below refuses a task that was never submitted. */
  lemma EveryJobCollides(a: Job, p: string) returns (b: Job)
    requires IsPreimage(a, p)
    ensures !SameWork(a, b) && IsPreimage(b, p)
  {
    var keys :| SortedKeysOf(a.env, keys) && p == a.command + a.workdir + Pairs(a.env, keys);
    hide Pairs, Sorted, IsPreimage;
    if "" in a.env {
      EmptyKeyIsFirst(a.env, keys);
      b := a.(workdir := a.workdir + a.env[""], env := a.env - {""});
      PairsMove(a.command, a.workdir, a.env[""], Pairs(b.env, keys[1..]));
      IsPreimageOf(b, keys[1..], p);
      assert "" in a.env && "" !in b.env;
    } else {
      EmptyKeyFirst(a.env, keys);
      b := a.(env := a.env["" := ""]);
      IsPreimageOf(b, [""] + keys, p);
      assert "" !in a.env && "" in b.env;
    }
  }

  lemma PairsMove(command: string, workdir: string, v: string, rest: string)
    ensures command + workdir + (v + rest) == command + (workdir + v) + rest
  {
  }

  /** The parts of two jobs have the same lengths, pair by pair. */
  ghost predicate SameShape(a: Job, b: Job) {
    && |a.command| == |b.command| && |a.workdir| == |b.workdir|
    && exists ks, ls :: SortedKeysOf(a.env, ks) && SortedKeysOf(b.env, ls) && SameLengths(a.env, ks, b.env, ls)
  }

  predicate SameLengths(env: map<string, string>, ks: seq<string>, env': map<string, string>, ls: seq<string>)
    requires (forall k :: k in ks ==> k in env) && (forall l :: l in ls ==> l in env')
  {
    |ks| == |ls| && forall i :: 0 <= i < |ks| ==> |ks[i]| == |ls[i]| && |env[ks[i]]| == |env'[ls[i]]|
  }

  lemma SplitEqual(a: string, b: string, c: string, d: string)
    requires |b| == |d| && a + b == c + d
    ensures a == c && b == d
  {
    assert (a + b)[..|a|] == a && (c + d)[..|c|] == c && (a + b)[|a|..] == b && (c + d)[|c|..] == d;
  }

  lemma {:induction false} SamePairs(env: map<string, string>, ks: seq<string>, env': map<string, string>,
      ls: seq<string>)
    requires (forall k :: k in ks ==> k in env) && (forall l :: l in ls ==> l in env')
    requires SameLengths(env, ks, env', ls) && Pairs(env, ks) == Pairs(env', ls)
    ensures ks == ls && forall k :: k in ks ==> env[k] == env'[k]
    decreases |ks|
  {
    if ks != [] {
      var n := |ks| - 1;
      var k, l, x, y := ks[n], ls[n], Pairs(env, ks[..n]), Pairs(env', ls[..n]);
      assert Pairs(env, ks) == x + k + env[k] && Pairs(env', ls) == y + l + env'[l];
      hide Pairs;
      SplitEqual(x + k, env[k], y + l, env'[l]);
      SplitEqual(x, k, y, l);
      SamePairs(env, ks[..n], env', ls[..n]);
      AddLast(env, ks, env', ls);
    }
  }

  lemma AddLast(env: map<string, string>, ks: seq<string>, env': map<string, string>, ls: seq<string>)
    requires ks != [] && |ls| == |ks| && ks[..|ks| - 1] == ls[..|ks| - 1] && ks[|ks| - 1] == ls[|ks| - 1]
    requires (forall k :: k in ks ==> k in env) && (forall l :: l in ls ==> l in env')
    requires forall k :: k in ks[..|ks| - 1] ==> env[k] == env'[k]
    requires env[ks[|ks| - 1]] == env'[ks[|ks| - 1]]
    ensures ks == ls && forall k :: k in ks ==> env[k] == env'[k]
  {
    assert ks == ks[..|ks| - 1] + [ks[|ks| - 1]] && ls == ls[..|ks| - 1] + [ls[|ks| - 1]];
  }

  /** Among jobs of the same shape the text does tell different work apart. */
  lemma SameShapeSeparates(a: Job, b: Job, p: string, q: string)
    requires SameShape(a, b) && IsPreimage(a, p) && IsPreimage(b, q)
    ensures p == q <==> SameWork(a, b)
  {
    if p == q {
      var ks, ls :| SortedKeysOf(a.env, ks) && SortedKeysOf(b.env, ls) && SameLengths(a.env, ks, b.env, ls);
      PreimageFrom(a, p, ks);
      PreimageFrom(b, q, ls);
      hide Sorted, IsPreimage, Pairs;
      EqualTexts(a, ks, b, ls);
    } else if SameWork(a, b) {
      PreimageIsUnique(a, b, p, q);
    }
  }

  lemma EqualTexts(a: Job, ks: seq<string>, b: Job, ls: seq<string>)
    requires |a.command| == |b.command| && |a.workdir| == |b.workdir|
    requires SortedKeysOf(a.env, ks) && SortedKeysOf(b.env, ls) && SameLengths(a.env, ks, b.env, ls)
    requires a.command + a.workdir + Pairs(a.env, ks) == b.command + b.workdir + Pairs(b.env, ls)
    ensures SameWork(a, b)
  {
    hide Sorted, Pairs;
    var x, y := Pairs(a.env, ks), Pairs(b.env, ls);
    SplitFrom(a.command + a.workdir, x, b.command + b.workdir, y);
    SplitEqual(a.command, a.workdir, b.command, b.workdir);
    SamePairs(a.env, ks, b.env, ls);
    hide SameLengths;
    assert a.env == b.env;
  }

  lemma SplitFrom(a: string, b: string, c: string, d: string)
    requires |a| == |c| && a + b == c + d
    ensures a == c && b == d
  {
    assert |b| == |d| by { assert |a + b| == |c + d|; }
    SplitEqual(a, b, c, d);
  }

  lemma PreimageFrom(a: Job, p: string, ks: seq<string>)
    requires IsPreimage(a, p) && SortedKeysOf(a.env, ks)
    ensures p == a.command + a.workdir + Pairs(a.env, ks)
  {
    var ls :| SortedKeysOf(a.env, ls) && p == a.command + a.workdir + Pairs(a.env, ls);
    SortedListingIsUnique(ks, ls);
  }

  // ----- The duplicate check -----

  const DEDUP_WINDOW: int := 300 * SECOND

  datatype Submission = Submission(key: string, time: int)

  /** `marks` maps a key to the time its mark expires. */
  predicate Marked(marks: map<string, int>, key: string, now: int) {
    key in marks && now < marks[key]
  }

  /** SETNX with a five-minute expiry: sets the mark unless it is set. */
  function SetNx(marks: map<string, int>, s: Submission): map<string, int> {
    if Marked(marks, s.key, s.time) then marks else marks[s.key := s.time + DEDUP_WINDOW]
  }

  function MarksAfter(subs: seq<Submission>): map<string, int>
    decreases |subs|
  {
    if subs == [] then map[] else SetNx(MarksAfter(subs[..|subs| - 1]), subs[|subs| - 1])
  }

  lemma MarksSnoc(subs: seq<Submission>, s: Submission)
    ensures MarksAfter(subs + [s]) == SetNx(MarksAfter(subs), s)
    ensures Accepted(subs + [s], |subs|) == !Marked(MarksAfter(subs), s.key, s.time)
  {
  }

  /** Submission `i` of the history passes the check and goes on to the insert.  Its mark is
      set before the insert: when that fails, the submission still counts, and the same work
      can be refused although nothing was stored. */
  predicate Accepted(subs: seq<Submission>, i: nat)
    requires i < |subs|
  {
    !Marked(MarksAfter(subs[..i]), subs[i].key, subs[i].time)
  }

  ghost predicate InTimeOrder(subs: seq<Submission>) {
    forall i, j :: 0 <= i < j < |subs| ==> subs[i].time <= subs[j].time
  }

  /** Submission `i` is the last one before `n` that was accepted with this key. */
  ghost predicate LastAccepted(subs: seq<Submission>, n: nat, key: string, i: nat) {
    && i < n <= |subs| && subs[i].key == key && Accepted(subs, i)
    && forall j :: i < j < n && subs[j].key == key ==> !Accepted(subs, j)
  }

  /** An earlier submission with the key of `n` was accepted less than five minutes before. */
  predicate Recent(subs: seq<Submission>, i: nat, n: nat)
    requires i < n < |subs|
  {
    subs[i].key == subs[n].key && Accepted(subs, i) && subs[n].time - subs[i].time < 300 * SECOND
  }

  lemma MarksStep(subs: seq<Submission>, n: nat)
    requires 0 < n <= |subs|
    ensures MarksAfter(subs[..n]) == if Accepted(subs, n - 1)
                                     then MarksAfter(subs[..n - 1])[subs[n - 1].key := subs[n - 1].time + DEDUP_WINDOW]
                                     else MarksAfter(subs[..n - 1])
  {
    assert subs[..n][..n - 1] == subs[..n - 1];
  }

  /** The mark of a key is the expiry left by the last accepted submission with it. */
  lemma {:induction false} MarkIsLastAccepted(subs: seq<Submission>, n: nat, key: string) returns (last: nat)
    requires n <= |subs|
    ensures key in MarksAfter(subs[..n]) ==> LastAccepted(subs, n, key, last)
                                             && MarksAfter(subs[..n])[key] == subs[last].time + DEDUP_WINDOW
    ensures key !in MarksAfter(subs[..n]) ==> forall i :: 0 <= i < n && subs[i].key == key ==> !Accepted(subs, i)
    decreases n
  {
    last := 0;
    if n > 0 {
      MarksStep(subs, n);
      last := MarkIsLastAccepted(subs, n - 1, key);
      if subs[n - 1].key == key && Accepted(subs, n - 1) { last := n - 1; }
    }
  }

  /** Main result: a submission is refused exactly when one with the same key was
      accepted less than five minutes before it. */
  lemma RefusedIffRecent(subs: seq<Submission>, n: nat)
    requires n < |subs| && InTimeOrder(subs)
    ensures !Accepted(subs, n) <==> exists i: nat :: i < n && Recent(subs, i, n)
  {
    hide MarksAfter;
    var last := MarkIsLastAccepted(subs, n, subs[n].key);
    if !Accepted(subs, n) {
      assert Recent(subs, last, n);
    }
    if i: nat :| i < n && Recent(subs, i, n) {
      assert i <= last;
    }
  }

  /** So the same work, submitted twice within five minutes, never reaches the store
      twice: `jobs` are the submitted jobs and `hash` is the digest of the key. */
  lemma SameWorkIsStoredOnce(hash: string -> string, jobs: seq<Job>, texts: seq<string>, subs: seq<Submission>,
                             i: nat, j: nat)
    requires i < j < |subs| == |jobs| == |texts| && InTimeOrder(subs)
    requires forall k :: 0 <= k < |subs| ==> IsPreimage(jobs[k], texts[k]) && subs[k].key == hash(texts[k])
    requires SameWork(jobs[i], jobs[j]) && Accepted(subs, i) && Accepted(subs, j)
    ensures subs[j].time - subs[i].time >= 300 * SECOND
  {
    PreimageIsUnique(jobs[i], jobs[j], texts[i], texts[j]);
    RefusedIffRecent(subs, j);
    assert Recent(subs, i, j) == (subs[j].time - subs[i].time < 300 * SECOND);
  }
}
