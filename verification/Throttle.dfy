/** The login throttle: failed attempts are counted per key, five in a quarter of
    an hour lock the key out for another. Times are nanoseconds; the zero time
    lies before every reading of the clock. */
module Throttle {

  const MINUTE := 60_000_000_000
  const MAX_FAILS := 5
  const LOCKOUT := 15 * MINUTE
  const WINDOW := 15 * MINUTE
  const MAX_KEYS := 4096

  datatype Record = Record(fails: nat, last: int, lockUntil: int)

  type Table = map<string, Record>

  // ---- the operations as functions of the table ----

  predicate IsBlocked(m: Table, key: string, now: int)
  {
    key in m && now <= m[key].lockUntil
  }

  /** Neither locked nor active within the window. */
  predicate Stale(r: Record, now: int)
  {
    now > r.lockUntil && now - r.last > WINDOW
  }

  function Pruned(m: Table, now: int): Table
  {
    if |m| < MAX_KEYS then m else map k | k in m && !Stale(m[k], now) :: m[k]
  }

  function Bump(r: Record, now: int): Record
  {
    var fails := (if now - r.last > WINDOW then 0 else r.fails) + 1;
    if fails >= MAX_FAILS then Record(0, now, now + LOCKOUT) else Record(fails, now, r.lockUntil)
  }

  function Failed(m: Table, key: string, now: int): Table
  {
    m[key := Bump(if key in m then m[key] else Record(0, 0, 0), now)]
  }

  // ---- runs of login attempts ----

  /** A wrong or a right credential presented under `key` at time `at`. */
  datatype Attempt = Attempt(key: string, at: int, right: bool)

  /** An attempt and whether the throttle let it through. */
  datatype Entry = Entry(attempt: Attempt, admitted: bool)

  function Try(m: Table, a: Attempt, prune: bool): (Table, bool)
  {
    if IsBlocked(m, a.key, a.at) then (m, false)
    else if a.right then (m - {a.key}, true)
    else (Failed(if prune then Pruned(m, a.at) else m, a.key, a.at), true)
  }

  function Run(attempts: seq<Attempt>, prune: bool): (Table, seq<Entry>)
  {
    if attempts == [] then (map[], [])
    else
      var (m, log) := Run(attempts[..|attempts| - 1], prune);
      var a := attempts[|attempts| - 1];
      var (m', ok) := Try(m, a, prune);
      (m', log + [Entry(a, ok)])
  }

  ghost predicate Timed(attempts: seq<Attempt>)
  {
    && (forall i :: 0 <= i < |attempts| ==> 0 < attempts[i].at)
    && (forall i, j :: 0 <= i <= j < |attempts| ==> attempts[i].at <= attempts[j].at)
  }

  function Clock(attempts: seq<Attempt>): int
  {
    if attempts == [] then 0 else attempts[|attempts| - 1].at
  }

  /** When `key` failed and was let through, since its last success. */
  function Failures(log: seq<Entry>, key: string): seq<int>
  {
    if log == [] then []
    else
      var rest, e := Failures(log[..|log| - 1], key), log[|log| - 1];
      if e.attempt.key != key || !e.admitted then rest
      else if e.attempt.right then []
      else rest + [e.attempt.at]
  }

  function Within(ts: seq<int>, s: int, t: int): nat
  {
    if ts == [] then 0
    else Within(ts[..|ts| - 1], s, t) + (if s <= ts[|ts| - 1] <= t then 1 else 0)
  }

  // ---- what every run keeps ----

  ghost predicate Spread(ts: seq<int>, now: int)
  {
    && (forall i, j :: 0 <= i <= j < |ts| ==> ts[i] <= ts[j])
    && (forall i :: 0 <= i < |ts| ==> ts[i] <= now)
    && (forall i :: 0 <= i < |ts| - MAX_FAILS ==> ts[i + MAX_FAILS] - ts[i] > WINDOW)
  }

  /** More than a window passed before the failure at index `g`. */
  predicate Gap(ts: seq<int>, g: nat)
    requires g <= |ts|
  {
    g == 0 || g == |ts| || ts[g] - ts[g - 1] > WINDOW
  }

  /** The record counts the failures since the last gap; once there were five it
      holds the lock instead. */
  ghost predicate Counts(m: Table, ts: seq<int>, key: string, now: int)
  {
    && Spread(ts, now)
    && (key !in m ==> ts == [] || now - ts[|ts| - 1] > WINDOW)
    && (key in m ==>
          var r := m[key];
          && ts != []
          && r.last == ts[|ts| - 1]
          && r.fails < MAX_FAILS && r.fails <= |ts|
          && r.lockUntil <= r.last + LOCKOUT
          && (r.fails == 0 ==> r.lockUntil == r.last + LOCKOUT)
          && Gap(ts, |ts| - r.fails))
  }

  /** A failure that is at most the fifth since a gap keeps the spread. */
  lemma SpreadGrows(ts: seq<int>, g: nat, clock: int, now: int)
    requires Spread(ts, clock) && clock <= now && g <= |ts| && |ts| + 1 - g <= MAX_FAILS
    requires g == 0 || (ts + [now])[g] - ts[g - 1] > WINDOW
    ensures Spread(ts + [now], now)
  {
    var i := |ts| - MAX_FAILS;
    assert i >= 0 ==> ts[i] <= ts[g - 1] && (ts + [now])[g] <= now;
  }

  lemma FailCounts(m: Table, ts: seq<int>, key: string, clock: int, now: int)
    requires Counts(m, ts, key, clock) && clock <= now && 0 < now && !IsBlocked(m, key, now)
    ensures Counts(Failed(m, key, now), ts + [now], key, now)
  {
    // where the stretch of failures that now ends began
    var g := if key in m && now - m[key].last <= WINDOW then |ts| - m[key].fails else |ts|;
    SpreadGrows(ts, g, clock, now);
  }

  lemma PruneCounts(m: Table, ts: seq<int>, key: string, clock: int, now: int)
    requires Counts(m, ts, key, clock) && clock <= now
    ensures Counts(Pruned(m, now), ts, key, now)
    ensures Counts(m, ts, key, now)
  {
  }

  lemma TryCounts(m: Table, ts: seq<int>, key: string, a: Attempt, prune: bool, clock: int)
    requires Counts(m, ts, key, clock) && clock <= a.at && 0 < a.at
    ensures var (m', ok) := Try(m, a, prune);
            var ts' := if a.key != key || !ok then ts else if a.right then [] else ts + [a.at];
            Counts(m', ts', key, a.at)
  {
    PruneCounts(m, ts, key, clock, a.at);
    if a.key == key && !a.right && !IsBlocked(m, key, a.at) {
      FailCounts(if prune then Pruned(m, a.at) else m, ts, key, a.at, a.at);
    }
  }

  lemma {:induction false} RunCounts(attempts: seq<Attempt>, prune: bool, key: string)
    requires Timed(attempts)
    ensures var (m, log) := Run(attempts, prune);
            |log| == |attempts| && Counts(m, Failures(log, key), key, Clock(attempts))
  {
    if attempts != [] {
      var earlier, a := attempts[..|attempts| - 1], attempts[|attempts| - 1];
      RunCounts(earlier, prune, key);
      var (m, log) := Run(earlier, prune);
      var (m', ok) := Try(m, a, prune);
      FailuresGrow(log, Entry(a, ok), key);
      TryCounts(m, Failures(log, key), key, a, prune, Clock(earlier));
    }
  }

  lemma FailuresGrow(log: seq<Entry>, e: Entry, key: string)
    ensures var a := e.attempt;
            Failures(log + [e], key) ==
              if a.key != key || !e.admitted then Failures(log, key)
              else if a.right then [] else Failures(log, key) + [a.at]
  {
    assert (log + [e])[..|log|] == log;
  }

  // ---- when a key is locked ----

  /** The last `n` failures follow one another within a window each. */
  ghost predicate Close(ts: seq<int>, n: nat)
  {
    n <= |ts| && forall i :: |ts| - n < i < |ts| ==> ts[i] - ts[i - 1] <= WINDOW
  }

  /** The record's count is that of the failures since the last gap, and a lock is
      set at the fifth of them and nowhere else. */
  ghost predicate Stretch(m: Table, ts: seq<int>, key: string)
  {
    key in m ==>
      var r := m[key];
      && ts != []
      && (r.fails > 0 ==>
            Close(ts, r.fails) && r.fails <= |ts| && Gap(ts, |ts| - r.fails) && r.lockUntil < ts[|ts| - 1])
      && (r.fails == 0 ==>
            && MAX_FAILS <= |ts| && Close(ts, MAX_FAILS) && Gap(ts, |ts| - MAX_FAILS)
            && r.lockUntil == ts[|ts| - 1] + LOCKOUT)
  }

  /** A failure right after a gap. */
  lemma StretchBegins(ts: seq<int>, now: int)
    requires ts == [] || now - ts[|ts| - 1] > WINDOW
    ensures Close(ts + [now], 1) && Gap(ts + [now], |ts|)
  {
  }

  /** A failure within a window of the one before. */
  lemma StretchGoesOn(ts: seq<int>, now: int, n: nat)
    requires 0 < n <= |ts| && Close(ts, n) && Gap(ts, |ts| - n) && now - ts[|ts| - 1] <= WINDOW
    ensures Close(ts + [now], n + 1) && Gap(ts + [now], |ts| - n)
  {
  }

  lemma FailStretches(m: Table, ts: seq<int>, key: string, clock: int, now: int)
    requires Counts(m, ts, key, clock) && Stretch(m, ts, key) && clock <= now && 0 < now && !IsBlocked(m, key, now)
    requires key in m ==> m[key].lockUntil < now
    ensures Stretch(Failed(m, key, now), ts + [now], key)
  {
    if key in m && now - m[key].last <= WINDOW {
      StretchGoesOn(ts, now, m[key].fails);
    } else {
      StretchBegins(ts, now);
    }
  }

  lemma TryStretches(m: Table, ts: seq<int>, key: string, a: Attempt, prune: bool, clock: int)
    requires Counts(m, ts, key, clock) && Stretch(m, ts, key) && clock <= a.at && 0 < a.at
    ensures var (m', ok) := Try(m, a, prune);
            var ts' := if a.key != key || !ok then ts else if a.right then [] else ts + [a.at];
            Stretch(m', ts', key)
  {
    PruneCounts(m, ts, key, clock, a.at);
    if a.key == key && !a.right && !IsBlocked(m, key, a.at) {
      FailStretches(if prune then Pruned(m, a.at) else m, ts, key, a.at, a.at);
    }
  }

  lemma {:induction false} RunStretches(attempts: seq<Attempt>, prune: bool, key: string)
    requires Timed(attempts)
    ensures var (m, log) := Run(attempts, prune); Stretch(m, Failures(log, key), key)
  {
    if attempts != [] {
      var earlier, a := attempts[..|attempts| - 1], attempts[|attempts| - 1];
      RunStretches(earlier, prune, key);
      RunCounts(earlier, prune, key);
      var (m, log) := Run(earlier, prune);
      FailuresGrow(log, Entry(a, Try(m, a, prune).1), key);
      TryStretches(m, Failures(log, key), key, a, prune, Clock(earlier));
    }
  }

  /** Five failures in a row, each within a quarter of an hour of the one before,
      and no more than a quarter of an hour since the last of them. */
  ghost predicate LockedOut(ts: seq<int>, now: int)
  {
    && |ts| >= 5 && now <= ts[|ts| - 1] + 15 * MINUTE
    && forall i :: |ts| - 5 < i < |ts| ==> ts[i] - ts[i - 1] <= 15 * MINUTE
  }

  lemma StretchTells(m: Table, ts: seq<int>, key: string, clock: int, now: int)
    requires Counts(m, ts, key, clock) && Stretch(m, ts, key) && clock <= now
    ensures IsBlocked(m, key, now) <==> LockedOut(ts, now)
  {
    if key in m && m[key].fails > 0 && |ts| >= MAX_FAILS {
      var g := |ts| - m[key].fails;
      assert Gap(ts, g) && ts[g] - ts[g - 1] > WINDOW;
    }
  }

  /** On every run, at any moment from its last attempt on, a key is locked exactly
      if its last five admitted failures since its last success followed one
      another within a quarter of an hour each, the last at most that long ago. */
  lemma LockedExactly(attempts: seq<Attempt>, prune: bool, key: string, now: int)
    requires Timed(attempts) && Clock(attempts) <= now
    ensures IsBlocked(Run(attempts, prune).0, key, now) <==> LockedOut(Failures(Run(attempts, prune).1, key), now)
  {
    RunCounts(attempts, prune, key);
    RunStretches(attempts, prune, key);
    StretchTells(Run(attempts, prune).0, Failures(Run(attempts, prune).1, key), key, Clock(attempts), now);
  }

  // ---- main results ----

  lemma {:induction false} SpreadWithin(ts: seq<int>, now: int, s: int, t: int)
    requires Spread(ts, now) && s <= t <= s + WINDOW
    ensures Within(ts, s, t) <= MAX_FAILS
    ensures Within(ts, s, t) > 0 ==> exists i :: 0 <= i < |ts| && s <= ts[i] && Within(ts, s, t) <= |ts| - i
  {
    if ts != [] {
      var n := |ts| - 1;
      SpreadWithin(ts[..n], now, s, t);
      if Within(ts[..n], s, t) > 0 {
        var i :| 0 <= i < n && s <= ts[..n][i] && Within(ts[..n], s, t) <= n - i;
        assert s <= ts[i];
        assert i <= n - MAX_FAILS ==>
               ts[i] <= ts[n - MAX_FAILS] && ts[(n - MAX_FAILS) + MAX_FAILS] - ts[n - MAX_FAILS] > WINDOW;
      } else {
        assert s <= ts[n] <= t ==> Within(ts, s, t) <= |ts| - n;
      }
    }
  }

  /** No closed stretch of fifteen minutes holds more than five failures of a key
      since its last success, on any run: lockouts, idle resets and pruning
      included. */
  lemma BruteForceBound(attempts: seq<Attempt>, key: string, s: int, t: int)
    requires Timed(attempts) && s <= t <= s + WINDOW
    ensures Within(Failures(Run(attempts, true).1, key), s, t) <= MAX_FAILS
  {
    RunCounts(attempts, true, key);
    SpreadWithin(Failures(Run(attempts, true).1, key), Clock(attempts), s, t);
  }

  /** Two records no attempt at or after `now` can tell apart. */
  predicate Twins(a: Record, b: Record, now: int)
  {
    a.fails == b.fails && a.last == b.last && (a.lockUntil == b.lockUntil || (now > a.lockUntil && now > b.lockUntil))
  }

  ghost predicate Alike(m: Table, plain: Table, now: int)
  {
    && (forall k :: k in m ==> k in plain && Twins(m[k], plain[k], now))
    && (forall k :: k in plain && k !in m ==> Stale(plain[k], now))
  }

  lemma TryAlike(m: Table, plain: Table, a: Attempt, clock: int)
    requires Alike(m, plain, clock) && clock <= a.at && 0 < a.at
    ensures Try(m, a, true).1 == Try(plain, a, false).1
    ensures Alike(Try(m, a, true).0, Try(plain, a, false).0, a.at)
  {
    assert Alike(m, plain, a.at);
    assert Alike(Pruned(m, a.at), plain, a.at);
  }

  /** The throttle that prunes answers every attempt as one that never does. */
  lemma {:induction false} PruningIsInvisible(attempts: seq<Attempt>)
    requires Timed(attempts)
    ensures Run(attempts, true).1 == Run(attempts, false).1
    ensures Alike(Run(attempts, true).0, Run(attempts, false).0, Clock(attempts))
  {
    if attempts != [] {
      var earlier, a := attempts[..|attempts| - 1], attempts[|attempts| - 1];
      PruningIsInvisible(earlier);
      TryAlike(Run(earlier, true).0, Run(earlier, false).0, a, Clock(earlier));
    }
  }

  /** The key failed and was let through within a window of `now`, with no success
      since. */
  ghost predicate Recent(log: seq<Entry>, key: string, now: int)
  {
    var ts := Failures(log, key);
    ts != [] && now - ts[|ts| - 1] <= WINDOW
  }

  /** The last attempt was let through and wrong. */
  predicate EndsInFailure(attempts: seq<Attempt>)
  {
    attempts != [] && !attempts[|attempts| - 1].right &&
        !IsBlocked(Run(attempts[..|attempts| - 1], true).0, attempts[|attempts| - 1].key, Clock(attempts))
  }

  lemma RecentIsKept(attempts: seq<Attempt>, key: string)
    requires Timed(attempts) && Recent(Run(attempts, true).1, key, Clock(attempts))
    ensures key in Run(attempts, true).0
  {
    RunCounts(attempts, true, key);
  }

  lemma BigIsRecent(attempts: seq<Attempt>, key: string)
    requires Timed(attempts) && EndsInFailure(attempts)
    requires |Run(attempts, true).0| > MAX_KEYS && key in Run(attempts, true).0
    ensures Recent(Run(attempts, true).1, key, Clock(attempts))
    ensures Clock(attempts) - WINDOW <= Run(attempts, true).0[key].last <= Clock(attempts)
  {
    var earlier, a := attempts[..|attempts| - 1], attempts[|attempts| - 1];
    var m := Run(earlier, true).0;
    assert Failed(m, a.key, a.at).Keys == m.Keys + {a.key};
    RunCounts(earlier, true, key);
    RunCounts(attempts, true, key);
  }

  /** What bounds the table: right after a failure it holds more than `n` keys, for
      any `n` from 4096 on, exactly if more than `n` keys are recent. */
  lemma FloodExactly(attempts: seq<Attempt>, n: nat)
    requires Timed(attempts) && EndsInFailure(attempts) && n >= MAX_KEYS
    ensures var (m, log) := Run(attempts, true);
            |m| > n <==> exists keys: set<string> :: |keys| > n && forall k :: k in keys ==>
                Recent(log, k, Clock(attempts))
  {
    var (m, log) := Run(attempts, true);
    if |m| > n {
      forall k | k in m.Keys ensures Recent(log, k, Clock(attempts)) {
        BigIsRecent(attempts, k);
      }
    }
    if keys: set<string> :| |keys| > n && forall k :: k in keys ==> Recent(log, k, Clock(attempts)) {
      forall k | k in keys ensures k in m.Keys {
        RecentIsKept(attempts, k);
      }
      SubsetShrinks(keys, m.Keys);
    }
  }

  lemma SubsetShrinks(a: set<string>, b: set<string>)
    requires a <= b
    ensures |a| <= |b|
  {
    assert b == a + (b - a);
  }

  /** Beyond 4096 keys, all of them last failed within one quarter of an hour. */
  ghost predicate RecentIfBig(m: Table)
  {
    |m| > MAX_KEYS ==> forall j, k :: j in m && k in m ==> m[k].last <= m[j].last + WINDOW
  }

  /** Pruning bounds the table by the keys active in a window, at every moment. */
  lemma {:induction false} BigTableIsRecent(attempts: seq<Attempt>)
    requires Timed(attempts)
    ensures RecentIfBig(Run(attempts, true).0)
  {
    if attempts != [] {
      var earlier, a := attempts[..|attempts| - 1], attempts[|attempts| - 1];
      BigTableIsRecent(earlier);
      var m := Run(earlier, true).0;
      var m' := Try(m, a, true).0;
      if !IsBlocked(m, a.key, a.at) {
        if a.right {
          SubsetShrinks(m'.Keys, m.Keys);
        } else if |m'| > MAX_KEYS {
          forall k | k in m' ensures a.at - WINDOW <= m'[k].last <= a.at {
            BigIsRecent(attempts, k);
          }
        }
      }
    }
  }

  /** `n` different keys failing at one instant. */
  function Flood(n: nat): (flood: seq<Attempt>)
    ensures |flood| == n && forall a :: a in flood ==> a.at == 1
  {
    if n == 0 then [] else Flood(n - 1) + [Attempt(seq(n - 1, _ => 'a'), 1, false)]
  }

  ghost predicate FloodTable(m: Table, n: nat)
  {
    |m| == n && forall k :: k in m ==> |k| < n && m[k].last == 1
  }

  lemma FloodStep(m: Table, a: Attempt, n: nat)
    requires FloodTable(m, n) && |a.key| == n && a.at == 1 && !a.right
    ensures FloodTable(Try(m, a, true).0, n + 1)
  {
    assert a.key !in m;
    assert Pruned(m, 1) == m;
    assert Failed(m, a.key, 1).Keys == m.Keys + {a.key};
  }

  /** So no fixed number bounds the table: `n` keys at once are all kept. */
  lemma {:induction false} FloodIsKept(n: nat)
    ensures Timed(Flood(n)) && FloodTable(Run(Flood(n), true).0, n)
  {
    if n > 0 {
      FloodIsKept(n - 1);
      var a := Attempt(seq(n - 1, _ => 'a'), 1, false);
      assert Flood(n) == Flood(n - 1) + [a];
      assert Flood(n)[..n - 1] == Flood(n - 1);
      FloodStep(Run(Flood(n - 1), true).0, a, n - 1);
    }
  }

  // ---- the throttle as the login handler holds it ----

  class Throttle {
    var m: Table

    constructor ()
      ensures m == Run([], true).0
    {
      m := map[];
    }

    /** Whether `key` is locked out and for how long still. */
    method Blocked(key: string, now: int) returns (blocked: bool, remaining: int)
      ensures blocked <==> IsBlocked(m, key, now)
      ensures blocked ==>
                && remaining >= 0 && IsBlocked(m, key, now + remaining)
                && !IsBlocked(m, key, now + remaining + 1)
      ensures !blocked ==> remaining == 0
    {
      if key !in m || now > m[key].lockUntil {
        return false, 0;
      }
      return true, m[key].lockUntil - now;
    }

    method Fail(key: string, now: int)
      modifies this
      ensures m == Failed(Pruned(old(m), now), key, now)
    {
      Prune(now);
      var r := if key in m then m[key] else Record(0, 0, 0);
      if now - r.last > WINDOW {
        r := r.(fails := 0);
      }
      r := r.(fails := r.fails + 1, last := now);
      if r.fails >= MAX_FAILS {
        r := r.(lockUntil := now + LOCKOUT, fails := 0);
      }
      m := m[key := r];
    }

    method Reset(key: string)
      modifies this
      ensures m == old(m) - {key}
    {
      m := m - {key};
    }

    /** Sweeps a large table; what survives is locked or was active in the window. */
    method Prune(now: int)
      modifies this
      ensures m == Pruned(old(m), now)
      ensures |old(m)| >= MAX_KEYS ==> forall k :: k in m ==> now <= m[k].lockUntil || now - m[k].last <= WINDOW
    {
      if |m| < MAX_KEYS {
        return;
      }
      var todo := m.Keys;
      while todo != {}
        invariant todo <= m.Keys <= old(m).Keys
        invariant forall k :: k in m ==> m[k] == old(m)[k]
        invariant forall k :: k in old(m) && k !in todo ==> (k in m <==> !Stale(old(m)[k], now))
        decreases todo
      {
        var k :| k in todo;
        if now > m[k].lockUntil && now - m[k].last > WINDOW {
          m := m - {k};
        }
        todo := todo - {k};
      }
    }
  }
}
