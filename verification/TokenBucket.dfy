/** The arithmetic of one token bucket, and the window law it obeys.

    A bucket earns `rate` tokens a second up to `cap` and pays one token for
    every admission. Its meaning is given without tokens at all: `Slack` says
    how much of a window's budget is left, and the theorems below show that a
    bucket admits a request exactly when no window ending now would go over. */
module TokenBucket {

  /** `tokens` is the fill after the visit at time `last`. */
  datatype Bucket = Bucket(tokens: real, last: real)

  /** How many of the times `ts` lie in the closed window [s, t]. */
  function Within(ts: seq<real>, s: real, t: real): nat
  {
    if ts == [] then 0
    else Within(ts[..|ts| - 1], s, t) + (if s <= ts[|ts| - 1] <= t then 1 else 0)
  }

  /** The tokens earned over a span of `d` seconds. */
  function Earned(rate: real, d: real): real
  {
    rate * d
  }

  /** What the window [s, t] may still spend: its budget less its admissions. */
  function Slack(ts: seq<real>, rate: real, cap: real, s: real, t: real): real
  {
    cap + Earned(rate, t - s) - (Within(ts, s, t) as real)
  }

  ghost predicate Ordered(ts: seq<real>, upTo: real)
  {
    && (forall i, j :: 0 <= i <= j < |ts| ==> ts[i] <= ts[j])
    && (forall i :: 0 <= i < |ts| ==> ts[i] <= upTo)
  }

  /** Refill since the last visit, never beyond the capacity. */
  function Refill(b: Bucket, rate: real, cap: real, now: real): real
  {
    var filled := b.tokens + Earned(rate, now - b.last);
    if filled > cap then cap else filled
  }

  /** One visit: refill, then pay one token if there is a whole one. */
  function Take(b: Bucket, rate: real, cap: real, now: real): (Bucket, bool)
  {
    var filled := Refill(b, rate, cap, now);
    if filled < 1.0 then (Bucket(filled, now), false) else (Bucket(filled - 1.0, now), true)
  }

  /** No window ending at `now` would exceed its budget by one more admission. */
  ghost predicate WindowsAllow(ts: seq<real>, rate: real, cap: real, now: real)
  {
    forall s :: s <= now ==> Slack(ts, rate, cap, s, now) >= 1.0
  }

  /** The fill of `b` is the least slack of all windows ending at its last visit. */
  ghost predicate Tracks(b: Bucket, ts: seq<real>, rate: real, cap: real)
  {
    && Ordered(ts, b.last)
    && (forall s :: s <= b.last ==> b.tokens <= Slack(ts, rate, cap, s, b.last))
    && (exists s :: s <= b.last && b.tokens == Slack(ts, rate, cap, s, b.last))
  }

  /** By time `t` every past admission has been earned back: a bucket with this
      history would be full. */
  ghost predicate Idle(ts: seq<real>, rate: real, cap: real, t: real)
  {
    && Ordered(ts, t)
    && (forall s :: s <= t ==> Slack(ts, rate, cap, s, t) >= cap)
  }

  lemma {:induction false} WithinSkipsLater(ts: seq<real>, s: real, t: real, t': real)
    requires Ordered(ts, t) && t <= t'
    ensures Within(ts, s, t) == Within(ts, s, t')
  {
    if ts != [] {
      WithinSkipsLater(ts[..|ts| - 1], s, t, t');
    }
  }

  lemma {:induction false} WithinEmpty(ts: seq<real>, s: real, t: real, last: real)
    requires Ordered(ts, last) && last < s
    ensures Within(ts, s, t) == 0
  {
    if ts != [] {
      WithinEmpty(ts[..|ts| - 1], s, t, last);
    }
  }

  lemma WithinAppend(ts: seq<real>, x: real, s: real, t: real)
    ensures Within(ts + [x], s, t) == Within(ts, s, t) + (if s <= x <= t then 1 else 0)
  {
    assert (ts + [x])[..|ts|] == ts;
  }

  lemma EarnedAdds(rate: real, a: real, b: real, c: real)
    ensures Earned(rate, c - a) == Earned(rate, b - a) + Earned(rate, c - b)
  {
  }

  lemma EarnedGrows(rate: real, d: real)
    requires rate >= 0.0 && d >= 0.0
    ensures Earned(rate, d) >= 0.0
  {
  }

  /** The slack of a window grows by exactly what the extra time earns. */
  lemma SlackLater(ts: seq<real>, rate: real, cap: real, s: real, t: real, now: real)
    requires Ordered(ts, t) && t <= now
    ensures Slack(ts, rate, cap, s, now) == Slack(ts, rate, cap, s, t) + Earned(rate, now - t)
  {
    WithinSkipsLater(ts, s, t, now);
    EarnedAdds(rate, s, t, now);
  }

  lemma SlackGrows(ts: seq<real>, rate: real, cap: real, s: real, t: real, now: real)
    requires Ordered(ts, t) && t <= now && rate >= 0.0
    ensures Slack(ts, rate, cap, s, now) >= Slack(ts, rate, cap, s, t)
  {
    SlackLater(ts, rate, cap, s, t, now);
    EarnedGrows(rate, now - t);
  }

  lemma SlackFresh(ts: seq<real>, rate: real, cap: real, s: real, last: real, now: real)
    requires Ordered(ts, last) && last < s <= now && rate >= 0.0
    ensures Slack(ts, rate, cap, s, now) >= cap
  {
    WithinEmpty(ts, s, now, last);
    EarnedGrows(rate, now - s);
  }

  lemma SlackAppend(ts: seq<real>, rate: real, cap: real, s: real, now: real)
    requires s <= now
    ensures Slack(ts + [now], rate, cap, s, now) == Slack(ts, rate, cap, s, now) - 1.0
  {
    WithinAppend(ts, now, s, now);
  }

  /** A bucket created full tracks the empty history. */
  lemma FullTracks(rate: real, cap: real, now: real)
    requires rate >= 0.0
    ensures Tracks(Bucket(cap, now), [], rate, cap)
  {
    forall s | s <= now ensures cap <= Slack([], rate, cap, s, now) {
      EarnedGrows(rate, now - s);
    }
    assert Slack([], rate, cap, now, now) == cap;
  }

  /** Refilling carries a bound by old windows to every window ending now ... */
  lemma RefillBelow(b: Bucket, ts: seq<real>, rate: real, cap: real, s: real, now: real)
    requires Tracks(b, ts, rate, cap) && s <= now && b.last <= now && rate >= 0.0
    ensures Refill(b, rate, cap, now) <= Slack(ts, rate, cap, s, now)
  {
    if s <= b.last {
      var before := Slack(ts, rate, cap, s, b.last);
      SlackLater(ts, rate, cap, s, b.last, now);
      assert b.tokens <= before;
    } else {
      SlackFresh(ts, rate, cap, s, b.last, now);
    }
  }

  /** ... and one of those windows meets it. */
  lemma RefillMeets(b: Bucket, ts: seq<real>, rate: real, cap: real, now: real) returns (w: real)
    requires Tracks(b, ts, rate, cap) && b.last <= now && rate >= 0.0
    ensures w <= now && Refill(b, rate, cap, now) == Slack(ts, rate, cap, w, now)
  {
    if b.tokens + Earned(rate, now - b.last) > cap {
      w := now;
      RefillBelow(b, ts, rate, cap, now, now);
    } else {
      w :| w <= b.last && b.tokens == Slack(ts, rate, cap, w, b.last);
      var before := Slack(ts, rate, cap, w, b.last);
      SlackLater(ts, rate, cap, w, b.last, now);
      assert b.tokens == before;
    }
  }

  /** Admission, token by token, is the window law. */
  lemma TakeIsWindowLaw(b: Bucket, ts: seq<real>, rate: real, cap: real, now: real)
    requires Tracks(b, ts, rate, cap) && b.last <= now && rate >= 0.0
    ensures Take(b, rate, cap, now).1 <==> WindowsAllow(ts, rate, cap, now)
    ensures var (b', ok) := Take(b, rate, cap, now);
            Tracks(b', if ok then ts + [now] else ts, rate, cap)
  {
    var level := Refill(b, rate, cap, now);
    var w := RefillMeets(b, ts, rate, cap, now);
    forall s | s <= now ensures level <= Slack(ts, rate, cap, s, now) {
      RefillBelow(b, ts, rate, cap, s, now);
    }
    assert level == Slack(ts, rate, cap, w, now);
    if level >= 1.0 {
      forall s | s <= now ensures level - 1.0 <= Slack(ts + [now], rate, cap, s, now) {
        SlackAppend(ts, rate, cap, s, now);
      }
      SlackAppend(ts, rate, cap, w, now);
      assert level - 1.0 == Slack(ts + [now], rate, cap, w, now);
    }
  }

  lemma {:induction false} NoneSince(ts: seq<real>, s: real, m: real, now: real)
    requires Within(ts, s, now) == 0 && s <= m
    ensures Within(ts, m, now) == 0
  {
    if ts != [] {
      NoneSince(ts[..|ts| - 1], s, m, now);
    }
  }

  /** Moving the start of a window to the next admission loses none. */
  lemma {:induction false} NextInstant(ts: seq<real>, s: real, now: real) returns (m: real)
    requires Ordered(ts, now) && s <= now
    ensures s <= m <= now && (m == now || m in ts)
    ensures Within(ts, s, now) == Within(ts, m, now)
  {
    m := now;
    if ts != [] {
      var rest, last := ts[..|ts| - 1], ts[|ts| - 1];
      if last < s {
        WithinEmpty(ts, s, now, last);
        NoneSince(ts, s, now, now);
      } else if Within(rest, s, now) == 0 {
        m := last;
        NoneSince(rest, s, last, now);
      } else {
        m := NextInstant(rest, s, now);
        if m > last {
          WithinEmpty(rest, m, now, last);
        }
      }
    }
  }

  /** Of all windows ending now, those that begin at an admission, and the one
      that is this instant, decide. */
  lemma InstantsDecide(ts: seq<real>, rate: real, cap: real, now: real)
    requires Ordered(ts, now) && rate >= 0.0
    ensures WindowsAllow(ts, rate, cap, now) <==>
              Slack(ts, rate, cap, now, now) >= 1.0 && forall s :: s in ts ==> Slack(ts, rate, cap, s, now) >= 1.0
  {
    if Slack(ts, rate, cap, now, now) >= 1.0 && forall s :: s in ts ==> Slack(ts, rate, cap, s, now) >= 1.0 {
      forall s | s <= now ensures Slack(ts, rate, cap, s, now) >= 1.0 {
        var m := NextInstant(ts, s, now);
        assert Slack(ts, rate, cap, m, now) >= 1.0;
        EarnedAdds(rate, s, m, now);
        EarnedGrows(rate, m - s);
      }
    }
  }

  /** A visitor without a bucket, whose past is earned back, is admitted, and the
      bucket created for it is the one it would have had. */
  lemma FirstVisit(ts: seq<real>, rate: real, cap: real, now: real)
    requires Idle(ts, rate, cap, now) && cap >= 1.0
    ensures WindowsAllow(ts, rate, cap, now)
    ensures Tracks(Bucket(cap - 1.0, now), ts + [now], rate, cap)
  {
    forall s | s <= now ensures cap - 1.0 <= Slack(ts + [now], rate, cap, s, now) {
      SlackAppend(ts, rate, cap, s, now);
    }
    SlackAppend(ts, rate, cap, now, now);
    assert cap - 1.0 == Slack(ts + [now], rate, cap, now, now);
  }

  lemma IdleLasts(ts: seq<real>, rate: real, cap: real, t: real, now: real)
    requires Idle(ts, rate, cap, t) && t <= now && rate >= 0.0
    ensures Idle(ts, rate, cap, now)
  {
    forall s | s <= now ensures Slack(ts, rate, cap, s, now) >= cap {
      if s <= t {
        SlackGrows(ts, rate, cap, s, t, now);
      } else {
        SlackFresh(ts, rate, cap, s, t, now);
      }
    }
  }

  lemma NewcomerIsIdle(rate: real, cap: real, now: real)
    requires rate >= 0.0
    ensures Idle([], rate, cap, now)
  {
    forall s | s <= now ensures Slack([], rate, cap, s, now) >= cap {
      EarnedGrows(rate, now - s);
    }
  }

  lemma RefillStaysFull(b: Bucket, rate: real, cap: real, clock: real, now: real)
    requires rate >= 0.0 && b.last <= clock <= now && Refill(b, rate, cap, clock) == cap
    ensures Refill(b, rate, cap, now) == cap
  {
    EarnedAdds(rate, b.last, clock, now);
    EarnedGrows(rate, now - clock);
  }

  /** A bucket that has refilled to capacity says nothing an absent one would not. */
  lemma RefilledIsIdle(b: Bucket, ts: seq<real>, rate: real, cap: real, now: real)
    requires Tracks(b, ts, rate, cap) && b.last <= now && rate >= 0.0
    requires b.tokens + Earned(rate, now - b.last) >= cap
    ensures Idle(ts, rate, cap, now)
  {
    forall s | s <= now ensures Slack(ts, rate, cap, s, now) >= cap {
      RefillBelow(b, ts, rate, cap, s, now);
    }
  }

  /** Every admission in `ts` was one the windows allowed when it was made. */
  ghost predicate Lawful(ts: seq<real>, rate: real, cap: real)
  {
    forall i :: 0 <= i < |ts| ==> WindowsAllow(ts[..i], rate, cap, ts[i])
  }

  lemma LawfulAppend(ts: seq<real>, rate: real, cap: real, now: real)
    requires Lawful(ts, rate, cap) && WindowsAllow(ts, rate, cap, now)
    ensures Lawful(ts + [now], rate, cap)
  {
    forall i | 0 <= i < |ts + [now]|
      ensures WindowsAllow((ts + [now])[..i], rate, cap, (ts + [now])[i])
    {
      assert (ts + [now])[..i] == ts[..i];
      assert ts[..|ts|] == ts;
    }
  }

  lemma LawfulPrefix(ts: seq<real>, rate: real, cap: real, n: nat)
    requires Lawful(ts, rate, cap) && n <= |ts|
    ensures Lawful(ts[..n], rate, cap)
  {
    forall i | 0 <= i < n ensures WindowsAllow(ts[..n][..i], rate, cap, ts[..n][i]) {
      assert ts[..n][..i] == ts[..i];
    }
  }

  lemma AllowedLeavesSlack(rest: seq<real>, x: real, rate: real, cap: real, s: real, t: real)
    requires Ordered(rest + [x], x) && WindowsAllow(rest, rate, cap, x) && s <= x <= t && rate >= 0.0
    ensures Slack(rest + [x], rate, cap, s, t) >= 0.0
  {
    SlackAppend(rest, rate, cap, s, x);
    assert Slack(rest, rate, cap, s, x) >= 1.0;
    SlackGrows(rest + [x], rate, cap, s, x, t);
  }

  lemma {:induction false} LawfulSlack(ts: seq<real>, rate: real, cap: real, s: real, t: real, last: real)
    requires Ordered(ts, last) && Lawful(ts, rate, cap) && s <= t && rate >= 0.0 && cap >= 0.0
    ensures Slack(ts, rate, cap, s, t) >= 0.0
  {
    if ts == [] {
      EarnedGrows(rate, t - s);
    } else {
      var rest, x := ts[..|ts| - 1], ts[|ts| - 1];
      assert rest + [x] == ts;
      if s <= x <= t {
        assert WindowsAllow(ts[..|ts| - 1], rate, cap, ts[|ts| - 1]);
        AllowedLeavesSlack(rest, x, rate, cap, s, t);
      } else {
        LawfulPrefix(ts, rate, cap, |ts| - 1);
        LawfulSlack(rest, rate, cap, s, t, last);
        assert Within(ts, s, t) == Within(rest, s, t);
      }
    }
  }

  /** A lawful history stays within the budget of every closed window. */
  lemma LawfulCeiling(ts: seq<real>, rate: real, cap: real, s: real, t: real, last: real)
    requires Ordered(ts, last) && Lawful(ts, rate, cap) && s <= t && rate >= 0.0 && cap >= 0.0
    ensures Within(ts, s, t) as real <= cap + Earned(rate, t - s)
  {
    LawfulSlack(ts, rate, cap, s, t, last);
  }

  /** An admission not yet earned back by `now`. */
  ghost predicate Unearned(ts: seq<real>, rate: real, cap: real, now: real)
  {
    exists t :: t in ts && Earned(rate, now - t) < cap
  }

  lemma EarnedBackIsIdle(ts: seq<real>, rate: real, cap: real, last: real, now: real)
    requires Ordered(ts, last) && last <= now && Lawful(ts, rate, cap) && rate >= 0.0 && cap >= 0.0
    requires !Unearned(ts, rate, cap, now)
    ensures Idle(ts, rate, cap, now)
  {
    forall s | s <= now ensures Slack(ts, rate, cap, s, now) >= cap {
      var m := if ts == [] then s - 1.0 else ts[|ts| - 1];
      if m < s {
        WithinEmpty(ts, s, now, m);
        EarnedGrows(rate, now - s);
      } else {
        assert m in ts;
        LawfulSlack(ts, rate, cap, s, m, m);
        SlackLater(ts, rate, cap, s, m, now);
      }
    }
  }

  /** A bucket that has not refilled has an admission not yet earned back. */
  lemma UnfilledIsUnearned(b: Bucket, ts: seq<real>, rate: real, cap: real, now: real)
    requires Tracks(b, ts, rate, cap) && Lawful(ts, rate, cap) && b.last <= now && rate >= 0.0 && cap >= 0.0
    requires b.tokens + Earned(rate, now - b.last) < cap
    ensures Unearned(ts, rate, cap, now)
  {
    if !Unearned(ts, rate, cap, now) {
      EarnedBackIsIdle(ts, rate, cap, b.last, now);
      var w := RefillMeets(b, ts, rate, cap, now);
    }
  }

  lemma EarnedLess(rate: real, a: real, b: real)
    requires rate >= 0.0 && a <= b
    ensures Earned(rate, a) <= Earned(rate, b)
  {
  }
}
