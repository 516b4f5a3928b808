/** Per-site request metrics: a ring of sixty one-second buckets and a ring of the
    last 1024 latencies, proved to agree with the full history of requests. */
module MetricsRing {

  const SLOTS := 60
  const LATENCIES := 1024

  datatype Sample = Sample(status: int, bytes: int, latency: int)

  /** One recorded request: the second it was recorded in and what was observed. */
  datatype Entry = Entry(at: int, sample: Sample)

  datatype Totals = Totals(reqs: int, bytes: int, errors: int)

  datatype Bucket = Bucket(ts: int, totals: Totals)

  datatype Reading = Reading(lifetime: Totals, lastMinute: Totals, perSecond: seq<int>, p50: int, p95: int, p99: int,
                             statusCounts: map<int, int>)

  const Zero := Totals(0, 0, 0)

  function Plus(a: Totals, b: Totals): Totals
  {
    Totals(a.reqs + b.reqs, a.bytes + b.bytes, a.errors + b.errors)
  }

  lemma PlusZero(t: Totals)
    ensures Plus(t, Zero) == t == Plus(Zero, t)
  {
  }

  lemma PlusOne(a: Totals, b: Totals, one: Totals)
    ensures Plus(Plus(a, b), one) == Plus(Plus(a, one), b) == Plus(a, Plus(b, one))
  {
  }

  predicate IsError(s: Sample)
  {
    s.status >= 500 || s.status == 0
  }

  /** What one request adds. */
  function One(s: Sample): Totals
  {
    Totals(1, if s.bytes > 0 then s.bytes else 0, if IsError(s) then 1 else 0)
  }

  /** Nanoseconds to a 32-bit count of whole milliseconds; a latency that is
      positive but less than one counts as one. */
  function Millis(ns: int): (ms: int)
    ensures 0 <= ms < 0x1_0000_0000 && (0 < ns ==> 0 < ms)
    ensures -1_000_000 < ns <= 0 ==> ms == 0
    ensures 0 < ns < 1_000_000 ==> ms == 1
    ensures 1_000_000 <= ns < 1_000_000 * 0x1_0000_0000 ==> 1_000_000 * ms <= ns < 1_000_000 * (ms + 1)
  {
    var whole := if ns >= 0 then ns / 1_000_000 else -(-ns / 1_000_000);
    var wrapped := whole % 0x1_0000_0000;
    if wrapped == 0 && ns > 0 then 1 else wrapped
  }

  // ---- what the history says ----

  /** The slot a second falls in. */
  function SlotOf(sec: int): (i: int)
    ensures 0 <= i < SLOTS
  {
    sec % 60
  }

  /** A set of seconds: all, one, an interval, or what an interval has in one slot
      or in the slots below it. */
  datatype Span = Always | During(sec: int) | Between(lo: int, hi: int) | InSlot(lo: int, hi: int, slot: int)
                | BelowSlot(lo: int, hi: int, slot: int)

  predicate Has(span: Span, t: int)
  {
    match span
    case Always => true
    case During(sec) => t == sec
    case Between(lo, hi) => lo <= t <= hi
    case InSlot(lo, hi, slot) => lo <= t <= hi && SlotOf(t) == slot
    case BelowSlot(lo, hi, slot) => lo <= t <= hi && SlotOf(t) < slot
  }

  /** The requests recorded in a second of the span, added up. */
  function Tally(h: seq<Entry>, span: Span): Totals
  {
    if h == [] then Zero
    else
      var rest := Tally(h[..|h| - 1], span);
      if Has(span, h[|h| - 1].at) then Plus(rest, One(h[|h| - 1].sample)) else rest
  }

  function CountStatus(h: seq<Entry>, status: int): int
  {
    if h == [] then 0
    else CountStatus(h[..|h| - 1], status) + if h[|h| - 1].sample.status == status then 1 else 0
  }

  /** The latencies of the last 1024 requests. */
  function Window(h: seq<Entry>): (w: seq<int>)
    ensures |w| == if |h| < LATENCIES then |h| else LATENCIES
  {
    var from := if |h| < LATENCIES then 0 else |h| - LATENCIES;
    seq(|h| - from, i requires 0 <= i < |h| - from => Millis(h[from + i].sample.latency))
  }

  lemma {:induction false} SameTally(h: seq<Entry>, f: Span, g: Span)
    requires forall e :: e in h ==> (Has(f, e.at) <==> Has(g, e.at))
    ensures Tally(h, f) == Tally(h, g)
  {
    if h != [] {
      assert h[|h| - 1] in h;
      SameTally(h[..|h| - 1], f, g);
    }
  }

  lemma {:induction false} NoTally(h: seq<Entry>, f: Span)
    requires forall e :: e in h ==> !Has(f, e.at)
    ensures Tally(h, f) == Zero
  {
    if h != [] {
      assert h[|h| - 1] in h;
      NoTally(h[..|h| - 1], f);
    }
  }

  /** A set of seconds split in two. */
  lemma {:induction false} SplitTally(h: seq<Entry>, f: Span, g: Span, k: Span)
    requires forall e :: e in h ==> (Has(f, e.at) <==> Has(g, e.at) || Has(k, e.at)) && !(Has(g, e.at) && Has(k, e.at))
    ensures Tally(h, f) == Plus(Tally(h, g), Tally(h, k))
  {
    if h != [] {
      var rest, one := h[..|h| - 1], One(h[|h| - 1].sample);
      assert h[|h| - 1] in h;
      SplitTally(rest, f, g, k);
      PlusOne(Tally(rest, g), Tally(rest, k), one);
    }
  }

  lemma OneMore(h: seq<Entry>, e: Entry, span: Span)
    ensures Tally(h + [e], span) == if Has(span, e.at) then Plus(Tally(h, span), One(e.sample)) else Tally(h, span)
  {
    assert (h + [e])[..|h|] == h;
  }

  // ---- the ring of buckets ----

  /** No request is newer than `last`, and none was recorded in second zero, which
      marks an empty bucket. */
  ghost predicate Clocked(h: seq<Entry>, last: int)
  {
    forall e :: e in h ==> 1 <= e.at <= last
  }

  /** Slot `i` holds the newest second of its residue, with that second's totals. */
  ghost predicate SlotOK(h: seq<Entry>, i: nat, b: Bucket)
  {
    && b.totals == Tally(h, During(b.ts))
    && (b.ts != 0 ==> SlotOf(b.ts) == i)
    && (forall e :: e in h && SlotOf(e.at) == i ==> e.at <= b.ts)
  }

  ghost predicate RingOK(h: seq<Entry>, buckets: seq<Bucket>, last: int)
  {
    && |buckets| == SLOTS && Clocked(h, last)
    && (forall i :: 0 <= i < SLOTS ==> SlotOK(h, i, buckets[i]) && buckets[i].ts <= last)
  }

  lemma RecordedHere(h: seq<Entry>, e: Entry, i: nat, b: Bucket, last: int)
    requires Clocked(h, last) && last <= e.at && 1 <= e.at && SlotOK(h, i, b) && b.ts <= last && i == SlotOf(e.at)
    ensures SlotOK(h + [e], i, Bucket(e.at, Plus(if b.ts == e.at then b.totals else Zero, One(e.sample))))
  {
    OneMore(h, e, During(e.at));
    if b.ts != e.at {
      assert forall x :: x in h ==> x.at != e.at;
      NoTally(h, During(e.at));
    }
  }

  lemma RecordedElsewhere(h: seq<Entry>, e: Entry, i: nat, b: Bucket)
    requires SlotOK(h, i, b) && i != SlotOf(e.at) && e.at != 0
    ensures SlotOK(h + [e], i, b)
  {
    OneMore(h, e, During(b.ts));
  }

  lemma SameSecond(s: int, t: int, now: int)
    requires now - SLOTS < s <= now && now - SLOTS < t <= now && SlotOf(s) == SlotOf(t)
    ensures s == t
  {
  }

  /** What slot `i` holds of the last minute. */
  function SlotShare(b: Bucket, now: int): Totals
  {
    if b.ts == 0 || now - b.ts >= SLOTS then Zero else b.totals
  }

  lemma SlotIsItsSecond(h: seq<Entry>, b: Bucket, last: int, now: int, i: nat)
    requires SlotOK(h, i, b) && b.ts <= last && Clocked(h, last) && last <= now && SLOTS - 1 <= now && i < SLOTS
    ensures Tally(h, InSlot(now - SLOTS + 1, now, i)) == SlotShare(b, now)
  {
    var mine := InSlot(now - SLOTS + 1, now, i);
    if b.ts == 0 || now - b.ts >= SLOTS {
      NoTally(h, mine);
    } else {
      forall e | e in h ensures Has(mine, e.at) <==> Has(During(b.ts), e.at) {
        if Has(mine, e.at) {
          SameSecond(e.at, b.ts, now);
        }
      }
      SameTally(h, mine, During(b.ts));
    }
  }

  /** One slot more of the last minute. */
  lemma NextSlot(h: seq<Entry>, lo: int, hi: int, i: nat)
    ensures Tally(h, BelowSlot(lo, hi, i + 1)) == Plus(Tally(h, BelowSlot(lo, hi, i)), Tally(h, InSlot(lo, hi, i)))
  {
    SplitTally(h, BelowSlot(lo, hi, i + 1), BelowSlot(lo, hi, i), InSlot(lo, hi, i));
  }

  /** One second more of an interval. */
  lemma NextSecond(h: seq<Entry>, lo: int, t: int)
    requires lo <= t
    ensures Tally(h, Between(lo, t)) == Plus(Tally(h, Between(lo, t - 1)), Tally(h, During(t)))
  {
    SplitTally(h, Between(lo, t), Between(lo, t - 1), During(t));
  }

  /** The bucket of second `ts` of the last minute, or nothing recorded then. */
  lemma SecondShare(h: seq<Entry>, b: Bucket, last: int, now: int, ts: int)
    requires SlotOK(h, SlotOf(ts), b) && b.ts <= last && Clocked(h, last) && last <= now && now - SLOTS < ts <= now
    ensures Tally(h, During(ts)) == if b.ts == ts then b.totals else Zero
  {
    if b.ts != ts {
      forall e | e in h ensures e.at != ts {
        if e.at == ts {
          SameSecond(ts, b.ts, now);
        }
      }
      NoTally(h, During(ts));
    }
  }

  /** What the loop over the slots adds in turn `i`. */
  lemma MinuteTurn(h: seq<Entry>, buckets: seq<Bucket>, last: int, now: int, i: nat, sum: Totals)
    requires RingOK(h, buckets, last) && last <= now && SLOTS - 1 <= now && i < SLOTS
    requires sum == Tally(h, BelowSlot(now - SLOTS + 1, now, i))
    ensures Tally(h, BelowSlot(now - SLOTS + 1, now, i + 1)) == Plus(sum, SlotShare(buckets[i], now))
    ensures buckets[i].ts == 0 || now - buckets[i].ts >= SLOTS ==>
            Tally(h, BelowSlot(now - SLOTS + 1, now, i + 1)) == sum
  {
    SlotIsItsSecond(h, buckets[i], last, now, i);
    NextSlot(h, now - SLOTS + 1, now, i);
    PlusZero(sum);
  }

  function CountAt(b: Bucket, ts: int): int
  {
    if b.ts == ts then b.totals.reqs else 0
  }

  lemma SecondCount(h: seq<Entry>, buckets: seq<Bucket>, last: int, now: int, ts: int)
    requires RingOK(h, buckets, last) && last <= now && SLOTS - 1 <= now && now - SLOTS < ts <= now
    ensures var b := buckets[SlotOf(ts)]; Tally(h, During(ts)) == if b.ts == ts then b.totals else Zero
  {
    SecondShare(h, buckets[SlotOf(ts)], last, now, ts);
  }

  lemma SeriesSum(h: seq<Entry>, b: Bucket, lo: int, ts: int)
    requires Tally(h, During(ts)) == if b.ts == ts then b.totals else Zero
    requires lo <= ts
    ensures CountAt(b, ts) == Tally(h, During(ts)).reqs
    ensures Tally(h, Between(lo, ts)).reqs == Tally(h, Between(lo, ts - 1)).reqs + CountAt(b, ts)
  {
    NextSecond(h, lo, ts);
  }

  /** What the loop over the seconds adds for second `ts`. */
  lemma SeriesTurn(h: seq<Entry>, buckets: seq<Bucket>, last: int, now: int, ts: int)
    requires RingOK(h, buckets, last) && last <= now && SLOTS - 1 <= now && now - SLOTS < ts <= now
    ensures var b := buckets[SlotOf(ts)];
            && CountAt(b, ts) == Tally(h, During(ts)).reqs
            && Tally(h, Between(now - SLOTS + 1, ts)).reqs ==
                Tally(h, Between(now - SLOTS + 1, ts - 1)).reqs + CountAt(b, ts)
  {
    SecondCount(h, buckets, last, now, ts);
    SeriesSum(h, buckets[SlotOf(ts)], now - SLOTS + 1, ts);
  }

  lemma MinuteBegins(h: seq<Entry>, lo: int, now: int)
    ensures Tally(h, BelowSlot(lo, now, 0)) == Zero
  {
    NoTally(h, BelowSlot(lo, now, 0));
  }

  lemma MinuteEnds(h: seq<Entry>, lo: int, now: int)
    ensures Tally(h, BelowSlot(lo, now, SLOTS)) == Tally(h, Between(lo, now))
  {
    SameTally(h, BelowSlot(lo, now, SLOTS), Between(lo, now));
  }

  function Sum(s: seq<int>): int
  {
    if s == [] then 0 else Sum(s[..|s| - 1]) + s[|s| - 1]
  }

  // ---- the ring of latencies ----

  /** Request number `k` of the last 1024 is in slot `k` modulo 1024. */
  ghost predicate LatencyOK(h: seq<Entry>, ring: seq<int>, idx: nat, n: nat)
  {
    && |ring| == LATENCIES && idx == |h| % LATENCIES && n == |Window(h)|
    && (forall k :: |h| - n <= k < |h| ==> ring[k % LATENCIES] == Millis(h[k].sample.latency))
  }

  lemma LatencyRecorded(h: seq<Entry>, ring: seq<int>, idx: nat, n: nat, e: Entry)
    requires LatencyOK(h, ring, idx, n)
    ensures var n' := if n < LATENCIES then n + 1 else n;
            LatencyOK(h + [e], ring[idx := Millis(e.sample.latency)], (idx + 1) % LATENCIES, n')
  {
    forall k | |h| - n <= k < |h| && k + LATENCIES != |h| ensures k % LATENCIES != idx {
      NotSameSlot(k, |h|);
    }
  }

  lemma NotSameSlot(k: int, n: int)
    requires n - LATENCIES < k < n
    ensures k % LATENCIES != n % LATENCIES
  {
  }

  lemma ModShift(n: nat, j: nat)
    requires n >= LATENCIES && j < LATENCIES
    ensures var idx := n % LATENCIES; var k := if j < idx then n - idx + j else n - idx - LATENCIES + j;
            n - LATENCIES <= k < n && k % LATENCIES == j
  {
  }

  lemma YoungRing(h: seq<Entry>, ring: seq<int>, idx: nat, n: nat)
    requires LatencyOK(h, ring, idx, n) && |h| < LATENCIES
    ensures ring[..n] == Window(h)
  {
    forall j | 0 <= j < n ensures ring[j] == Window(h)[j] {
      assert j % LATENCIES == j;
    }
  }

  lemma FullRing(h: seq<Entry>, ring: seq<int>, idx: nat, n: nat)
    requires LatencyOK(h, ring, idx, n) && |h| >= LATENCIES
    ensures ring[..n] == Window(h)[LATENCIES - idx..] + Window(h)[..LATENCIES - idx]
  {
    var w, cut := Window(h), LATENCIES - idx;
    forall j | 0 <= j < LATENCIES ensures ring[j] == (w[cut..] + w[..cut])[j] {
      ModShift(|h|, j);
    }
  }

  /** The ring holds exactly the last observations: in order until it is full, in
      rotated order afterwards. */
  lemma RingIsWindow(h: seq<Entry>, ring: seq<int>, idx: nat, n: nat)
    requires LatencyOK(h, ring, idx, n)
    ensures multiset(ring[..n]) == multiset(Window(h))
  {
    if |h| < LATENCIES {
      YoungRing(h, ring, idx, n);
    } else {
      FullRing(h, ring, idx, n);
      var w, cut := Window(h), LATENCIES - idx;
      assert w == w[..cut] + w[cut..];
    }
  }

  // ---- percentiles ----

  predicate Ascending(s: seq<int>)
  {
    forall i, j :: 0 <= i <= j < |s| ==> s[i] <= s[j]
  }

  function Insert(x: int, s: seq<int>): (r: seq<int>)
    requires Ascending(s)
    ensures Ascending(r) && multiset(r) == multiset(s) + multiset{x}
    ensures |r| == |s| + 1 && r[0] == if s == [] || x <= s[0] then x else s[0]
  {
    if s == [] || x <= s[0] then [x] + s
    else
      assert s == [s[0]] + s[1..];
      [s[0]] + Insert(x, s[1..])
  }

  function Sorted(s: seq<int>): (r: seq<int>)
    ensures Ascending(r) && multiset(r) == multiset(s) && |r| == |s|
  {
    if s == [] then []
    else
      assert s == [s[0]] + s[1..];
      Insert(s[0], Sorted(s[1..]))
  }

  function Pct(sorted: seq<int>, p: nat): int
  {
    if |sorted| == 0 then 0
    else
      var i := |sorted| * p / 100;
      sorted[if i >= |sorted| then |sorted| - 1 else i]
  }

  function Below(s: seq<int>, v: int): int
  {
    if s == [] then 0 else Below(s[1..], v) + if s[0] < v then 1 else 0
  }

  lemma {:induction false} BelowOfSum(a: seq<int>, b: seq<int>, v: int)
    ensures Below(a + b, v) == Below(a, v) + Below(b, v)
  {
    if a == [] {
      assert a + b == b;
    } else {
      assert (a + b)[1..] == a[1..] + b;
      BelowOfSum(a[1..], b, v);
    }
  }

  lemma TakeOut(b: seq<int>, i: nat)
    requires i < |b|
    ensures multiset(b) == multiset{b[i]} + multiset(b[..i] + b[i + 1..])
    ensures forall v :: Below(b, v) == Below(b[..i] + b[i + 1..], v) + if b[i] < v then 1 else 0
  {
    assert b == b[..i] + ([b[i]] + b[i + 1..]);
    forall v: int ensures Below(b, v) == Below(b[..i] + b[i + 1..], v) + if b[i] < v then 1 else 0 {
      BelowOfSum(b[..i], b[i + 1..], v);
      BelowOfSum(b[..i], [b[i]] + b[i + 1..], v);
    }
  }

  /** Counting does not look at the order. */
  lemma {:induction false} BelowOfMultiset(a: seq<int>, b: seq<int>, v: int)
    requires multiset(a) == multiset(b)
    ensures Below(a, v) == Below(b, v)
  {
    assert |multiset(a)| == |a| && |multiset(b)| == |b|;
    if a != [] {
      assert a[0] in multiset(b);
      var i :| 0 <= i < |b| && b[i] == a[0];
      assert a == [a[0]] + a[1..];
      TakeOut(b, i);
      assert multiset(a[1..]) == multiset(a) - multiset{a[0]};
      assert multiset(b[..i] + b[i + 1..]) == multiset(b) - multiset{b[i]};
      BelowOfMultiset(a[1..], b[..i] + b[i + 1..], v);
    }
  }

  lemma {:induction false} AllBelow(s: seq<int>, v: int)
    requires forall x :: x in s ==> x < v
    ensures Below(s, v) == |s|
  {
    if s != [] {
      assert s[0] in s && forall x :: x in s[1..] ==> x in s;
      AllBelow(s[1..], v);
    }
  }

  lemma {:induction false} NoneBelow(s: seq<int>, v: int)
    requires forall x :: x in s ==> x >= v
    ensures Below(s, v) == 0
  {
    if s != [] {
      assert s[0] in s && forall x :: x in s[1..] ==> x in s;
      NoneBelow(s[1..], v);
    }
  }

  lemma {:induction false} BelowBounds(s: seq<int>, v: int)
    ensures 0 <= Below(s, v) <= |s|
  {
    if s != [] {
      BelowBounds(s[1..], v);
    }
  }

  /** In ascending order at most `i` values are below the one at `i`. */
  lemma RankBelow(s: seq<int>, i: nat)
    requires Ascending(s) && i < |s|
    ensures Below(s, s[i]) <= i
  {
    assert s == s[..i] + s[i..];
    BelowOfSum(s[..i], s[i..], s[i]);
    BelowBounds(s[..i], s[i]);
    NoneBelow(s[i..], s[i]);
  }

  /** More than `i` are at or below it. */
  lemma RankAtOrBelow(s: seq<int>, i: nat)
    requires Ascending(s) && i < |s|
    ensures i < Below(s, s[i] + 1)
  {
    assert s == s[..i + 1] + s[i + 1..];
    BelowOfSum(s[..i + 1], s[i + 1..], s[i] + 1);
    AllBelow(s[..i + 1], s[i] + 1);
    BelowBounds(s[i + 1..], s[i] + 1);
  }

  lemma {:induction false} BelowMonotone(s: seq<int>, u: int, v: int)
    requires u <= v
    ensures Below(s, u) <= Below(s, v)
  {
    if s != [] {
      BelowMonotone(s[1..], u, v);
    }
  }

  /** At most p percent of the values are below `v`, more than p percent are at or
      below it. */
  ghost predicate IsPercentile(w: seq<int>, p: nat, v: int)
  {
    v in w && 100 * Below(w, v) <= |w| * p < 100 * Below(w, v + 1)
  }

  lemma IndexBounds(n: nat, p: nat)
    requires 0 < n && p < 100
    ensures var i := n * p / 100; 0 <= i < n && 100 * i <= n * p < 100 * (i + 1)
  {
    assert n * p < n * 100;
  }

  lemma PctOfSorted(s: seq<int>, p: nat)
    requires s != [] && Ascending(s) && p < 100
    ensures IsPercentile(s, p, Pct(s, p))
  {
    IndexBounds(|s|, p);
    var i := |s| * p / 100;
    RankBelow(s, i);
    RankAtOrBelow(s, i);
  }

  lemma SamePercentile(a: seq<int>, b: seq<int>, p: nat, v: int)
    requires multiset(a) == multiset(b) && |a| == |b| && IsPercentile(a, p, v)
    ensures IsPercentile(b, p, v)
  {
    BelowOfMultiset(a, b, v);
    BelowOfMultiset(a, b, v + 1);
    assert v in multiset(a);
  }

  /** There is only one such value, whatever the order of the observations. */
  lemma PercentileIsUnique(w: seq<int>, p: nat, u: int, v: int)
    requires IsPercentile(w, p, u) && IsPercentile(w, p, v)
    ensures u == v
  {
    if u < v {
      BelowMonotone(w, u + 1, v);
    } else if v < u {
      BelowMonotone(w, v + 1, u);
    }
  }

  /** The percentiles reported for the ring are those of the window. */
  lemma RingPercentile(h: seq<Entry>, ring: seq<int>, idx: nat, n: nat, p: nat)
    requires LatencyOK(h, ring, idx, n) && h != [] && p < 100
    ensures IsPercentile(Window(h), p, Pct(Sorted(ring[..n]), p))
  {
    RingIsWindow(h, ring, idx, n);
    var s := Sorted(ring[..n]);
    PctOfSorted(s, p);
    SamePercentile(s, Window(h), p, Pct(s, p));
  }

  lemma PctMonotone(s: seq<int>, p: nat, q: nat)
    requires Ascending(s) && p <= q
    ensures Pct(s, p) <= Pct(s, q)
  {
    if s != [] {
      assert |s| * p <= |s| * q;
    }
  }

  // ---- the object ----

  /** What a snapshot taken in second `now` says about the history. */
  ghost predicate Faithful(out: Reading, h: seq<Entry>, now: int)
  {
    && out.lifetime == Tally(h, Always)
    && out.lastMinute == Tally(h, Between(now - SLOTS + 1, now))
    && |out.perSecond| == SLOTS
    && (forall i :: 0 <= i < SLOTS ==> out.perSecond[i] == Tally(h, During(now - SLOTS + 1 + i)).reqs)
    && Sum(out.perSecond) == out.lastMinute.reqs
    && (h != [] ==>
          && IsPercentile(Window(h), 50, out.p50) && IsPercentile(Window(h), 95, out.p95)
          && IsPercentile(Window(h), 99, out.p99))
    && (h == [] ==> out.p50 == out.p95 == out.p99 == 0)
    && out.p50 <= out.p95 <= out.p99
    && Statuses(h, out.statusCounts)
  }

  ghost predicate Statuses(h: seq<Entry>, counts: map<int, int>)
  {
    forall s :: if s in counts then counts[s] == CountStatus(h, s) && counts[s] > 0 else CountStatus(h, s) == 0
  }

  /** The lifetime counters and the histogram agree with the history. */
  ghost predicate CountersOK(h: seq<Entry>, lifetime: Totals, counts: map<int, int>)
  {
    lifetime == Tally(h, Always) && Statuses(h, counts)
  }

  // ---- a snapshot, request by request ----

  /** The requests of a history that `p` holds of. */
  function Which(h: seq<Entry>, p: Entry -> bool): set<nat>
  {
    set i | 0 <= i < |h| && p(h[i])
  }

  lemma OneWhichMore(h: seq<Entry>, p: Entry -> bool)
    requires h != []
    ensures var n := |h| - 1; |Which(h, p)| == |Which(h[..n], p)| + if p(h[n]) then 1 else 0
  {
    var n := |h| - 1;
    assert Which(h, p) == Which(h[..n], p) + if p(h[n]) then {n} else {};
  }

  lemma WhichOfNone(p: Entry -> bool)
    ensures |Which([], p)| == 0
  {
    assert Which([], p) == {};
  }

  function Within(lo: int, hi: int): Entry -> bool
  {
    (e: Entry) => lo <= e.at <= hi
  }

  /** Server errors, and requests whose upstream was not reached. */
  function Failing(lo: int, hi: int): Entry -> bool
  {
    (e: Entry) => lo <= e.at <= hi && (e.sample.status >= 500 || e.sample.status == 0)
  }

  function Answered(status: int): Entry -> bool
  {
    (e: Entry) => e.sample.status == status
  }

  /** What each request adds to the bytes of an interval. */
  function Sizes(h: seq<Entry>, lo: int, hi: int): seq<int>
  {
    seq(|h|, i requires 0 <= i < |h| => if lo <= h[i].at <= hi && h[i].sample.bytes > 0 then h[i].sample.bytes else 0)
  }

  lemma SizesMore(h: seq<Entry>, lo: int, hi: int)
    requires h != []
    ensures var n := |h| - 1;
            Sum(Sizes(h, lo, hi)) == Sum(Sizes(h[..n], lo, hi)) + Sizes(h, lo, hi)[n]
  {
    var n := |h| - 1;
    assert Sizes(h, lo, hi)[..n] == Sizes(h[..n], lo, hi);
  }

  lemma {:induction false} TallyExactly(h: seq<Entry>, lo: int, hi: int)
    ensures Tally(h, Between(lo, hi)) ==
            Totals(|Which(h, Within(lo, hi))|, Sum(Sizes(h, lo, hi)), |Which(h, Failing(lo, hi))|)
  {
    if h == [] {
      WhichOfNone(Within(lo, hi));
      WhichOfNone(Failing(lo, hi));
    } else {
      TallyExactly(h[..|h| - 1], lo, hi);
      OneWhichMore(h, Within(lo, hi));
      OneWhichMore(h, Failing(lo, hi));
      SizesMore(h, lo, hi);
    }
  }

  lemma {:induction false} StatusExactly(h: seq<Entry>, status: int)
    ensures CountStatus(h, status) == |Which(h, Answered(status))|
  {
    if h == [] {
      WhichOfNone(Answered(status));
    } else {
      StatusExactly(h[..|h| - 1], status);
      OneWhichMore(h, Answered(status));
    }
  }

  lemma LifetimeExactly(h: seq<Entry>, now: int)
    requires Clocked(h, now)
    ensures Tally(h, Always) == Totals(|h|, Sum(Sizes(h, 1, now)), |Which(h, Failing(1, now))|)
  {
    SameTally(h, Always, Between(1, now));
    TallyExactly(h, 1, now);
    AllOfThem(h, 1, now);
  }

  lemma SecondExactly(h: seq<Entry>, t: int)
    ensures Tally(h, During(t)).reqs == |Which(h, Within(t, t))|
  {
    SameTally(h, During(t), Between(t, t));
    TallyExactly(h, t, t);
  }

  lemma StatusesExactly(h: seq<Entry>, counts: map<int, int>, s: int)
    requires Statuses(h, counts)
    ensures s in counts <==> Which(h, Answered(s)) != {}
    ensures s in counts ==> counts[s] == |Which(h, Answered(s))|
  {
    StatusExactly(h, s);
  }

  /** The lifetime and the last minute in numbers of requests, bytes and errors. */
  lemma ReadingExactly(out: Reading, h: seq<Entry>, now: int)
    requires Faithful(out, h, now) && Clocked(h, now)
    ensures out.lifetime == Totals(|h|, Sum(Sizes(h, 1, now)), |Which(h, Failing(1, now))|)
    ensures out.lastMinute ==
            Totals(|Which(h, Within(now - 59, now))|, Sum(Sizes(h, now - 59, now)), |Which(h, Failing(now - 59, now))|)
  {
    LifetimeExactly(h, now);
    TallyExactly(h, now - 59, now);
  }

  /** The seconds of the last minute and the status codes. */
  lemma ChartExactly(out: Reading, h: seq<Entry>, now: int)
    requires Faithful(out, h, now)
    ensures |out.perSecond| == 60
    ensures forall i :: 0 <= i < 60 ==> out.perSecond[i] == |Which(h, Within(now - 59 + i, now - 59 + i))|
    ensures forall s :: s in out.statusCounts ==> out.statusCounts[s] == |Which(h, Answered(s))|
    ensures forall s :: s in out.statusCounts <==> Which(h, Answered(s)) != {}
  {
    forall i | 0 <= i < 60 ensures out.perSecond[i] == |Which(h, Within(now - 59 + i, now - 59 + i))| {
      SecondExactly(h, now - 59 + i);
    }
    forall s ensures s in out.statusCounts <==> Which(h, Answered(s)) != {} {
      StatusesExactly(h, out.statusCounts, s);
    }
    forall s | s in out.statusCounts ensures out.statusCounts[s] == |Which(h, Answered(s))| {
      StatusesExactly(h, out.statusCounts, s);
    }
  }

  lemma {:induction false} AllOfThem(h: seq<Entry>, lo: int, hi: int)
    requires forall e :: e in h ==> lo <= e.at <= hi
    ensures |Which(h, Within(lo, hi))| == |h|
  {
    if h == [] {
      WhichOfNone(Within(lo, hi));
    } else {
      assert h[|h| - 1] in h;
      AllOfThem(h[..|h| - 1], lo, hi);
      OneWhichMore(h, Within(lo, hi));
    }
  }

  lemma CountersRecorded(h: seq<Entry>, lifetime: Totals, counts: map<int, int>, e: Entry)
    requires CountersOK(h, lifetime, counts)
    ensures var s := e.sample.status;
            CountersOK(h + [e], Plus(lifetime, One(e.sample)), counts[s := 1 + if s in counts then counts[s] else 0])
  {
    OneMore(h, e, Always);
    assert (h + [e])[..|h|] == h;
  }

  /** The three counters, bumped one by one. */
  method Count(was: Totals, sm: Sample) returns (t: Totals)
    ensures t == Plus(was, One(sm))
  {
    t := was.(reqs := was.reqs + 1);
    if sm.bytes > 0 {
      t := t.(bytes := t.bytes + sm.bytes);
    }
    if IsError(sm) {
      t := t.(errors := t.errors + 1);
    }
  }

  class Site {
    var lifetime: Totals
    const buckets: array<Bucket>
    const latency: array<int>
    var latencyIdx: nat
    var latencyN: nat
    var statusCounts: map<int, int>
    ghost var history: seq<Entry>
    ghost var last: int

    ghost predicate Valid()
      reads this, buckets, latency
    {
      && RingOK(history, buckets[..], last)
      && LatencyOK(history, latency[..], latencyIdx, latencyN)
      && CountersOK(history, lifetime, statusCounts)
    }

    constructor ()
      ensures Valid() && history == [] && last == 0 && fresh(buckets) && fresh(latency)
    {
      lifetime := Zero;
      buckets := new Bucket[SLOTS](_ => Bucket(0, Zero));
      latency := new int[LATENCIES](_ => 0);
      latencyIdx, latencyN, statusCounts := 0, 0, map[];
      history, last := [], 0;
    }

    /** Records one request in second `now`. */
    method Record(now: int, sm: Sample)
      requires Valid() && last <= now && 1 <= now
      modifies this`lifetime, this`latencyIdx, this`latencyN, this`statusCounts, this`history, this`last
      modifies buckets, latency
      ensures Valid() && history == old(history) + [Entry(now, sm)] && last == now
    {
      ghost var e := Entry(now, sm);
      CountersRecorded(history, lifetime, statusCounts, e);
      lifetime := Count(lifetime, sm);
      RecordRings(now, sm);
      statusCounts := statusCounts[sm.status := 1 + if sm.status in statusCounts then statusCounts[sm.status] else 0];
      history, last := history + [e], now;
    }

    method RecordRings(now: int, sm: Sample)
      requires RingOK(history, buckets[..], last) && last <= now && 1 <= now
      requires LatencyOK(history, latency[..], latencyIdx, latencyN)
      modifies this`latencyIdx, this`latencyN, buckets, latency
      ensures RingOK(history + [Entry(now, sm)], buckets[..], now)
      ensures LatencyOK(history + [Entry(now, sm)], latency[..], latencyIdx, latencyN)
    {
      RecordBucket(now, sm);
      RecordLatency(Millis(sm.latency), Entry(now, sm));
    }

    method RecordBucket(now: int, sm: Sample)
      requires buckets != latency as object && RingOK(history, buckets[..], last) && last <= now && 1 <= now
      modifies buckets
      ensures RingOK(history + [Entry(now, sm)], buckets[..], now)
    {
      ghost var e, was := Entry(now, sm), buckets[..];
      var idx := SlotOf(now);
      if buckets[idx].ts != now {
        buckets[idx] := Bucket(now, Zero);
      }
      var b := Count(buckets[idx].totals, sm);
      buckets[idx] := Bucket(now, b);
      forall i: nat | i < SLOTS ensures SlotOK(history + [e], i, buckets[i]) && buckets[i].ts <= now {
        assert SlotOK(history, i, was[i]);
        if i == idx {
          RecordedHere(history, e, i, was[i], last);
        } else {
          RecordedElsewhere(history, e, i, was[i]);
        }
      }
    }

    method RecordLatency(ms: int, ghost e: Entry)
      requires LatencyOK(history, latency[..], latencyIdx, latencyN) && ms == Millis(e.sample.latency)
      modifies latency, this`latencyIdx, this`latencyN
      ensures LatencyOK(history + [e], latency[..], latencyIdx, latencyN)
    {
      LatencyRecorded(history, latency[..], latencyIdx, latencyN, e);
      latency[latencyIdx] := ms;
      latencyIdx := (latencyIdx + 1) % LATENCIES;
      if latencyN < LATENCIES {
        latencyN := latencyN + 1;
      }
    }

    /** The snapshot of second `now`. */
    method Snapshot(now: int) returns (out: Reading)
      requires Valid() && last <= now && SLOTS - 1 <= now
      ensures Faithful(out, history, now)
    {
      var minute := LastMinute(now);
      var series := Series(now);
      var p50, p95, p99 := Percentiles();
      out := Reading(lifetime, minute, series, p50, p95, p99, statusCounts);
    }

    method LastMinute(now: int) returns (sum: Totals)
      requires RingOK(history, buckets[..], last) && last <= now && SLOTS - 1 <= now
      ensures sum == Tally(history, Between(now - SLOTS + 1, now))
    {
      sum := Zero;
      var i := 0;
      ghost var lo := now - SLOTS + 1;
      MinuteBegins(history, lo, now);
      while i < SLOTS
        invariant 0 <= i <= SLOTS
        invariant sum == Tally(history, BelowSlot(lo, now, i))
      {
        var b := buckets[i];
        MinuteTurn(history, buckets[..], last, now, i, sum);
        if b.ts != 0 && now - b.ts < SLOTS {
          sum := Plus(sum, b.totals);
        }
        i := i + 1;
      }
      MinuteEnds(history, lo, now);
    }

    method Series(now: int) returns (perSecond: seq<int>)
      requires RingOK(history, buckets[..], last) && last <= now && SLOTS - 1 <= now
      ensures |perSecond| == SLOTS
      ensures forall i :: 0 <= i < SLOTS ==> perSecond[i] == Tally(history, During(now - SLOTS + 1 + i)).reqs
      ensures Sum(perSecond) == Tally(history, Between(now - SLOTS + 1, now)).reqs
    {
      perSecond := [];
      var offset := 0;
      ghost var lo := now - SLOTS + 1;
      NoTally(history, Between(lo, lo - 1));
      while offset < SLOTS
        invariant 0 <= offset <= SLOTS && |perSecond| == offset
        invariant forall i :: 0 <= i < offset ==> perSecond[i] == Tally(history, During(lo + i)).reqs
        invariant Sum(perSecond) == Tally(history, Between(lo, lo + offset - 1)).reqs
      {
        var ts := now - (SLOTS - 1 - offset);
        var b := buckets[SlotOf(ts)];
        SeriesTurn(history, buckets[..], last, now, ts);
        var n := CountAt(b, ts);
        assert (perSecond + [n])[..offset] == perSecond;
        perSecond := perSecond + [n];
        offset := offset + 1;
      }
    }

    method Percentiles() returns (p50: int, p95: int, p99: int)
      requires LatencyOK(history, latency[..], latencyIdx, latencyN)
      ensures history != [] ==> IsPercentile(Window(history), 50, p50) && IsPercentile(Window(history), 95, p95)
      ensures history != [] ==> IsPercentile(Window(history), 99, p99)
      ensures history == [] ==> p50 == p95 == p99 == 0
      ensures p50 <= p95 <= p99
    {
      if latencyN == 0 {
        return 0, 0, 0;
      }
      var buf := Sorted(latency[..latencyN]);
      assert latency[..][..latencyN] == latency[..latencyN];
      RingPercentile(history, latency[..], latencyIdx, latencyN, 50);
      RingPercentile(history, latency[..], latencyIdx, latencyN, 95);
      RingPercentile(history, latency[..], latencyIdx, latencyN, 99);
      PctMonotone(buf, 50, 95);
      PctMonotone(buf, 95, 99);
      return Pct(buf, 50), Pct(buf, 95), Pct(buf, 99);
    }
  }
}
