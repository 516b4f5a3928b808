/** What the security page shows: the worst addresses and user names, suspicious
    logins, the newest failures and the failures of each hour. */
module SecurityPage {
  import opened Options
  import opened Sorting
  import opened Strings
  import opened SecurityMonitor

  // ---- rankings ----

  datatype Ranked = Ranked(name: string, score: nat)

  /** More first; by name among equals. */
  predicate Precedes(a: Ranked, b: Ranked)
  {
    a.score > b.score || (a.score == b.score && Less(a.name, b.name))
  }

  lemma PrecedesIsStrictTotal()
    ensures StrictTotal(Precedes)
  {
    LessIsStrictTotal();
  }

  ghost predicate IsRanking(all: seq<Ranked>, scores: map<string, nat>)
  {
    Ascending(Precedes, all) && forall r :: r in all <==> r.name in scores && r.score == scores[r.name]
  }

  function Capped<T>(s: seq<T>, cap: nat): seq<T>
  {
    if |s| > cap then s[..cap] else s
  }

  /** The best `cap` of the ranking, from names gathered in any order. */
  method Top(scores: map<string, nat>, cap: nat) returns (top: seq<Ranked>)
    ensures exists all :: IsRanking(all, scores) && |all| == |scores| && top == Capped(all, cap)
  {
    PrecedesIsStrictTotal();
    var sorted: seq<Ranked> := [];
    var todo := scores.Keys;
    while todo != {}
      invariant todo <= scores.Keys && Ascending(Precedes, sorted) && |sorted| + |todo| == |scores.Keys|
      invariant forall r :: r in sorted <==> r.name in scores && r.name !in todo && r.score == scores[r.name]
      decreases todo
    {
      var name :| name in todo;
      InsertAscends(Precedes, Ranked(name, scores[name]), sorted);
      sorted := Insert(Precedes, Ranked(name, scores[name]), sorted);
      todo := todo - {name};
    }
    top := Capped(sorted, cap);
  }

  /** The map's order does not show in the ranking, nor in its head. */
  lemma RankingIsUnique(a: seq<Ranked>, b: seq<Ranked>, scores: map<string, nat>)
    requires IsRanking(a, scores) && IsRanking(b, scores)
    ensures a == b
  {
    PrecedesIsStrictTotal();
    SortedIsUnique(Precedes, a, b);
  }

  /** Whoever is left out ranks after everyone who is shown. */
  lemma {:induction false} ShownIsBest(all: seq<Ranked>, scores: map<string, nat>, cap: nat, r: Ranked, shown: Ranked)
    requires IsRanking(all, scores) && r.name in scores && r.score == scores[r.name]
    requires r !in Capped(all, cap) && shown in Capped(all, cap)
    ensures shown.score > r.score || (shown.score == r.score && Less(shown.name, r.name))
  {
    var top := Capped(all, cap);
    var i :| 0 <= i < |top| && top[i] == shown;
    var rest := all[|top|..];
    assert all == top + rest;
    var j :| 0 <= j < |rest| && rest[j] == r;
    assert all[i] == shown && all[|top| + j] == r;
  }

  /** Addresses with at least one failure, by their attempts. */
  function Attackers(stats: Stats): map<string, nat>
  {
    map ip | ip in stats && stats[ip].failures + stats[ip].invalidUsers > 0 ::
      stats[ip].failures + stats[ip].invalidUsers + stats[ip].successes
  }

  // ---- suspicious logins ----

  const THRESHOLD := 20

  datatype Key = Key(ip: string, user: string, kind: Kind)

  datatype Hijack = Hijack(key: Key, count: nat, last: nat, high: bool)

  function KeyOf(e: Event): Key
  {
    Key(e.ip, e.user, e.kind)
  }

  /** From an address with many failures. */
  predicate High(stats: Stats, ip: string)
  {
    Touch(stats, ip).failures + Touch(stats, ip).invalidUsers >= THRESHOLD
  }

  predicate Flagged(stats: Stats, e: Event)
  {
    High(stats, e.ip) || e.kind == AcceptedPassword
  }

  function CountFlagged(events: seq<Event>, stats: Stats): nat
  {
    if events == [] then 0
    else CountFlagged(events[..|events| - 1], stats) + if Flagged(stats, events[|events| - 1]) then 1 else 0
  }

  function CountKey(events: seq<Event>, stats: Stats, k: Key): nat
  {
    if events == [] then 0
    else
      var e := events[|events| - 1];
      CountKey(events[..|events| - 1], stats, k) + if Flagged(stats, e) && KeyOf(e) == k then 1 else 0
  }

  function Latest(events: seq<Event>, stats: Stats, k: Key): nat
  {
    if events == [] then 0
    else
      var e, rest := events[|events| - 1], Latest(events[..|events| - 1], stats, k);
      if Flagged(stats, e) && KeyOf(e) == k && e.time > rest then e.time else rest
  }

  function RowOf(events: seq<Event>, stats: Stats, k: Key): Hijack
  {
    Hijack(k, CountKey(events, stats, k), Latest(events, stats, k), High(stats, k.ip))
  }

  /** High severity first, then the most recent. */
  predicate Before(a: Hijack, b: Hijack)
  {
    (a.high && !b.high) || (a.high == b.high && a.last > b.last)
  }

  predicate InOrder(rows: seq<Hijack>)
  {
    forall i, j :: 0 <= i < j < |rows| ==> !Before(rows[j], rows[i])
  }

  function Place(r: Hijack, rows: seq<Hijack>): (placed: seq<Hijack>)
    ensures forall x :: x in placed <==> x == r || x in rows
  {
    if rows == [] || Before(r, rows[0]) then [r] + rows else [rows[0]] + Place(r, rows[1..])
  }

  lemma {:induction false} PlaceKeepsOrder(r: Hijack, rows: seq<Hijack>)
    requires InOrder(rows)
    ensures InOrder(Place(r, rows))
  {
    if rows != [] && !Before(r, rows[0]) {
      var rest := Place(r, rows[1..]);
      PlaceKeepsOrder(r, rows[1..]);
      forall j | 0 <= j < |rest| ensures !Before(rest[j], rows[0]) {
        assert rest[j] in rest;
      }
    }
  }

  ghost predicate IndexOK(done: seq<Event>, stats: Stats, idx: map<Key, Hijack>, k: Key)
  {
    if k in idx then idx[k] == RowOf(done, stats, k) && idx[k].count > 0 else CountKey(done, stats, k) == 0
  }

  function AddFlagged(idx: map<Key, Hijack>, stats: Stats, e: Event): map<Key, Hijack>
  {
    if !Flagged(stats, e) then idx
    else
      var k := KeyOf(e);
      var h := if k in idx then idx[k] else Hijack(k, 0, e.time, High(stats, e.ip));
      idx[k := h.(count := h.count + 1, last := if e.time > h.last then e.time else h.last)]
  }

  lemma {:induction false} NoneIsNoTime(done: seq<Event>, stats: Stats, k: Key)
    requires CountKey(done, stats, k) == 0
    ensures Latest(done, stats, k) == 0
  {
    if done != [] {
      NoneIsNoTime(done[..|done| - 1], stats, k);
    }
  }

  lemma IndexGrows(done: seq<Event>, stats: Stats, idx: map<Key, Hijack>, e: Event)
    requires forall k :: IndexOK(done, stats, idx, k)
    ensures forall k :: IndexOK(done + [e], stats, AddFlagged(idx, stats, e), k)
  {
    assert (done + [e])[..|done|] == done;
    forall k ensures IndexOK(done + [e], stats, AddFlagged(idx, stats, e), k) {
      assert IndexOK(done, stats, idx, k);
      if k !in idx {
        NoneIsNoTime(done, stats, k);
      }
    }
  }

  /** The rows of the table: one for each address, user and method with a flagged
      login, in order of severity and then of recency. */
  ghost predicate RowsOK(successes: seq<Event>, stats: Stats, rows: seq<Hijack>)
  {
    && OneEach(rows)
    && (forall r :: r in rows ==> r == RowOf(successes, stats, r.key) && r.count > 0)
    && (forall k :: CountKey(successes, stats, k) > 0 ==> RowOf(successes, stats, k) in rows)
    && InOrder(rows)
  }

  method ClassifyHijacks(successes: seq<Event>, stats: Stats) returns (rows: seq<Hijack>)
    ensures RowsOK(successes, stats, rows)
  {
    var idx: map<Key, Hijack> := map[];
    var order: seq<Key> := [];
    var n := 0;
    while n < |successes|
      invariant 0 <= n <= |successes|
      invariant forall k :: IndexOK(successes[..n], stats, idx, k)
      invariant forall k :: k in order <==> k in idx
      invariant forall i, j :: 0 <= i < j < |order| ==> order[i] != order[j]
    {
      var e := successes[n];
      IndexGrows(successes[..n], stats, idx, e);
      assert successes[..n + 1] == successes[..n] + [e];
      n := n + 1;
      var st := Touch(stats, e.ip);
      var prior := st.failures + st.invalidUsers;
      ghost var idx' := AddFlagged(idx, stats, e);
      if prior < THRESHOLD && e.kind != AcceptedPassword {
        assert idx == idx';
        continue;
      }
      var k := KeyOf(e);
      if k !in idx {
        idx := idx[k := Hijack(k, 0, e.time, prior >= THRESHOLD)];
        order := order + [k];
      }
      var h := idx[k];
      h := h.(count := h.count + 1);
      if e.time != 0 && e.time > h.last {
        h := h.(last := e.time);
      }
      idx := idx[k := h];
      assert idx == idx';
    }
    assert successes[..n] == successes;
    forall k | k in idx ensures idx[k].key == k {
      assert IndexOK(successes, stats, idx, k);
    }
    rows := SortRows(idx, order);
    forall r | r in rows ensures r == RowOf(successes, stats, r.key) && r.count > 0 {
      assert IndexOK(successes, stats, idx, r.key);
    }
    forall k | CountKey(successes, stats, k) > 0 ensures RowOf(successes, stats, k) in rows {
      assert IndexOK(successes, stats, idx, k);
    }
  }

  method SortRows(idx: map<Key, Hijack>, order: seq<Key>) returns (rows: seq<Hijack>)
    requires forall k :: k in order <==> k in idx
    requires forall k :: k in idx ==> idx[k].key == k
    requires forall i, j :: 0 <= i < j < |order| ==> order[i] != order[j]
    ensures forall r :: r in rows <==> r.key in idx && r == idx[r.key]
    ensures OneEach(rows) && InOrder(rows)
  {
    rows := [];
    var n := 0;
    while n < |order|
      invariant 0 <= n <= |order| && OneEach(rows) && InOrder(rows)
      invariant forall r :: r in rows <==> r.key in order[..n] && r == idx[r.key]
    {
      assert order[n] in order && order[..n + 1] == order[..n] + [order[n]];
      PlaceKeepsOrder(idx[order[n]], rows);
      PlaceKeepsKeys(idx[order[n]], rows);
      rows := Place(idx[order[n]], rows);
      n := n + 1;
    }
    assert order[..n] == order;
  }

  /** No two rows for the same key. */
  ghost predicate OneEach(rows: seq<Hijack>)
  {
    forall i, j :: 0 <= i < j < |rows| ==> rows[i].key != rows[j].key
  }

  lemma OneEachMore(r: Hijack, rows: seq<Hijack>)
    requires OneEach(rows) && forall x :: x in rows ==> x.key != r.key
    ensures OneEach([r] + rows)
  {
    assert forall j :: 0 <= j < |rows| ==> rows[j] in rows;
  }

  lemma {:induction false} PlaceKeepsKeys(r: Hijack, rows: seq<Hijack>)
    requires OneEach(rows) && forall x :: x in rows ==> x.key != r.key
    ensures OneEach(Place(r, rows))
  {
    if rows == [] || Before(r, rows[0]) {
      OneEachMore(r, rows);
    } else {
      PlaceKeepsKeys(r, rows[1..]);
      assert rows == [rows[0]] + rows[1..];
      OneEachMore(rows[0], Place(r, rows[1..]));
    }
  }

  function SumRows(rows: seq<Hijack>): nat
  {
    if rows == [] then 0 else rows[0].count + SumRows(rows[1..])
  }

  function SumKeys(keys: seq<Key>, events: seq<Event>, stats: Stats): nat
  {
    if keys == [] then 0 else CountKey(events, stats, keys[0]) + SumKeys(keys[1..], events, stats)
  }

  ghost predicate DistinctKeys(keys: seq<Key>)
  {
    forall i, j :: 0 <= i < j < |keys| ==> keys[i] != keys[j]
  }

  lemma {:induction false} SumKeysGrows(keys: seq<Key>, events: seq<Event>, stats: Stats, e: Event)
    requires DistinctKeys(keys)
    ensures SumKeys(keys, events + [e], stats) ==
              SumKeys(keys, events, stats) + if Flagged(stats, e) && KeyOf(e) in keys then 1 else 0
  {
    if keys != [] {
      assert (events + [e])[..|events|] == events;
      assert keys == [keys[0]] + keys[1..];
      SumKeysGrows(keys[1..], events, stats, e);
    }
  }

  lemma {:induction false} KeysCoverFlagged(keys: seq<Key>, events: seq<Event>, stats: Stats)
    requires DistinctKeys(keys) && forall e :: e in events && Flagged(stats, e) ==> KeyOf(e) in keys
    ensures SumKeys(keys, events, stats) == CountFlagged(events, stats)
  {
    if events == [] {
      NoEventsNoSum(keys, stats);
    } else {
      var n := |events| - 1;
      assert events == events[..n] + [events[n]] && events[n] in events;
      KeysCoverFlagged(keys, events[..n], stats);
      SumKeysGrows(keys, events[..n], stats, events[n]);
    }
  }

  lemma {:induction false} NoEventsNoSum(keys: seq<Key>, stats: Stats)
    ensures SumKeys(keys, [], stats) == 0
  {
    if keys != [] {
      assert CountKey([], stats, keys[0]) == 0;
      NoEventsNoSum(keys[1..], stats);
    }
  }

  lemma {:induction false} FlaggedHasKey(events: seq<Event>, stats: Stats, e: Event)
    requires e in events && Flagged(stats, e)
    ensures CountKey(events, stats, KeyOf(e)) > 0
  {
    var n := |events| - 1;
    if e != events[n] {
      assert e in events[..n];
      FlaggedHasKey(events[..n], stats, e);
    }
  }

  lemma {:induction false} SumRowsIsSumKeys(rows: seq<Hijack>, keys: seq<Key>, events: seq<Event>, stats: Stats)
    requires |keys| == |rows| && forall i :: 0 <= i < |rows| ==>
             rows[i].key == keys[i] && rows[i].count == CountKey(events, stats, keys[i])
    ensures SumRows(rows) == SumKeys(keys, events, stats)
  {
    if rows != [] {
      SumRowsIsSumKeys(rows[1..], keys[1..], events, stats);
    }
  }

  /** The rows partition the flagged logins: their counts add up to exactly those,
      every high row comes before every other, and among rows alike the more recent
      come first. */
  lemma RowsPartitionFlagged(successes: seq<Event>, stats: Stats, rows: seq<Hijack>)
    requires RowsOK(successes, stats, rows)
    ensures SumRows(rows) == CountFlagged(successes, stats)
    ensures forall i, j :: 0 <= i < j < |rows| && High(stats, rows[j].key.ip) ==> High(stats, rows[i].key.ip)
    ensures forall i, j :: 0 <= i < j < |rows| && rows[i].high == rows[j].high ==> rows[i].last >= rows[j].last
  {
    var keys := seq(|rows|, i requires 0 <= i < |rows| => rows[i].key);
    assert forall i :: 0 <= i < |rows| ==> rows[i] in rows;
    SumRowsIsSumKeys(rows, keys, successes, stats);
    forall e | e in successes && Flagged(stats, e) ensures KeyOf(e) in keys {
      FlaggedHasKey(successes, stats, e);
      var i :| 0 <= i < |rows| && rows[i] == RowOf(successes, stats, KeyOf(e));
      assert keys[i] == KeyOf(e);
    }
    KeysCoverFlagged(keys, successes, stats);
  }

  // ---- newest first ----

  function Backwards<T>(s: seq<T>): (r: seq<T>)
    ensures |r| == |s| && forall i :: 0 <= i < |s| ==> r[i] == s[|s| - 1 - i]
  {
    seq(|s|, i requires 0 <= i < |s| => s[|s| - 1 - i])
  }

  lemma BackwardsOfSum<T>(a: seq<T>, b: seq<T>)
    ensures Backwards(a + b) == Backwards(b) + Backwards(a)
  {
  }

  /** Swaps from both ends towards the middle. */
  method Reverse(a: array<Event>)
    modifies a
    ensures a[..] == Backwards(old(a[..]))
  {
    var i, j := 0, a.Length - 1;
    while i < j
      invariant 0 <= i && i + j == a.Length - 1 && i <= j + 1
      invariant forall k :: 0 <= k < a.Length ==> a[k] == old(a[if i <= k <= j then k else a.Length - 1 - k])
    {
      a[i], a[j] := a[j], a[i];
      i, j := i + 1, j - 1;
    }
  }

  predicate IsFailure(e: Event)
  {
    e.kind == FailedPassword || e.kind == InvalidUser || e.kind == MaxAuthTries
  }

  function Failures(events: seq<Event>): seq<Event>
  {
    if events == [] then []
    else (if IsFailure(events[0]) then [events[0]] else []) + Failures(events[1..])
  }

  lemma {:induction false} FailuresOfSum(a: seq<Event>, b: seq<Event>)
    ensures Failures(a + b) == Failures(a) + Failures(b)
  {
    if a == [] {
      assert a + b == b;
    } else {
      assert (a + b)[1..] == a[1..] + b;
      FailuresOfSum(a[1..], b);
    }
  }

  /** The newest `cap` failures, read from the end of the log. */
  method TailFailures(events: seq<Event>, cap: nat) returns (out: seq<Event>)
    ensures out == Capped(Backwards(Failures(events)), cap)
  {
    out := [];
    var i := |events|;
    while 0 < i && |out| < cap
      invariant 0 <= i <= |events| && |out| <= cap
      invariant out == Backwards(Failures(events[i..]))
    {
      i := i - 1;
      assert events[i..] == [events[i]] + events[i + 1..];
      FailuresOfSum([events[i]], events[i + 1..]);
      BackwardsOfSum(Failures([events[i]]), Failures(events[i + 1..]));
      if IsFailure(events[i]) {
        out := out + [events[i]];
      }
    }
    assert events == events[..i] + events[i..];
    FailuresOfSum(events[..i], events[i..]);
    BackwardsOfSum(Failures(events[..i]), Failures(events[i..]));
  }

  // ---- hours ----

  const HOUR := 3_600_000_000_000
  const HOURS := 24

  /** The start of the hour that began 23 hours before `now`'s. */
  function WindowStart(now: nat): int
  {
    (now - (HOURS - 1) * HOUR) / HOUR * HOUR
  }

  /** A failure of the chart; one for too many tries is not in it. */
  predicate Charted(e: Event, from: int, to: int)
  {
    (e.kind == FailedPassword || e.kind == InvalidUser) && e.time != 0 && from <= e.time < to
  }

  function CountCharted(events: seq<Event>, from: int, to: int): nat
  {
    if events == [] then 0
    else CountCharted(events[..|events| - 1], from, to) + if Charted(events[|events| - 1], from, to) then 1 else 0
  }

  function Sum(s: seq<nat>): nat
  {
    if s == [] then 0 else Sum(s[..|s| - 1]) + s[|s| - 1]
  }

  /** An entry for each hour of the window, with its failures. */
  ghost predicate HoursOK(events: seq<Event>, start: int, hours: seq<nat>)
  {
    |hours| == HOURS && forall i :: 0 <= i < HOURS ==>
        hours[i] == CountCharted(events, start + i * HOUR, start + (i + 1) * HOUR)
  }

  lemma SameHours(events: seq<Event>, start: int, a: seq<nat>, b: seq<nat>)
    requires HoursOK(events, start, a) && HoursOK(events, start, b)
    ensures a == b
  {
    forall i | 0 <= i < HOURS ensures a[i] == b[i] {
      assert a[i] == CountCharted(events, start + i * HOUR, start + (i + 1) * HOUR);
    }
  }

  method HourlyFailures(events: seq<Event>, now: nat) returns (out: array<nat>)
    ensures fresh(out) && HoursOK(events, WindowStart(now), out[..])
  {
    out := new nat[HOURS](_ => 0);
    var start := WindowStart(now);
    var n := 0;
    while n < |events|
      invariant 0 <= n <= |events|
      invariant forall i :: 0 <= i < HOURS ==>
                out[i] == CountCharted(events[..n], start + i * HOUR, start + (i + 1) * HOUR)
    {
      var e := events[n];
      assert events[..n + 1][..n] == events[..n];
      n := n + 1;
      if (e.kind != FailedPassword && e.kind != InvalidUser) || e.time == 0 || e.time < start {
        continue;
      }
      var i := (e.time - start) / HOUR;
      if 0 <= i < HOURS {
        out[i] := out[i] + 1;
      }
    }
    assert events[..n] == events;
  }

  lemma {:induction false} ChartedSplits(events: seq<Event>, from: int, mid: int, to: int)
    requires from <= mid <= to
    ensures CountCharted(events, from, to) == CountCharted(events, from, mid) + CountCharted(events, mid, to)
  {
    if events != [] {
      ChartedSplits(events[..|events| - 1], from, mid, to);
    }
  }

  lemma {:induction false} EmptyChart(events: seq<Event>, at: int)
    ensures CountCharted(events, at, at) == 0
  {
    if events != [] {
      EmptyChart(events[..|events| - 1], at);
    }
  }

  /** The hours add up to the failures of the whole window. */
  lemma {:induction false} HoursAddUp(events: seq<Event>, start: int, hours: seq<nat>)
    requires forall i :: 0 <= i < |hours| ==> hours[i] == CountCharted(events, start + i * HOUR, start + (i + 1) * HOUR)
    ensures Sum(hours) == CountCharted(events, start, start + |hours| * HOUR)
  {
    if hours == [] {
      EmptyChart(events, start);
    } else {
      var n := |hours| - 1;
      HoursAddUp(events, start, hours[..n]);
      ChartedSplits(events, start, start + n * HOUR, start + (n + 1) * HOUR);
    }
  }

  /** The window is the current hour and the 23 before it. */
  lemma WindowCoversNow(now: nat)
    ensures WindowStart(now) + (HOURS - 1) * HOUR <= now < WindowStart(now) + HOURS * HOUR
  {
  }

  // ---- the whole page ----

  const SHOWN_ADDRESSES := 30
  const SHOWN_NAMES := 20

  datatype Page = Page(totals: Totals, bansTotal: nat, bansActive: nat, uniqueAttackers: nat,
                       attackers: seq<Ranked>, usernames: seq<Ranked>, hijacks: seq<Hijack>,
                       recentFailures: seq<Event>, recentBans: seq<Event>, successes: seq<Event>,
                       hourly: seq<nat>)

  /** The counts of an address are its own events', it is held if its last action
      was a ban, and it is listed if it occurs at all. */
  ghost predicate StatOK(auth: seq<Event>, bans: seq<Event>, stats: Stats, ip: string)
  {
    && (ip in stats <==> Seen(auth, ip) || Seen(bans, ip))
    && (ip in stats ==>
          stats[ip] == Stat(Count(auth, ip, Failure), Count(auth, ip, Invalid), Count(auth, ip, Success),
              Count(bans, ip, Banning),
                            LastAction(bans, ip) == Some(Ban)))
  }

  /** What a page shows, given the table of addresses and the table of names it
      was made from; both are determined by the events. */
  ghost predicate PageOK(auth: seq<Event>, bans: seq<Event>, cap: nat, now: nat, page: Page, stats: Stats,
                         users: map<string, nat>)
  {
    && (forall ip :: StatOK(auth, bans, stats, ip))
    && (forall user :: UserOK(auth, users, user))
    && TotalsOK(auth, page.totals) && page.bansTotal == CountAll(bans, Banning)
    && page.bansActive == |set ip | ip in stats && stats[ip].banned|
    && page.uniqueAttackers == |Attackers(stats)|
    && (exists all :: IsRanking(all, Attackers(stats)) && page.attackers == Capped(all, SHOWN_ADDRESSES))
    && (exists all :: IsRanking(all, users) && page.usernames == Capped(all, SHOWN_NAMES))
    && RowsOK(Selected(auth, Success), stats, page.hijacks)
    && page.recentFailures == Capped(Backwards(Failures(auth)), cap)
    && page.recentBans == Capped(Backwards(Selected(bans, Banning)), cap)
    && page.successes == Backwards(Selected(auth, Success))
    && HoursOK(auth, WindowStart(now), page.hourly)
  }

  method Build(auth: seq<Event>, bans: seq<Event>, cap: nat, now: nat) returns (page: Page)
    ensures exists stats, users :: PageOK(auth, bans, cap, now, page, stats, users)
  {
    var seen, names, totals, successes := AggregateAuth(auth);
    var held, active, bansTotal, recent := Aggregate(auth, bans, seen);
    var attackers := Top(Attackers(held), SHOWN_ADDRESSES);
    var usernames := Top(names, SHOWN_NAMES);
    var hijacks := ClassifyHijacks(successes, held);
    var failures := TailFailures(auth, cap);
    var hours := HourlyFailures(auth, now);
    page := Page(totals, bansTotal, active, |Attackers(held)|, attackers, usernames, hijacks, failures,
                 Capped(Backwards(recent), cap), Backwards(successes), hours[..]);
    assert PageOK(auth, bans, cap, now, page, held, names);
  }

  /** The ban log on top of the auth log. */
  method Aggregate(auth: seq<Event>, bans: seq<Event>, seen: Stats)
    returns (stats: Stats, active: nat, bansTotal: nat, recent: seq<Event>)
    requires forall ip :: AuthOK(auth, seen, ip)
    ensures forall ip :: StatOK(auth, bans, stats, ip)
    ensures active == |set ip | ip in stats && stats[ip].banned|
    ensures bansTotal == CountAll(bans, Banning) && recent == Selected(bans, Banning)
  {
    var counted, last;
    counted, last, bansTotal, recent := AggregateBans(bans, seen);
    forall ip ensures (ip in last ==> ip in counted) && (ip in counted ==> !counted[ip].banned && ip != "") {
      assert BansOK(bans, seen, counted, ip) && AuthOK(auth, seen, ip) && ActionOK(bans, last, ip);
      SeenIfLast(bans, ip);
    }
    stats, active := MarkBanned(bans, counted, last);
    forall ip ensures StatOK(auth, bans, stats, ip) {
      assert BansOK(bans, seen, counted, ip) && AuthOK(auth, seen, ip);
    }
  }

  lemma {:induction false} SeenIfLast(events: seq<Event>, ip: string)
    ensures LastAction(events, ip).Some? && ip != "" ==> Seen(events, ip)
  {
    if events != [] {
      var n := |events| - 1;
      assert events[n] in events;
      SeenIfLast(events[..n], ip);
    }
  }

  lemma StatsAddUp(auth: seq<Event>, bans: seq<Event>, stats: Stats, c: Class)
    requires forall ip :: StatOK(auth, bans, stats, ip)
    requires c != Nothing
    ensures SumStats(stats.Keys, stats, c) == CountAll(if c == Banning then bans else auth, c)
  {
    var events := if c == Banning then bans else auth;
    forall e | e in events && e.ip != "" ensures e.ip in stats.Keys {
      assert Seen(events, e.ip) && StatOK(auth, bans, stats, e.ip);
    }
    forall ip | ip in stats.Keys ensures Field(Touch(stats, ip), c) == Count(events, ip, c) {
      assert StatOK(auth, bans, stats, ip);
    }
    StatsAreCounts(stats.Keys, stats, events, c);
    CountsAddUp(stats.Keys, events, c);
  }

  lemma PageHoursAddUp(auth: seq<Event>, bans: seq<Event>, cap: nat, now: nat, page: Page, stats: Stats,
                       users: map<string, nat>)
    requires PageOK(auth, bans, cap, now, page, stats, users)
    ensures Sum(page.hourly) == CountCharted(auth, WindowStart(now), WindowStart(now) + HOURS * HOUR)
  {
    HoursAddUp(auth, WindowStart(now), page.hourly);
  }

  lemma PageRowsAddUp(auth: seq<Event>, bans: seq<Event>, cap: nat, now: nat, page: Page, stats: Stats,
                      users: map<string, nat>)
    requires PageOK(auth, bans, cap, now, page, stats, users)
    ensures SumRows(page.hijacks) == CountFlagged(Selected(auth, Success), stats)
  {
    RowsPartitionFlagged(Selected(auth, Success), stats, page.hijacks);
  }

  /** What the addresses on the page were counted for adds up to its totals. */
  lemma PageAddsUp(auth: seq<Event>, bans: seq<Event>, cap: nat, now: nat, page: Page, stats: Stats,
                   users: map<string, nat>)
    requires PageOK(auth, bans, cap, now, page, stats, users)
    ensures SumStats(stats.Keys, stats, Failure) == page.totals.failures
    ensures SumStats(stats.Keys, stats, Invalid) == page.totals.invalidUsers
    ensures SumStats(stats.Keys, stats, Success) == page.totals.successes
    ensures SumStats(stats.Keys, stats, Banning) == page.bansTotal
    ensures SumRows(page.hijacks) == CountFlagged(Selected(auth, Success), stats)
    ensures Sum(page.hourly) == CountCharted(auth, WindowStart(now), WindowStart(now) + HOURS * HOUR)
  {
    PageHoursAddUp(auth, bans, cap, now, page, stats, users);
    PageRowsAddUp(auth, bans, cap, now, page, stats, users);
    StatsAddUp(auth, bans, stats, Failure);
    StatsAddUp(auth, bans, stats, Invalid);
    StatsAddUp(auth, bans, stats, Success);
    StatsAddUp(auth, bans, stats, Banning);
  }

  /** Two pages made from the same events agree on the addresses, the names, the
      totals, the bans and the rankings, however the maps were walked. */
  lemma PageIsDetermined(auth: seq<Event>, bans: seq<Event>, cap: nat, now: nat, p: Page, q: Page,
                                            stats: Stats, stats': Stats,
                                            users: map<string, nat>, users': map<string, nat>)
    requires PageOK(auth, bans, cap, now, p, stats, users) && PageOK(auth, bans, cap, now, q, stats', users')
    ensures stats == stats' && users == users'
    ensures p.(hijacks := q.hijacks) == q && multiset(p.hijacks) == multiset(q.hijacks)
  {
    SameHours(auth, WindowStart(now), p.hourly, q.hourly);
    SameStats(auth, bans, stats, stats');
    SameUsers(auth, users, users');
    var a :| IsRanking(a, Attackers(stats)) && p.attackers == Capped(a, SHOWN_ADDRESSES);
    var b :| IsRanking(b, Attackers(stats)) && q.attackers == Capped(b, SHOWN_ADDRESSES);
    RankingIsUnique(a, b, Attackers(stats));
    var u :| IsRanking(u, users) && p.usernames == Capped(u, SHOWN_NAMES);
    var v :| IsRanking(v, users) && q.usernames == Capped(v, SHOWN_NAMES);
    RankingIsUnique(u, v, users);
    SameRows(Selected(auth, Success), stats, p.hijacks, q.hijacks);
  }

  lemma SameStats(auth: seq<Event>, bans: seq<Event>, stats: Stats, stats': Stats)
    requires forall ip :: StatOK(auth, bans, stats, ip) && StatOK(auth, bans, stats', ip)
    ensures stats == stats'
  {
    forall ip ensures (ip in stats <==> ip in stats') && (ip in stats ==> stats[ip] == stats'[ip]) {
      assert StatOK(auth, bans, stats, ip) && StatOK(auth, bans, stats', ip);
    }
  }

  lemma SameUsers(auth: seq<Event>, users: map<string, nat>, users': map<string, nat>)
    requires forall user :: UserOK(auth, users, user) && UserOK(auth, users', user)
    ensures users == users'
  {
    forall user ensures (user in users <==> user in users') && (user in users ==> users[user] == users'[user]) {
      assert UserOK(auth, users, user) && UserOK(auth, users', user);
    }
  }

  lemma {:induction false} OneEachIsSet(rows: seq<Hijack>)
    requires OneEach(rows)
    ensures forall r :: multiset(rows)[r] == if r in rows then 1 else 0
  {
    if rows != [] {
      assert rows == [rows[0]] + rows[1..];
      OneEachIsSet(rows[1..]);
    }
  }

  lemma SameRows(successes: seq<Event>, stats: Stats, a: seq<Hijack>, b: seq<Hijack>)
    requires RowsOK(successes, stats, a) && RowsOK(successes, stats, b)
    ensures multiset(a) == multiset(b)
  {
    OneEachIsSet(a);
    OneEachIsSet(b);
    forall r ensures r in a <==> r in b {
      if r in a {
        assert CountKey(successes, stats, r.key) > 0;
      }
      if r in b {
        assert CountKey(successes, stats, r.key) > 0;
      }
    }
  }

  // ---- numbers ----

  const MIN_INT := -0x8000_0000_0000_0000

  /** Negation of a 64-bit integer: the least one is its own. */
  function Negated(n: int): int
  {
    if n == MIN_INT then MIN_INT else -n
  }

  /** Digits are written from the end of a buffer of twenty; the least integer has
      no positive counterpart and comes out as a bare sign. */
  method Itoa(n: int) returns (s: string)
    requires MIN_INT <= n < -MIN_INT
    ensures s == if n == MIN_INT then "-" else if n < 0 then "-" + Decimal(-n) else Decimal(n)
  {
    if n == 0 {
      return "0";
    }
    var buf := new char[20](_ => ' ');
    var i := WriteDigits(buf, if n < 0 then Negated(n) else n);
    if n < 0 {
      i := i - 1;
      buf[i] := '-';
    }
    s := buf[i..];
  }

  method WriteDigits(buf: array<char>, n: int) returns (i: nat)
    requires buf.Length == 20 && n <= -MIN_INT
    modifies buf
    ensures 1 <= i <= 20 && buf[i..] == if n > 0 then Decimal(n) else ""
  {
    if n > 0 {
      NineteenDigits();
      DecimalLength(n, 19);
    }
    var m := n;
    i := 20;
    while m > 0
      invariant 1 <= i <= 20
      invariant n > 0 ==> m >= 0 && Decimal(n) == DigitsIfAny(m) + buf[i..]
      invariant n <= 0 ==> i == 20
    {
      ghost var rest := buf[i..];
      DigitTurn(n, m, rest);
      i := i - 1;
      buf[i] := DigitOf(m);
      assert buf[i..] == [buf[i]] + rest;
      m := m / 10;
    }
  }

  /** The digits of a number, none for zero. */
  function DigitsIfAny(m: int): string
  {
    if m > 0 then Decimal(m) else ""
  }

  function DigitOf(m: nat): char
  {
    '0' + (m % 10) as char
  }

  lemma DigitTurn(n: nat, m: nat, rest: string)
    requires m > 0 && Decimal(n) == DigitsIfAny(m) + rest && |Decimal(n)| <= 19
    ensures |rest| <= 18 && Decimal(n) == DigitsIfAny(m / 10) + ([DigitOf(m)] + rest)
  {
    assert DigitsIfAny(m) == DigitsIfAny(m / 10) + [DigitOf(m)];
  }

  lemma {:induction false} DecimalLength(n: nat, k: nat)
    requires n < Power10(k) && k > 0
    ensures |Decimal(n)| <= k
  {
    if n >= 10 {
      DecimalLength(n / 10, k - 1);
    }
  }

  function Power10(k: nat): nat
  {
    if k == 0 then 1 else 10 * Power10(k - 1)
  }

  /** Every number but the least is read back. */
  lemma ItoaRoundTrip(n: int, s: string)
    requires MIN_INT <= n < -MIN_INT
    requires s == if n == MIN_INT then "-" else if n < 0 then "-" + Decimal(-n) else Decimal(n)
    ensures ParseInt(s) == Some(n) <==> n != MIN_INT
  {
    if n >= 0 {
      DecimalRoundTrip(n);
    } else if n != MIN_INT {
      DigitsOfDecimal(-n);
      assert s[1..] == Decimal(-n);
    }
  }

  lemma NineteenDigits()
    ensures -MIN_INT < Power10(19)
  {
    assert Power10(5) == 100_000;
    assert Power10(10) == 10_000_000_000;
    assert Power10(15) == 1_000_000_000_000_000;
  }
}
