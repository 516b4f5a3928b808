/** What the security page says, in terms of places in the two logs: which lines
    each number counts, who is listed, and which lines a list shows. */
module SecurityFacts {
  import opened Options
  import opened Sorting
  import opened SecurityMonitor
  import opened SecurityPage

  const FAILED: set<Kind> := {FailedPassword, InvalidUser, MaxAuthTries}
  const ACCEPTED: set<Kind> := {AcceptedPassword, AcceptedKey}

  /** The lines of a log that `p` holds of. */
  function Places(events: seq<Event>, p: Event -> bool): set<nat>
  {
    set i | 0 <= i < |events| && p(events[i])
  }

  lemma OnePlaceMore(events: seq<Event>, p: Event -> bool)
    requires events != []
    ensures var n := |events| - 1;
            |Places(events, p)| == |Places(events[..n], p)| + if p(events[n]) then 1 else 0
  {
    var n := |events| - 1;
    assert Places(events, p) == Places(events[..n], p) + if p(events[n]) then {n} else {};
  }

  lemma NoPlaces(p: Event -> bool)
    ensures |Places([], p)| == 0
  {
    assert Places([], p) == {};
  }

  // ---- which lines count ----

  function By(ip: string, kinds: set<Kind>): Event -> bool
  {
    (e: Event) => e.ip == ip && e.kind in kinds
  }

  /** Lines without an address are passed over. */
  function Any(kinds: set<Kind>): Event -> bool
  {
    (e: Event) => e.ip != "" && e.kind in kinds
  }

  function Against(user: string): Event -> bool
  {
    (e: Event) => e.ip != "" && e.user == user && e.kind in FAILED
  }

  function As(k: Key): Event -> bool
  {
    (e: Event) => e.ip == k.ip && e.user == k.user && e.kind == k.kind
  }

  function Failing(from: int, to: int): Event -> bool
  {
    (e: Event) => (e.kind == FailedPassword || e.kind == InvalidUser) && e.time > 0 && from <= e.time < to
  }

  /** The kinds of line that count as `c`. */
  function KindsOf(c: Class): set<Kind>
  {
    match c
    case Failure => {FailedPassword, MaxAuthTries}
    case Invalid => {InvalidUser}
    case Success => {AcceptedPassword, AcceptedKey}
    case Banning => {Ban}
    case Nothing => {Unban}
  }

  lemma {:induction false} CountIsNumber(events: seq<Event>, ip: string, c: Class)
    requires ip != ""
    ensures Count(events, ip, c) == |Places(events, By(ip, KindsOf(c)))|
  {
    if events == [] {
      NoPlaces(By(ip, KindsOf(c)));
    } else {
      CountIsNumber(events[..|events| - 1], ip, c);
      OnePlaceMore(events, By(ip, KindsOf(c)));
    }
  }

  lemma {:induction false} TotalIsNumber(events: seq<Event>, c: Class)
    ensures CountAll(events, c) == |Places(events, Any(KindsOf(c)))|
  {
    if events == [] {
      NoPlaces(Any(KindsOf(c)));
    } else {
      TotalIsNumber(events[..|events| - 1], c);
      OnePlaceMore(events, Any(KindsOf(c)));
    }
  }

  lemma {:induction false} UserIsNumber(events: seq<Event>, user: string)
    ensures CountUser(events, user) == |Places(events, Against(user))|
  {
    if events == [] {
      NoPlaces(Against(user));
    } else {
      UserIsNumber(events[..|events| - 1], user);
      OnePlaceMore(events, Against(user));
    }
  }

  lemma {:induction false} ChartIsNumber(events: seq<Event>, from: int, to: int)
    ensures CountCharted(events, from, to) == |Places(events, Failing(from, to))|
  {
    if events == [] {
      NoPlaces(Failing(from, to));
    } else {
      ChartIsNumber(events[..|events| - 1], from, to);
      OnePlaceMore(events, Failing(from, to));
    }
  }

  /** Failures and logins with unknown names together, and all three together. */
  lemma {:induction false} TriesAreNumber(events: seq<Event>, ip: string)
    requires ip != ""
    ensures Count(events, ip, Failure) + Count(events, ip, Invalid) == |Places(events, By(ip, FAILED))|
    ensures Count(events, ip, Failure) + Count(events, ip, Invalid) + Count(events, ip, Success) ==
              |Places(events, By(ip, FAILED + ACCEPTED))|
  {
    if events == [] {
      NoPlaces(By(ip, FAILED));
      NoPlaces(By(ip, FAILED + ACCEPTED));
    } else {
      TriesAreNumber(events[..|events| - 1], ip);
      OnePlaceMore(events, By(ip, FAILED));
      OnePlaceMore(events, By(ip, FAILED + ACCEPTED));
    }
  }

  // ---- addresses and names ----

  /** The last line about the address has that kind. */
  ghost predicate EndsWith(events: seq<Event>, ip: string, k: Kind)
  {
    exists i :: 0 <= i < |events| && events[i].ip == ip && events[i].kind == k
                && forall j :: i < j < |events| ==> events[j].ip != ip
  }

  lemma {:induction false} LastActionIs(events: seq<Event>, ip: string, k: Kind)
    ensures LastAction(events, ip) == Some(k) <==> EndsWith(events, ip, k)
  {
    if events != [] {
      var n := |events| - 1;
      LastActionIs(events[..n], ip, k);
      if events[n].ip != ip {
        assert EndsWith(events[..n], ip, k) <==> EndsWith(events, ip, k) by {
          EndBefore(events, ip, k);
        }
      } else if EndsWith(events, ip, k) {
        assert events[n].kind == k;
      }
    }
  }

  lemma EndBefore(events: seq<Event>, ip: string, k: Kind)
    requires events != [] && events[|events| - 1].ip != ip
    ensures EndsWith(events[..|events| - 1], ip, k) <==> EndsWith(events, ip, k)
  {
    var init := events[..|events| - 1];
    assert forall i :: 0 <= i < |init| ==> init[i] == events[i];
    if EndsWith(init, ip, k) {
      var i :| 0 <= i < |init| && init[i].ip == ip && init[i].kind == k
               && forall j :: i < j < |init| ==> init[j].ip != ip;
      assert events[i].ip == ip;
    }
    if EndsWith(events, ip, k) {
      var i :| 0 <= i < |events| && events[i].ip == ip && events[i].kind == k
               && forall j :: i < j < |events| ==> events[j].ip != ip;
      assert init[i].ip == ip;
    }
  }

  /** What the page knows of an address. */
  lemma AddressExactly(auth: seq<Event>, bans: seq<Event>, stats: Stats, ip: string)
    requires StatOK(auth, bans, stats, ip) && ip in stats
    ensures ip != ""
    ensures stats[ip].failures == |Places(auth, By(ip, {FailedPassword, MaxAuthTries}))|
    ensures stats[ip].invalidUsers == |Places(auth, By(ip, {InvalidUser}))|
    ensures stats[ip].successes == |Places(auth, By(ip, ACCEPTED))|
    ensures stats[ip].bans == |Places(bans, By(ip, {Ban}))|
    ensures stats[ip].banned <==> EndsWith(bans, ip, Ban)
  {
    CountIsNumber(auth, ip, Failure);
    CountIsNumber(auth, ip, Invalid);
    CountIsNumber(auth, ip, Success);
    CountIsNumber(bans, ip, Banning);
    LastActionIs(bans, ip, Ban);
  }

  /** An address is an attacker if a line says that it failed, and is ranked by all
      its lines of the auth log that are about a login. */
  lemma AttackersExactly(auth: seq<Event>, bans: seq<Event>, stats: Stats, ip: string)
    requires StatOK(auth, bans, stats, ip)
    ensures ip in Attackers(stats) <==> ip != "" && Places(auth, By(ip, FAILED)) != {}
    ensures ip in Attackers(stats) ==> Attackers(stats)[ip] == |Places(auth, By(ip, FAILED + ACCEPTED))|
  {
    if ip != "" {
      TriesAreNumber(auth, ip);
      if Places(auth, By(ip, FAILED)) != {} {
        var i :| i in Places(auth, By(ip, FAILED));
        assert auth[i] in auth;
        assert Seen(auth, ip);
      }
    }
  }

  /** A name is listed if it is one and some login with it failed, and is ranked by
      how many did. */
  lemma NamesExactly(auth: seq<Event>, users: map<string, nat>, user: string)
    requires UserOK(auth, users, user)
    ensures user in users <==> user != "" && Places(auth, Against(user)) != {}
    ensures user in users ==> users[user] == |Places(auth, Against(user))|
  {
    UserIsNumber(auth, user);
  }

  // ---- suspicious logins ----

  /** A login by password, or from an address that failed twenty times. */
  ghost predicate Suspicious(auth: seq<Event>, k: Key)
  {
    k.ip != "" && (k.kind == AcceptedPassword || (k.kind == AcceptedKey && |Places(auth, By(k.ip, FAILED))| >= 20))
  }

  lemma {:induction false} UnseenCountsNothing(events: seq<Event>, ip: string, c: Class)
    requires ip != "" && !Seen(events, ip)
    ensures Count(events, ip, c) == 0
  {
    CountIsNumber(events, ip, c);
    assert forall i :: 0 <= i < |events| ==> events[i] in events;
    assert Places(events, By(ip, KindsOf(c))) == {};
  }

  lemma HighMeansTwenty(auth: seq<Event>, bans: seq<Event>, stats: Stats, ip: string)
    requires StatOK(auth, bans, stats, ip) && ip != ""
    ensures High(stats, ip) <==> |Places(auth, By(ip, FAILED))| >= 20
  {
    TriesAreNumber(auth, ip);
    if ip !in stats {
      UnseenCountsNothing(auth, ip, Failure);
      UnseenCountsNothing(auth, ip, Invalid);
    }
  }

  lemma OneKeyMore(log: seq<Event>, stats: Stats, k: Key, e: Event)
    ensures CountKey(log + [e], stats, k) ==
              CountKey(log, stats, k) + if Flagged(stats, e) && KeyOf(e) == k then 1 else 0
    ensures log + [] == log
  {
    assert (log + [e])[..|log|] == log;
  }

  lemma {:induction false} KeyIsNumber(events: seq<Event>, stats: Stats, k: Key)
    requires k.ip != "" && (k.kind == AcceptedPassword || (k.kind == AcceptedKey && High(stats, k.ip)))
    ensures CountKey(Selected(events, Success), stats, k) == |Places(events, As(k))|
  {
    if events == [] {
      NoPlaces(As(k));
    } else {
      var init, e := events[..|events| - 1], events[|events| - 1];
      KeyIsNumber(init, stats, k);
      OnePlaceMore(events, As(k));
      OneKeyMore(Selected(init, Success), stats, k, e);
    }
  }

  lemma {:induction false} NoSuchKey(events: seq<Event>, stats: Stats, k: Key)
    requires k.ip == "" || !(k.kind == AcceptedPassword || (k.kind == AcceptedKey && High(stats, k.ip)))
    ensures CountKey(Selected(events, Success), stats, k) == 0
  {
    if events != [] {
      var init, e := events[..|events| - 1], events[|events| - 1];
      NoSuchKey(init, stats, k);
      OneKeyMore(Selected(init, Success), stats, k, e);
    }
  }

  /** The latest of the flagged times, and none later. */
  ghost predicate IsLatestTime(events: seq<Event>, stats: Stats, k: Key, t: nat)
  {
    && (forall e :: e in events && Flagged(stats, e) && KeyOf(e) == k ==> e.time <= t)
    && exists e :: e in events && Flagged(stats, e) && KeyOf(e) == k && e.time == t
  }

  lemma {:induction false} LatestIsTheLatest(events: seq<Event>, stats: Stats, k: Key)
    requires CountKey(events, stats, k) > 0
    ensures IsLatestTime(events, stats, k, Latest(events, stats, k))
  {
    var init, e := events[..|events| - 1], events[|events| - 1];
    assert events == init + [e];
    if CountKey(init, stats, k) > 0 {
      LatestIsTheLatest(init, stats, k);
    } else {
      NoneIsNoTime(init, stats, k);
      NoneFlagged(init, stats, k);
    }
    assert e in events;
  }

  lemma NoneFlagged(events: seq<Event>, stats: Stats, k: Key)
    requires CountKey(events, stats, k) == 0
    ensures forall e :: e in events && Flagged(stats, e) ==> KeyOf(e) != k
  {
    forall e | e in events && Flagged(stats, e) ensures KeyOf(e) != k {
      FlaggedHasKey(events, stats, e);
    }
  }

  lemma KindIsClass(k: Kind, c: Class)
    ensures k in KindsOf(c) <==> ClassOf(k) == c
  {
  }

  lemma {:induction false} SelectedAre(events: seq<Event>, c: Class, e: Event)
    ensures e in Selected(events, c) <==> e in events && Counted(e, c)
  {
    if events != [] {
      var n := |events| - 1;
      SelectedAre(events[..n], c, e);
      assert e in events <==> e in events[..n] || e == events[n];
    }
  }

  /** The table of suspicious logins: an address, user and method is in it exactly
      if it is suspicious and logged in, once, with all its logins, with the time of
      the latest, and high if the address failed twenty times. */
  lemma LoginsExactly(auth: seq<Event>, bans: seq<Event>, stats: Stats, rows: seq<Hijack>, k: Key)
    requires RowsOK(Selected(auth, Success), stats, rows) && StatOK(auth, bans, stats, k.ip)
    ensures (exists r :: r in rows && r.key == k) <==> Suspicious(auth, k) && Places(auth, As(k)) != {}
    ensures forall r :: r in rows && r.key == k ==>
              && r.count == |Places(auth, As(k))| && (r.high <==> |Places(auth, By(k.ip, FAILED))| >= 20)
              && (forall i :: i in Places(auth, As(k)) ==> auth[i].time <= r.last)
              && (exists i :: i in Places(auth, As(k)) && auth[i].time == r.last)
  {
    var log := Selected(auth, Success);
    if k.ip != "" {
      HighMeansTwenty(auth, bans, stats, k.ip);
    }
    if Suspicious(auth, k) {
      KeyIsNumber(auth, stats, k);
      if Places(auth, As(k)) != {} {
        assert RowOf(log, stats, k) in rows && RowOf(log, stats, k).key == k;
        LatestInPlaces(auth, stats, k);
      }
    } else {
      NoSuchKey(auth, stats, k);
    }
  }

  lemma LatestInPlaces(auth: seq<Event>, stats: Stats, k: Key)
    requires k.ip != "" && (k.kind == AcceptedPassword || (k.kind == AcceptedKey && High(stats, k.ip)))
    requires Places(auth, As(k)) != {}
    ensures var t := Latest(Selected(auth, Success), stats, k);
            && (forall i :: i in Places(auth, As(k)) ==> auth[i].time <= t)
            && exists i :: i in Places(auth, As(k)) && auth[i].time == t
  {
    var log := Selected(auth, Success);
    KeyIsNumber(auth, stats, k);
    LatestIsTheLatest(log, stats, k);
    forall i | i in Places(auth, As(k)) ensures auth[i].time <= Latest(log, stats, k) {
      SelectedAre(auth, Success, auth[i]);
      KindIsClass(k.kind, Success);
    }
    var e :| e in log && Flagged(stats, e) && KeyOf(e) == k && e.time == Latest(log, stats, k);
    SelectedAre(auth, Success, e);
    KindIsClass(k.kind, Success);
    var i :| 0 <= i < |auth| && auth[i] == e;
    assert i in Places(auth, As(k));
  }

  // ---- lists, newest first ----

  /** The lines `p` holds of, from the end of the log. */
  function Downward(events: seq<Event>, p: Event -> bool): (at: seq<nat>)
    ensures forall i :: i in at <==> i in Places(events, p)
  {
    if events == [] then []
    else
      var n := |events| - 1;
      (if p(events[n]) then [n] else []) + Downward(events[..n], p)
  }

  ghost predicate Descending(at: seq<nat>)
  {
    forall i, j :: 0 <= i < j < |at| ==> at[j] < at[i]
  }

  lemma {:induction false} DownwardDescends(events: seq<Event>, p: Event -> bool)
    ensures Descending(Downward(events, p)) && |Downward(events, p)| == |Places(events, p)|
  {
    if events == [] {
      NoPlaces(p);
    } else {
      var n := |events| - 1;
      DownwardDescends(events[..n], p);
      OnePlaceMore(events, p);
      var rest := Downward(events[..n], p);
      forall j | 0 <= j < |rest| ensures rest[j] < n {
        assert rest[j] in rest;
      }
    }
  }

  /** `out` is what stands at the places. */
  ghost predicate Shows(events: seq<Event>, at: seq<nat>, out: seq<Event>)
  {
    |out| == |at| && forall j :: 0 <= j < |at| ==> at[j] < |events| && out[j] == events[at[j]]
  }

  /** `out` shows the newest lines `p` holds of, all of them or `cap`. */
  ghost predicate ShowsNewest(events: seq<Event>, p: Event -> bool, cap: nat, out: seq<Event>, at: seq<nat>)
  {
    && Shows(events, at, out) && |out| == (if |Places(events, p)| > cap then cap else |Places(events, p)|)
    && (forall i :: i in at ==> i in Places(events, p))
    && Descending(at) && (forall i, j :: i in Places(events, p) && i !in at && j in at ==> i < j)
  }

  lemma CappedIsHighest(at: seq<nat>, cap: nat, i: nat, j: nat)
    requires Descending(at) && i in at && i !in Capped(at, cap) && j in Capped(at, cap)
    ensures i < j
  {
    var shown := Capped(at, cap);
    var rest := at[|shown|..];
    assert at == shown + rest && i in rest;
    var m :| 0 <= m < |rest| && rest[m] == i;
    var l :| 0 <= l < |shown| && shown[l] == j;
    assert at[|shown| + m] == i && at[l] == j;
  }

  lemma CappedIsPart(at: seq<nat>, cap: nat)
    requires Descending(at)
    ensures Descending(Capped(at, cap)) && forall i :: i in Capped(at, cap) ==> i in at
  {
  }

  lemma CappedIsShown(events: seq<Event>, at: seq<nat>, all: seq<Event>, cap: nat)
    requires Shows(events, at, all)
    ensures Shows(events, Capped(at, cap), Capped(all, cap))
  {
  }

  lemma CappedShows(events: seq<Event>, p: Event -> bool, cap: nat, all: seq<Event>)
    requires Shows(events, Downward(events, p), all)
    ensures exists at :: ShowsNewest(events, p, cap, Capped(all, cap), at)
  {
    var at := Downward(events, p);
    DownwardDescends(events, p);
    CappedIsShown(events, at, all, cap);
    CappedIsPart(at, cap);
    forall i, j | i in Places(events, p) && i !in Capped(at, cap) && j in Capped(at, cap) ensures i < j {
      CappedIsHighest(at, cap, i, j);
    }
    assert ShowsNewest(events, p, cap, Capped(all, cap), Capped(at, cap));
  }

  lemma OneMoreShown(events: seq<Event>, at: seq<nat>, out: seq<Event>, shown: bool)
    requires events != [] && Shows(events[..|events| - 1], at, out)
    ensures var n := |events| - 1;
            Shows(events, (if shown then [n] else []) + at, (if shown then [events[n]] else []) + out)
  {
  }

  lemma BackwardsOne(front: seq<Event>, e: Event)
    ensures Backwards(front + [e]) == [e] + Backwards(front)
  {
  }

  lemma SelectedOneMore(events: seq<Event>, c: Class)
    requires events != []
    ensures var n := |events| - 1;
            Backwards(Selected(events, c)) ==
            (if Counted(events[n], c) then [events[n]] else []) + Backwards(Selected(events[..n], c))
  {
    var n := |events| - 1;
    if Counted(events[n], c) {
      BackwardsOne(Selected(events[..n], c), events[n]);
    } else {
      assert Selected(events, c) == Selected(events[..n], c);
    }
  }

  lemma {:induction false} SelectedBackwards(events: seq<Event>, c: Class)
    ensures Shows(events, Downward(events, Any(KindsOf(c))), Backwards(Selected(events, c)))
  {
    if events != [] {
      var n, p := |events| - 1, Any(KindsOf(c));
      SelectedBackwards(events[..n], c);
      SelectedOneMore(events, c);
      KindIsClass(events[n].kind, c);
      OneMoreShown(events, Downward(events[..n], p), Backwards(Selected(events[..n], c)), p(events[n]));
    }
  }

  function Bad(): Event -> bool
  {
    (e: Event) => e.kind in FAILED
  }

  lemma FailuresOneMore(events: seq<Event>)
    requires events != []
    ensures var n := |events| - 1;
            Backwards(Failures(events)) ==
            (if IsFailure(events[n]) then [events[n]] else []) + Backwards(Failures(events[..n]))
  {
    var n := |events| - 1;
    assert events == events[..n] + [events[n]];
    FailuresOfSum(events[..n], [events[n]]);
    if IsFailure(events[n]) {
      assert Failures([events[n]]) == [events[n]];
      BackwardsOne(Failures(events[..n]), events[n]);
    } else {
      assert Failures(events) == Failures(events[..n]);
    }
  }

  lemma {:induction false} FailuresBackwards(events: seq<Event>)
    ensures Shows(events, Downward(events, Bad()), Backwards(Failures(events)))
  {
    if events != [] {
      var n := |events| - 1;
      FailuresBackwards(events[..n]);
      FailuresOneMore(events);
      OneMoreShown(events, Downward(events[..n], Bad()), Backwards(Failures(events[..n])), Bad()(events[n]));
    }
  }

  lemma SelectedShows(events: seq<Event>, c: Class, cap: nat)
    ensures exists at :: ShowsNewest(events, Any(KindsOf(c)), cap, Capped(Backwards(Selected(events, c)), cap), at)
  {
    SelectedBackwards(events, c);
    CappedShows(events, Any(KindsOf(c)), cap, Backwards(Selected(events, c)));
  }

  lemma FailuresShow(events: seq<Event>, cap: nat)
    ensures exists at :: ShowsNewest(events, Bad(), cap, Capped(Backwards(Failures(events)), cap), at)
  {
    FailuresBackwards(events);
    CappedShows(events, Bad(), cap, Backwards(Failures(events)));
  }

  /** The three lists of the page. */
  lemma ListsExactly(auth: seq<Event>, bans: seq<Event>, cap: nat, now: nat, page: Page, stats: Stats,
                     users: map<string, nat>)
    requires PageOK(auth, bans, cap, now, page, stats, users)
    ensures exists at :: ShowsNewest(auth, Bad(), cap, page.recentFailures, at)
    ensures exists at :: ShowsNewest(bans, Any({Ban}), cap, page.recentBans, at)
    ensures exists at :: ShowsNewest(auth, Any(ACCEPTED), |auth|, page.successes, at)
  {
    FailuresShow(auth, cap);
    SelectedShows(bans, Banning, cap);
    SelectedShows(auth, Success, |auth|);
    SelectedIsPart(auth, Success);
  }

  lemma {:induction false} SelectedIsPart(events: seq<Event>, c: Class)
    ensures |Selected(events, c)| <= |events|
  {
    if events != [] {
      SelectedIsPart(events[..|events| - 1], c);
    }
  }

  // ---- totals and hours ----

  lemma TotalsExactly(auth: seq<Event>, bans: seq<Event>, cap: nat, now: nat, page: Page, stats: Stats,
                      users: map<string, nat>)
    requires PageOK(auth, bans, cap, now, page, stats, users)
    ensures page.totals.failures == |Places(auth, Any({FailedPassword, MaxAuthTries}))|
    ensures page.totals.invalidUsers == |Places(auth, Any({InvalidUser}))|
    ensures page.totals.successes == |Places(auth, Any(ACCEPTED))|
    ensures page.bansTotal == |Places(bans, Any({Ban}))|
  {
    TotalIsNumber(auth, Failure);
    TotalIsNumber(auth, Invalid);
    TotalIsNumber(auth, Success);
    TotalIsNumber(bans, Banning);
  }

  lemma HourStarts(now: nat, i: nat)
    ensures WindowStart(now) + i * HOUR == (now / 3_600_000_000_000 + i - 23) * 3_600_000_000_000
  {
    assert (now - 23 * HOUR) / HOUR == now / HOUR - 23;
  }

  /** Each entry of the chart counts the dated failures of one whole hour; the last
      is the hour that `now` is in. */
  lemma HoursExactly(auth: seq<Event>, bans: seq<Event>, cap: nat, now: nat, page: Page, stats: Stats,
                     users: map<string, nat>)
    requires PageOK(auth, bans, cap, now, page, stats, users)
    ensures |page.hourly| == 24
    ensures forall i :: 0 <= i < 24 ==>
              var start := (now / 3_600_000_000_000 + i - 23) * 3_600_000_000_000;
              page.hourly[i] == |Places(auth, Failing(start, start + 3_600_000_000_000))|
  {
    forall i | 0 <= i < 24
      ensures var start := (now / 3_600_000_000_000 + i - 23) * 3_600_000_000_000;
              page.hourly[i] == |Places(auth, Failing(start, start + 3_600_000_000_000))|
    {
      HourStarts(now, i);
      HourStarts(now, i + 1);
      ChartIsNumber(auth, WindowStart(now) + i * HOUR, WindowStart(now) + (i + 1) * HOUR);
    }
  }
}
