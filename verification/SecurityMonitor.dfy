/** What the security page adds up from parsed log events: per-address counts,
    bans, rankings, suspicious logins and the failures of each hour. Time 0 is an
    event without a date. */
module SecurityMonitor {
  import opened Options

  datatype Kind = FailedPassword | InvalidUser | AcceptedPassword | AcceptedKey | MaxAuthTries | Ban | Unban

  datatype Event = Event(time: nat, kind: Kind, user: string, ip: string)

  /** What an event counts as. */
  datatype Class = Failure | Invalid | Success | Banning | Nothing

  function ClassOf(k: Kind): Class
  {
    match k
    case FailedPassword => Failure
    case MaxAuthTries => Failure
    case InvalidUser => Invalid
    case AcceptedPassword => Success
    case AcceptedKey => Success
    case Ban => Banning
    case Unban => Nothing
  }

  datatype Stat = Stat(failures: nat, invalidUsers: nat, successes: nat, bans: nat, banned: bool)

  const Unseen := Stat(0, 0, 0, 0, false)

  // ---- what the events say ----

  predicate Counted(e: Event, c: Class)
  {
    e.ip != "" && ClassOf(e.kind) == c
  }

  function CountAll(events: seq<Event>, c: Class): nat
  {
    if events == [] then 0
    else CountAll(events[..|events| - 1], c) + if Counted(events[|events| - 1], c) then 1 else 0
  }

  function Count(events: seq<Event>, ip: string, c: Class): nat
  {
    if events == [] then 0
    else
      var e := events[|events| - 1];
      Count(events[..|events| - 1], ip, c) + if e.ip == ip && Counted(e, c) then 1 else 0
  }

  /** How often a user name was tried without success. */
  function CountUser(events: seq<Event>, user: string): nat
  {
    if events == [] then 0
    else
      var e := events[|events| - 1];
      CountUser(events[..|events| - 1], user) + if e.user == user && (Counted(e, Failure) || Counted(e, Invalid))
          then 1 else 0
  }

  function Selected(events: seq<Event>, c: Class): seq<Event>
  {
    if events == [] then []
    else
      var e := events[|events| - 1];
      Selected(events[..|events| - 1], c) + if Counted(e, c) then [e] else []
  }

  ghost predicate Seen(events: seq<Event>, ip: string)
  {
    ip != "" && exists e :: e in events && e.ip == ip
  }

  lemma OneMoreSeen(done: seq<Event>, e: Event, ip: string)
    ensures Seen(done + [e], ip) <==> Seen(done, ip) || (ip != "" && ip == e.ip)
  {
    assert e in done + [e];
  }

  function LastAction(events: seq<Event>, ip: string): Option<Kind>
  {
    if events == [] then None
    else if events[|events| - 1].ip == ip then Some(events[|events| - 1].kind)
    else LastAction(events[..|events| - 1], ip)
  }

  // ---- aggregation ----

  datatype Totals = Totals(failures: nat, invalidUsers: nat, successes: nat)

  type Stats = map<string, Stat>

  function Touch(stats: Stats, ip: string): Stat
  {
    if ip in stats then stats[ip] else Unseen
  }

  ghost predicate AuthOK(events: seq<Event>, stats: Stats, ip: string)
  {
    && (ip in stats <==> Seen(events, ip))
    && Touch(stats, ip) == Stat(Count(events, ip, Failure), Count(events, ip, Invalid), Count(events, ip, Success),
        0, false)
  }

  ghost predicate UserOK(events: seq<Event>, users: map<string, nat>, user: string)
  {
    if user in users then user != "" && users[user] == CountUser(events, user) && users[user] > 0
    else user == "" || CountUser(events, user) == 0
  }

  ghost predicate TotalsOK(events: seq<Event>, t: Totals)
  {
    t == Totals(CountAll(events, Failure), CountAll(events, Invalid), CountAll(events, Success))
  }

  /** One event more of the auth log, and what it does to an address and a user. */
  function AddAuth(stats: Stats, e: Event): Stats
  {
    if e.ip == "" then stats
    else
      var was := Touch(stats, e.ip);
      stats[e.ip := match ClassOf(e.kind)
                    case Failure => was.(failures := was.failures + 1)
                    case Invalid => was.(invalidUsers := was.invalidUsers + 1)
                    case Success => was.(successes := was.successes + 1)
                    case _ => was]
  }

  function AddUser(users: map<string, nat>, e: Event): map<string, nat>
  {
    if Counted(e, Failure) || Counted(e, Invalid) then BumpUser(users, e.user) else users
  }

  lemma AuthGrows(done: seq<Event>, e: Event, stats: Stats)
    requires forall ip :: AuthOK(done, stats, ip)
    ensures forall ip :: AuthOK(done + [e], AddAuth(stats, e), ip)
  {
    assert (done + [e])[..|done|] == done;
    forall ip ensures AuthOK(done + [e], AddAuth(stats, e), ip) {
      assert AuthOK(done, stats, ip) && AuthOK(done, stats, e.ip);
      OneMoreSeen(done, e, ip);
    }
  }

  lemma UsersGrow(done: seq<Event>, e: Event, users: map<string, nat>)
    requires forall user :: UserOK(done, users, user)
    ensures forall user :: UserOK(done + [e], AddUser(users, e), user)
  {
    assert (done + [e])[..|done|] == done;
    forall user ensures UserOK(done + [e], AddUser(users, e), user) {
      assert UserOK(done, users, user);
    }
  }

  lemma TotalsGrow(done: seq<Event>, e: Event)
    ensures forall c :: CountAll(done + [e], c) == CountAll(done, c) + if Counted(e, c) then 1 else 0
    ensures forall c :: Selected(done + [e], c) == Selected(done, c) + if Counted(e, c) then [e] else []
  {
    assert (done + [e])[..|done|] == done;
  }

  /** The first loop: the auth log. */
  method AggregateAuth(events: seq<Event>)
    returns (stats: Stats, users: map<string, nat>, totals: Totals, successes: seq<Event>)
    ensures forall ip :: AuthOK(events, stats, ip)
    ensures forall user :: UserOK(events, users, user)
    ensures TotalsOK(events, totals) && successes == Selected(events, Success)
  {
    stats, users, totals, successes := map[], map[], Totals(0, 0, 0), [];
    var n := 0;
    while n < |events|
      invariant 0 <= n <= |events|
      invariant forall ip :: AuthOK(events[..n], stats, ip)
      invariant forall user :: UserOK(events[..n], users, user)
      invariant TotalsOK(events[..n], totals) && successes == Selected(events[..n], Success)
    {
      var e := events[n];
      AuthGrows(events[..n], e, stats);
      UsersGrow(events[..n], e, users);
      TotalsGrow(events[..n], e);
      ghost var stats', users' := AddAuth(stats, e), AddUser(users, e);
      assert events[..n + 1] == events[..n] + [e];
      n := n + 1;
      if e.ip == "" {
        continue;
      }
      var st := Touch(stats, e.ip);
      match ClassOf(e.kind) {
        case Failure =>
          st, totals := st.(failures := st.failures + 1), totals.(failures := totals.failures + 1);
          users := BumpUser(users, e.user);
        case Invalid =>
          st, totals := st.(invalidUsers := st.invalidUsers + 1), totals.(invalidUsers := totals.invalidUsers + 1);
          users := BumpUser(users, e.user);
        case Success =>
          st, totals := st.(successes := st.successes + 1), totals.(successes := totals.successes + 1);
          successes := successes + [e];
        case _ =>
      }
      stats := stats[e.ip := st];
      assert stats == stats' && users == users';
    }
    assert events[..n] == events;
  }

  function BumpUser(users: map<string, nat>, user: string): map<string, nat>
  {
    if user == "" then users else users[user := 1 + if user in users then users[user] else 0]
  }

  ghost predicate BansOK(events: seq<Event>, was: Stats, stats: Stats, ip: string)
  {
    && (ip in stats <==> ip in was || Seen(events, ip))
    && Touch(stats, ip) == Touch(was, ip).(bans := Touch(was, ip).bans + Count(events, ip, Banning))
  }

  ghost predicate ActionOK(events: seq<Event>, last: map<string, Kind>, ip: string)
  {
    if ip in last then ip != "" && LastAction(events, ip) == Some(last[ip])
        else ip == "" || LastAction(events, ip) == None
  }

  function AddBan(stats: Stats, e: Event): Stats
  {
    if e.ip == "" then stats
    else
      var was := Touch(stats, e.ip);
      stats[e.ip := if e.kind == Ban then was.(bans := was.bans + 1) else was]
  }

  lemma BansGrow(done: seq<Event>, e: Event, was: Stats, stats: Stats)
    requires forall ip :: BansOK(done, was, stats, ip)
    ensures forall ip :: BansOK(done + [e], was, AddBan(stats, e), ip)
  {
    assert (done + [e])[..|done|] == done;
    forall ip ensures BansOK(done + [e], was, AddBan(stats, e), ip) {
      assert BansOK(done, was, stats, ip) && BansOK(done, was, stats, e.ip);
      OneMoreSeen(done, e, ip);
    }
  }

  function AddAction(last: map<string, Kind>, e: Event): map<string, Kind>
  {
    if e.ip == "" then last else last[e.ip := e.kind]
  }

  lemma ActionsGrow(done: seq<Event>, e: Event, last: map<string, Kind>)
    requires forall ip :: ActionOK(done, last, ip)
    ensures forall ip :: ActionOK(done + [e], AddAction(last, e), ip)
  {
    assert (done + [e])[..|done|] == done;
    forall ip ensures ActionOK(done + [e], AddAction(last, e), ip) {
      assert ActionOK(done, last, ip);
    }
  }

  /** The second loop: the ban log. */
  method AggregateBans(events: seq<Event>, was: Stats)
    returns (stats: Stats, last: map<string, Kind>, bansTotal: nat, recent: seq<Event>)
    ensures forall ip :: BansOK(events, was, stats, ip)
    ensures forall ip :: ActionOK(events, last, ip)
    ensures bansTotal == CountAll(events, Banning) && recent == Selected(events, Banning)
  {
    stats, last, bansTotal, recent := was, map[], 0, [];
    var n := 0;
    while n < |events|
      invariant 0 <= n <= |events|
      invariant forall ip :: BansOK(events[..n], was, stats, ip)
      invariant forall ip :: ActionOK(events[..n], last, ip)
      invariant bansTotal == CountAll(events[..n], Banning) && recent == Selected(events[..n], Banning)
    {
      var e := events[n];
      BansGrow(events[..n], e, was, stats);
      ActionsGrow(events[..n], e, last);
      TotalsGrow(events[..n], e);
      ghost var stats', last' := AddBan(stats, e), AddAction(last, e);
      assert events[..n + 1] == events[..n] + [e];
      n := n + 1;
      if e.ip == "" {
        continue;
      }
      var st := Touch(stats, e.ip);
      if e.kind == Ban {
        st, bansTotal, recent := st.(bans := st.bans + 1), bansTotal + 1, recent + [e];
      }
      stats, last := stats[e.ip := st], last[e.ip := e.kind];
      assert stats == stats' && last == last';
    }
    assert events[..n] == events;
  }

  /** Who is held now: the addresses whose last action is a ban. */
  method MarkBanned(events: seq<Event>, was: Stats, last: map<string, Kind>) returns (stats: Stats, active: nat)
    requires forall ip :: ActionOK(events, last, ip)
    requires forall ip :: ip in last ==> ip in was && !was[ip].banned
    requires forall ip :: ip in was && ip !in last ==> !was[ip].banned
    ensures stats.Keys == was.Keys
    ensures forall ip :: ip in stats ==>
              stats[ip] == was[ip].(banned := ip != "" && LastAction(events, ip) == Some(Ban))
    ensures active == |set ip | ip in stats && stats[ip].banned|
  {
    stats, active := was, 0;
    var todo := last.Keys;
    ghost var held: set<string> := {};
    while todo != {}
      invariant todo <= last.Keys && stats.Keys == was.Keys && active == |held|
      invariant forall ip :: ip in held <==> ip in last && ip !in todo && last[ip] == Ban
      invariant forall ip :: ip in stats ==> stats[ip] == was[ip].(banned := ip in held)
      decreases todo
    {
      var ip :| ip in todo;
      if last[ip] == Ban {
        stats := stats[ip := stats[ip].(banned := true)];
        active := active + 1;
        held := held + {ip};
      }
      todo := todo - {ip};
    }
    forall ip | ip in stats ensures ip in held <==> ip != "" && LastAction(events, ip) == Some(Ban) {
      assert ActionOK(events, last, ip);
    }
    assert held == set ip | ip in stats && stats[ip].banned;
  }

  // ---- conservation ----

  function Field(s: Stat, c: Class): nat
  {
    match c
    case Failure => s.failures
    case Invalid => s.invalidUsers
    case Success => s.successes
    case Banning => s.bans
    case Nothing => 0
  }

  ghost function SumCounts(ips: set<string>, events: seq<Event>, c: Class): nat
  {
    if ips == {} then 0
    else
      var ip :| ip in ips;
      Count(events, ip, c) + SumCounts(ips - {ip}, events, c)
  }

  ghost function SumStats(ips: set<string>, stats: Stats, c: Class): nat
  {
    if ips == {} then 0
    else
      var ip :| ip in ips;
      Field(Touch(stats, ip), c) + SumStats(ips - {ip}, stats, c)
  }

  lemma {:induction false} SumOne(ips: set<string>, events: seq<Event>, c: Class, x: string)
    requires x in ips
    ensures SumCounts(ips, events, c) == Count(events, x, c) + SumCounts(ips - {x}, events, c)
    decreases ips
  {
    var ip :| ip in ips && SumCounts(ips, events, c) == Count(events, ip, c) + SumCounts(ips - {ip}, events, c);
    if ip != x {
      SumOne(ips - {ip}, events, c, x);
      SumOne(ips - {x}, events, c, ip);
      assert ips - {ip} - {x} == ips - {x} - {ip};
    }
  }

  lemma {:induction false} SumWithout(ips: set<string>, events: seq<Event>, e: Event, c: Class)
    requires e.ip !in ips || !Counted(e, c)
    ensures SumCounts(ips, events + [e], c) == SumCounts(ips, events, c)
    decreases ips
  {
    if ips != {} {
      var ip :| ip in ips && SumCounts(ips, events + [e], c) ==
          Count(events + [e], ip, c) + SumCounts(ips - {ip}, events + [e], c);
      assert (events + [e])[..|events|] == events;
      assert Count(events + [e], ip, c) == Count(events, ip, c);
      SumWithout(ips - {ip}, events, e, c);
      SumOne(ips, events, c, ip);
    }
  }

  lemma SumGrows(ips: set<string>, events: seq<Event>, e: Event, c: Class)
    requires e.ip != "" ==> e.ip in ips
    ensures SumCounts(ips, events + [e], c) == SumCounts(ips, events, c) + if Counted(e, c) then 1 else 0
  {
    if Counted(e, c) {
      SumOne(ips, events, c, e.ip);
      SumOne(ips, events + [e], c, e.ip);
      SumWithout(ips - {e.ip}, events, e, c);
      assert (events + [e])[..|events|] == events;
    } else {
      SumWithout(ips, events, e, c);
    }
  }

  /** Over any set of addresses that covers the log, the counts add up to the
      total. */
  lemma {:induction false} CountsAddUp(ips: set<string>, events: seq<Event>, c: Class)
    requires forall e :: e in events && e.ip != "" ==> e.ip in ips
    ensures SumCounts(ips, events, c) == CountAll(events, c)
  {
    if events == [] {
      NothingToCount(ips, c);
    } else {
      var n := |events| - 1;
      assert events == events[..n] + [events[n]] && events[n] in events;
      CountsAddUp(ips, events[..n], c);
      SumGrows(ips, events[..n], events[n], c);
    }
  }

  lemma {:induction false} NothingToCount(ips: set<string>, c: Class)
    ensures SumCounts(ips, [], c) == 0
    decreases ips
  {
    if ips != {} {
      var ip :| ip in ips && SumCounts(ips, [], c) == Count([], ip, c) + SumCounts(ips - {ip}, [], c);
      assert Count([], ip, c) == 0;
      NothingToCount(ips - {ip}, c);
    }
  }

  lemma {:induction false} StatsAreCounts(ips: set<string>, stats: Stats, events: seq<Event>, c: Class)
    requires forall ip :: ip in ips ==> Field(Touch(stats, ip), c) == Count(events, ip, c)
    ensures SumStats(ips, stats, c) == SumCounts(ips, events, c)
    decreases ips
  {
    if ips != {} {
      var ip :| ip in ips && SumStats(ips, stats, c) == Field(Touch(stats, ip), c) + SumStats(ips - {ip}, stats, c);
      StatsAreCounts(ips - {ip}, stats, events, c);
      SumOne(ips, events, c, ip);
    }
  }
}
