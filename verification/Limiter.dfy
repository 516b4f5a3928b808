/** The request limiter of one site: a token bucket per source address, kept in
    a map that is swept and capped, behind one site-wide bucket. */
module Limiter {
  import opened Options
  import opened TokenBucket

  const MAX_BUCKETS := 50_000
  const SWEEP_INTERVAL := 30.0

  /** The ceiling for the whole site, when there is one, and when it was added. */
  datatype Ceiling = Ceiling(rate: real, cap: real, since: real)

  datatype Config = Config(rate: real, cap: real, created: real, ceiling: Option<Ceiling>)

  datatype State = State(bs: map<string, Bucket>, lastSweep: real, global: Option<Bucket>)

  datatype Call = Call(key: string, at: real)

  datatype Outcome = SiteRefused | CapRefused | Throttled | Admitted

  datatype Entry = Entry(call: Call, outcome: Outcome)

  ghost predicate Sound(c: Config)
  {
    && c.rate >= 1.0 && c.cap >= 1.0
    && (c.ceiling.Some? ==> c.ceiling.value.rate >= 1.0 && c.ceiling.value.cap >= 1.0)
  }

  // ---- one request ----

  function Swept(c: Config, bs: map<string, Bucket>, now: real): map<string, Bucket>
  {
    map k | k in bs && !(bs[k].tokens + Earned(c.rate, now - bs[k].last) >= c.cap) :: bs[k]
  }

  function AfterSweep(c: Config, st: State, now: real): State
  {
    if now - st.lastSweep >= SWEEP_INTERVAL
    then st.(bs := Swept(c, st.bs, now), lastSweep := now)
    else st
  }

  function ServeSite(c: Config, st: State, now: real): (State, bool)
  {
    match (c.ceiling, st.global)
    case (Some(g), Some(b)) =>
      var (b', ok) := Take(b, g.rate, g.cap, now);
      (st.(global := Some(b')), ok)
    case _ => (st, true)
  }

  function ServeKey(c: Config, st0: State, key: string, now: real): (State, Outcome)
  {
    var st := AfterSweep(c, st0, now);
    if key !in st.bs then
      if |st.bs| >= MAX_BUCKETS then (st, CapRefused)
      else (st.(bs := st.bs[key := Bucket(c.cap - 1.0, now)]), Admitted)
    else
      var (b, ok) := Take(st.bs[key], c.rate, c.cap, now);
      (st.(bs := st.bs[key := b]), if ok then Admitted else Throttled)
  }

  function Serve(c: Config, st: State, call: Call): (State, Outcome)
  {
    var (st', ok) := ServeSite(c, st, call.at);
    if !ok then (st', SiteRefused) else ServeKey(c, st', call.key, call.at)
  }

  // ---- whole runs ----

  function Fresh(c: Config): State
  {
    State(map[], c.created, if c.ceiling.Some? then Some(Bucket(c.ceiling.value.cap, c.ceiling.value.since)) else None)
  }

  /** When the limiter was ready: created, and given its ceiling. */
  function Ready(c: Config): real
  {
    if c.ceiling.Some? && c.ceiling.value.since > c.created then c.ceiling.value.since else c.created
  }

  function Run(c: Config, calls: seq<Call>): (State, seq<Entry>)
  {
    if calls == [] then (Fresh(c), [])
    else
      var (st, log) := Run(c, calls[..|calls| - 1]);
      var call := calls[|calls| - 1];
      var (st', out) := Serve(c, st, call);
      (st', log + [Entry(call, out)])
  }

  /** The clock never runs backwards. */
  ghost predicate Timed(c: Config, calls: seq<Call>)
  {
    && (forall i :: 0 <= i < |calls| ==> Ready(c) <= calls[i].at)
    && (forall i, j :: 0 <= i <= j < |calls| ==> calls[i].at <= calls[j].at)
  }

  function Clock(c: Config, calls: seq<Call>): real
  {
    if calls == [] then Ready(c) else calls[|calls| - 1].at
  }

  /** When `key` was admitted. */
  function Admits(log: seq<Entry>, key: string): seq<real>
  {
    if log == [] then []
    else
      var e := log[|log| - 1];
      Admits(log[..|log| - 1], key) + (if e.outcome == Admitted && e.call.key == key then [e.call.at] else [])
  }

  /** When the site-wide bucket paid. */
  function SiteTakes(log: seq<Entry>): seq<real>
  {
    if log == [] then []
    else
      var e := log[|log| - 1];
      SiteTakes(log[..|log| - 1]) + (if e.outcome != SiteRefused then [e.call.at] else [])
  }

  /** When anybody was admitted. */
  function AllAdmits(log: seq<Entry>): seq<real>
  {
    if log == [] then []
    else
      var e := log[|log| - 1];
      AllAdmits(log[..|log| - 1]) + (if e.outcome == Admitted then [e.call.at] else [])
  }

  // ---- what every run keeps ----

  ghost predicate KeyAgrees(c: Config, bs: map<string, Bucket>, ts: seq<real>, key: string, now: real)
  {
    && Lawful(ts, c.rate, c.cap)
    && (if key in bs then bs[key].last <= now && Tracks(bs[key], ts, c.rate, c.cap)
        else Idle(ts, c.rate, c.cap, now))
  }

  ghost predicate SiteAgrees(c: Config, global: Option<Bucket>, ts: seq<real>, now: real)
  {
    && (c.ceiling.Some? <==> global.Some?)
    && (c.ceiling.Some? ==>
          && global.value.last <= now
          && Lawful(ts, c.ceiling.value.rate, c.ceiling.value.cap)
          && Tracks(global.value, ts, c.ceiling.value.rate, c.ceiling.value.cap))
  }

  ghost predicate Agrees(c: Config, st: State, log: seq<Entry>, now: real)
  {
    && |st.bs| <= MAX_BUCKETS
    && SiteAgrees(c, st.global, SiteTakes(log), now)
    && (forall key :: KeyAgrees(c, st.bs, Admits(log, key), key, now))
  }

  lemma AdmitsAppend(log: seq<Entry>, e: Entry, key: string)
    ensures Admits(log + [e], key) ==
            if e.outcome == Admitted && e.call.key == key then Admits(log, key) + [e.call.at] else Admits(log, key)
  {
    assert (log + [e])[..|log|] == log;
  }

  lemma SiteTakesAppend(log: seq<Entry>, e: Entry)
    ensures SiteTakes(log + [e]) == if e.outcome != SiteRefused then SiteTakes(log) + [e.call.at] else SiteTakes(log)
  {
    assert (log + [e])[..|log|] == log;
  }

  lemma SubsetIsSmaller(a: set<string>, b: set<string>)
    requires a <= b
    ensures |a| <= |b|
  {
    if a != {} {
      var x :| x in a;
      SubsetIsSmaller(a - {x}, b - {x});
    }
  }

  /** Dropping a refilled bucket keeps the agreement: that is what makes it free. */
  lemma SweepAgrees(c: Config, bs: map<string, Bucket>, ts: seq<real>, key: string, clock: real, now: real)
    requires Sound(c) && clock <= now && KeyAgrees(c, bs, ts, key, clock)
    ensures KeyAgrees(c, Swept(c, bs, now), ts, key, now)
    ensures KeyAgrees(c, bs, ts, key, now)
  {
    if key in bs {
      if key !in Swept(c, bs, now) {
        RefilledIsIdle(bs[key], ts, c.rate, c.cap, now);
      }
    } else {
      IdleLasts(ts, c.rate, c.cap, clock, now);
    }
  }

  lemma SweepShrinks(c: Config, bs: map<string, Bucket>, now: real)
    ensures |Swept(c, bs, now)| <= |bs|
  {
    SubsetIsSmaller(Swept(c, bs, now).Keys, bs.Keys);
  }

  /** The per-address verdict, read off the history alone. */
  lemma ServeKeyAgrees(c: Config, st: State, log: seq<Entry>, key: string, clock: real, now: real)
    requires Sound(c) && clock <= now && |st.bs| <= MAX_BUCKETS
    requires forall k :: KeyAgrees(c, st.bs, Admits(log, k), k, clock)
    ensures var (st', out) := ServeKey(c, st, key, now);
            && |st'.bs| <= MAX_BUCKETS
            && out != SiteRefused
            && (out == CapRefused <==> key !in AfterSweep(c, st, now).bs && |AfterSweep(c, st, now).bs| >= MAX_BUCKETS)
            && (out != CapRefused ==> (out == Admitted <==> WindowsAllow(Admits(log, key), c.rate, c.cap, now)))
            && forall k :: KeyAgrees(c, st'.bs, Admits(log + [Entry(Call(key, now), out)], k), k, now)
  {
    var mid := AfterSweep(c, st, now);
    var (st', out) := ServeKey(c, st, key, now);
    SweepShrinks(c, st.bs, now);
    var e := Entry(Call(key, now), out);
    var ts := Admits(log, key);
    assert KeyAgrees(c, st.bs, ts, key, clock);
    SweepAgrees(c, st.bs, ts, key, clock, now);
    if out != CapRefused {
      VisitAgrees(c, mid, ts, key, now);
    }
    forall k ensures KeyAgrees(c, st'.bs, Admits(log + [e], k), k, now) {
      AdmitsAppend(log, e, k);
      if k != key {
        assert KeyAgrees(c, st.bs, Admits(log, k), k, clock);
        SweepAgrees(c, st.bs, Admits(log, k), k, clock, now);
        OtherKeyAgrees(c, mid.bs, st'.bs, Admits(log, k), k, now);
      }
    }
  }

  lemma OtherKeyAgrees(c: Config, bs: map<string, Bucket>, bs': map<string, Bucket>, ts: seq<real>, key: string,
                       now: real)
    requires KeyAgrees(c, bs, ts, key, now)
    requires key in bs <==> key in bs'
    requires key in bs ==> bs[key] == bs'[key]
    ensures KeyAgrees(c, bs', ts, key, now)
  {
  }

  /** One visit to the swept map, below the cap. */
  lemma VisitAgrees(c: Config, mid: State, ts: seq<real>, key: string, now: real)
    requires Sound(c) && KeyAgrees(c, mid.bs, ts, key, now)
    requires key in mid.bs || |mid.bs| < MAX_BUCKETS
    ensures var (b, ok) := if key in mid.bs then Take(mid.bs[key], c.rate, c.cap, now)
            else (Bucket(c.cap - 1.0, now), true);
            && (ok <==> WindowsAllow(ts, c.rate, c.cap, now))
            && KeyAgrees(c, mid.bs[key := b], if ok then ts + [now] else ts, key, now)
  {
    if key in mid.bs {
      TakeIsWindowLaw(mid.bs[key], ts, c.rate, c.cap, now);
    } else {
      FirstVisit(ts, c.rate, c.cap, now);
    }
    if WindowsAllow(ts, c.rate, c.cap, now) {
      LawfulAppend(ts, c.rate, c.cap, now);
    }
  }

  /** The site-wide verdict, read off the history alone. */
  lemma ServeSiteAgrees(c: Config, st: State, ts: seq<real>, clock: real, now: real)
    requires Sound(c) && clock <= now && SiteAgrees(c, st.global, ts, clock)
    ensures var (st', ok) := ServeSite(c, st, now);
            && st' == st.(global := st'.global)
            && (ok <==> c.ceiling.Some? ==> WindowsAllow(ts, c.ceiling.value.rate, c.ceiling.value.cap, now))
            && SiteAgrees(c, st'.global, if ok then ts + [now] else ts, now)
  {
    if c.ceiling.Some? {
      var g := c.ceiling.value;
      TakeIsWindowLaw(st.global.value, ts, g.rate, g.cap, now);
      if WindowsAllow(ts, g.rate, g.cap, now) {
        LawfulAppend(ts, g.rate, g.cap, now);
      }
    }
  }

  /** The verdict on one call after the history `log`; `full` says whether the
      call meets a full map without a bucket of its own. */
  ghost predicate Verdict(c: Config, log: seq<Entry>, call: Call, full: bool, out: Outcome)
  {
    && (out == SiteRefused <==>
          c.ceiling.Some? && !WindowsAllow(SiteTakes(log), c.ceiling.value.rate, c.ceiling.value.cap, call.at))
    && (out == CapRefused ==> full)
    && (full ==> out == SiteRefused || out == CapRefused)
    && (out != SiteRefused && !full ==>
        (out == Admitted <==> WindowsAllow(Admits(log, call.key), c.rate, c.cap, call.at)))
  }

  /** `call` finds neither a bucket nor room for one, once the due sweep is done. */
  ghost predicate Full(c: Config, st: State, call: Call)
  {
    call.key !in AfterSweep(c, st, call.at).bs && |AfterSweep(c, st, call.at).bs| >= MAX_BUCKETS
  }

  lemma PaidCallAgrees(c: Config, st: State, log: seq<Entry>, call: Call, clock: real)
    requires Sound(c) && clock <= call.at && Agrees(c, st, log, clock) && ServeSite(c, st, call.at).1
    ensures var (st', out) := Serve(c, st, call);
            && Verdict(c, log, call, Full(c, st, call), out)
            && Agrees(c, st', log + [Entry(call, out)], call.at)
  {
    var mid := ServeSite(c, st, call.at).0;
    var (st', out) := ServeKey(c, mid, call.key, call.at);
    assert Serve(c, st, call) == (st', out);
    ServeSiteAgrees(c, st, SiteTakes(log), clock, call.at);
    assert mid.bs == st.bs && mid.lastSweep == st.lastSweep;
    ServeKeyAgrees(c, mid, log, call.key, clock, call.at);
    assert Entry(Call(call.key, call.at), out) == Entry(call, out);
    SiteTakesAppend(log, Entry(call, out));
    assert st'.global == mid.global;
  }

  lemma RefusedCallAgrees(c: Config, st: State, log: seq<Entry>, call: Call, clock: real)
    requires Sound(c) && clock <= call.at && Agrees(c, st, log, clock) && !ServeSite(c, st, call.at).1
    ensures var (st', out) := Serve(c, st, call);
            && Verdict(c, log, call, Full(c, st, call), out)
            && Agrees(c, st', log + [Entry(call, out)], call.at)
  {
    var mid := ServeSite(c, st, call.at).0;
    assert Serve(c, st, call) == (mid, SiteRefused);
    ServeSiteAgrees(c, st, SiteTakes(log), clock, call.at);
    SiteTakesAppend(log, Entry(call, SiteRefused));
    RefusalAgrees(c, st, log, Entry(call, SiteRefused), clock, call.at);
  }

  lemma ServeAgrees(c: Config, st: State, log: seq<Entry>, call: Call, clock: real)
    requires Sound(c) && clock <= call.at && Agrees(c, st, log, clock)
    ensures var (st', out) := Serve(c, st, call);
            && Verdict(c, log, call, Full(c, st, call), out)
            && Agrees(c, st', log + [Entry(call, out)], call.at)
  {
    if ServeSite(c, st, call.at).1 {
      PaidCallAgrees(c, st, log, call, clock);
    } else {
      RefusedCallAgrees(c, st, log, call, clock);
    }
  }

  lemma RefusalAgrees(c: Config, st: State, log: seq<Entry>, e: Entry, clock: real, now: real)
    requires Sound(c) && clock <= now && e.outcome != Admitted
    requires forall k :: KeyAgrees(c, st.bs, Admits(log, k), k, clock)
    ensures forall k :: KeyAgrees(c, st.bs, Admits(log + [e], k), k, now)
  {
    forall k ensures KeyAgrees(c, st.bs, Admits(log + [e], k), k, now) {
      assert KeyAgrees(c, st.bs, Admits(log, k), k, clock);
      SweepAgrees(c, st.bs, Admits(log, k), k, clock, now);
      AdmitsAppend(log, e, k);
    }
  }

  lemma {:induction false} RunAgrees(c: Config, calls: seq<Call>)
    requires Sound(c) && Timed(c, calls)
    ensures var (st, log) := Run(c, calls);
            |log| == |calls| && Agrees(c, st, log, Clock(c, calls))
  {
    if calls == [] {
      if c.ceiling.Some? {
        FullTracks(c.ceiling.value.rate, c.ceiling.value.cap, c.ceiling.value.since);
      }
      forall key ensures KeyAgrees(c, map[], [], key, Ready(c)) {
        NewcomerIsIdle(c.rate, c.cap, Ready(c));
      }
    } else {
      var earlier := calls[..|calls| - 1];
      RunAgrees(c, earlier);
      var (st, log) := Run(c, earlier);
      ServeAgrees(c, st, log, calls[|calls| - 1], Clock(c, earlier));
    }
  }

  // ---- main results ----

  /** The next call of any run is decided by the window law: refused by the site
      budget, refused because the map is full, or admitted exactly when none of
      the address's windows ending now would exceed burst + rps * length. */
  lemma ExactAdmission(c: Config, calls: seq<Call>, call: Call)
    requires Sound(c) && Timed(c, calls + [call])
    ensures var (st, log) := Run(c, calls);
            Verdict(c, log, call, Full(c, st, call), Serve(c, st, call).1)
  {
    assert calls == (calls + [call])[..|calls|];
    assert forall i :: 0 <= i < |calls| ==> calls[i] == (calls + [call])[i];
    assert call == (calls + [call])[|calls|];
    RunAgrees(c, calls);
    var (st, log) := Run(c, calls);
    ServeAgrees(c, st, log, call, Clock(c, calls));
  }

  /** It is enough to look at the windows that begin at an earlier request of the
      address, or now: whichever instants are looked at besides those of its
      admissions, the verdict is the same. */
  lemma ExactAtRequests(c: Config, calls: seq<Call>, call: Call, instants: set<real>)
    requires Sound(c) && Timed(c, calls + [call])
    requires var log := Run(c, calls).1;
             && (forall t :: t in Admits(log, call.key) ==> t in instants)
             && (forall t :: t in instants ==> t <= call.at) && call.at in instants
    ensures var (st, log) := Run(c, calls);
            var out := Serve(c, st, call).1;
            out == Admitted || out == Throttled ==>
              (out == Admitted <==> forall s :: s in instants ==>
                  Slack(Admits(log, call.key), c.rate, c.cap, s, call.at) >= 1.0)
  {
    ExactAdmission(c, calls, call);
    assert calls == (calls + [call])[..|calls|];
    assert forall i :: 0 <= i < |calls| ==> calls[i] == (calls + [call])[i];
    assert call == (calls + [call])[|calls|];
    RunAgrees(c, calls);
    var (st, log) := Run(c, calls);
    assert KeyAgrees(c, st.bs, Admits(log, call.key), call.key, Clock(c, calls));
    InstantsDecide(Admits(log, call.key), c.rate, c.cap, call.at);
  }

  /** Memory and rate bounds of every reachable state, sweeps and cap included. */
  lemma RunCeilings(c: Config, calls: seq<Call>, s: real, t: real)
    requires Sound(c) && Timed(c, calls) && s <= t
    ensures var (st, log) := Run(c, calls);
            && |st.bs| <= MAX_BUCKETS
            && (forall key :: Within(Admits(log, key), s, t) as real <= c.cap + Earned(c.rate, t - s))
            && (c.ceiling.Some? ==>
                  Within(AllAdmits(log), s, t) as real <= c.ceiling.value.cap + Earned(c.ceiling.value.rate, t - s))
  {
    RunAgrees(c, calls);
    var (st, log) := Run(c, calls);
    var now := Clock(c, calls);
    forall key ensures Within(Admits(log, key), s, t) as real <= c.cap + Earned(c.rate, t - s) {
      assert KeyAgrees(c, st.bs, Admits(log, key), key, now);
      KeyCeiling(c, st.bs, Admits(log, key), key, now, s, t);
    }
    SiteCeiling(c, st.global, log, now, s, t);
  }

  lemma KeyCeiling(c: Config, bs: map<string, Bucket>, ts: seq<real>, key: string, now: real, s: real, t: real)
    requires Sound(c) && s <= t && KeyAgrees(c, bs, ts, key, now)
    ensures Within(ts, s, t) as real <= c.cap + Earned(c.rate, t - s)
  {
    LawfulCeiling(ts, c.rate, c.cap, s, t, if key in bs then bs[key].last else now);
  }

  lemma SiteCeiling(c: Config, global: Option<Bucket>, log: seq<Entry>, now: real, s: real, t: real)
    requires Sound(c) && s <= t && SiteAgrees(c, global, SiteTakes(log), now)
    ensures c.ceiling.Some? ==>
              Within(AllAdmits(log), s, t) as real <= c.ceiling.value.cap + Earned(c.ceiling.value.rate, t - s)
  {
    if c.ceiling.Some? {
      PaidCeiling(log, c.ceiling.value.rate, c.ceiling.value.cap, s, t, global.value.last);
    }
  }

  lemma PaidCeiling(log: seq<Entry>, rate: real, cap: real, s: real, t: real, last: real)
    requires Ordered(SiteTakes(log), last) && Lawful(SiteTakes(log), rate, cap)
    requires s <= t && rate >= 0.0 && cap >= 0.0
    ensures Within(AllAdmits(log), s, t) as real <= cap + Earned(rate, t - s)
  {
    var budget := cap + Earned(rate, t - s);
    LawfulCeiling(SiteTakes(log), rate, cap, s, t, last);
    assert Within(SiteTakes(log), s, t) as real <= budget;
    AdmitsArePaid(log, s, t);
  }

  lemma {:induction false} AdmitsArePaid(log: seq<Entry>, s: real, t: real)
    ensures Within(AllAdmits(log), s, t) <= Within(SiteTakes(log), s, t)
  {
    if log != [] {
      var rest, e := log[..|log| - 1], log[|log| - 1];
      AdmitsArePaid(rest, s, t);
      WithinAppend(AllAdmits(rest), e.call.at, s, t);
      WithinAppend(SiteTakes(rest), e.call.at, s, t);
      assert SiteTakes(rest) + [] == SiteTakes(rest);
      assert AllAdmits(rest) + [] == AllAdmits(rest);
    }
  }

  // ---- who fills the map ----

  /** Each tracked address has an admission that was not earned back at the last
      sweep. */
  ghost predicate Busy(c: Config, st: State, log: seq<Entry>)
  {
    forall k :: k in st.bs ==> Unearned(Admits(log, k), c.rate, c.cap, st.lastSweep)
  }

  lemma UnearnedAfter(c: Config, ts: seq<real>, x: real, at: real)
    requires Unearned(ts, c.rate, c.cap, at)
    ensures Unearned(ts + [x], c.rate, c.cap, at)
  {
    var t :| t in ts && Earned(c.rate, at - t) < c.cap;
    assert t in ts + [x];
  }

  lemma JustAdmitted(c: Config, ts: seq<real>, now: real, at: real)
    requires Sound(c) && at <= now
    ensures Unearned(ts + [now], c.rate, c.cap, at)
  {
    EarnedLess(c.rate, at - now, 0.0);
    assert now in ts + [now];
  }

  lemma SurvivorIsBusy(c: Config, bs: map<string, Bucket>, ts: seq<real>, k: string, clock: real, now: real)
    requires Sound(c) && clock <= now && KeyAgrees(c, bs, ts, k, clock) && k in Swept(c, bs, now)
    ensures Unearned(ts, c.rate, c.cap, now)
  {
    UnfilledIsUnearned(bs[k], ts, c.rate, c.cap, now);
  }

  lemma {:induction false} SweepKeepsBusy(c: Config, st: State, log: seq<Entry>, clock: real, now: real)
    requires Sound(c) && clock <= now && Busy(c, st, log)
    requires forall k :: KeyAgrees(c, st.bs, Admits(log, k), k, clock)
    ensures Busy(c, AfterSweep(c, st, now), log)
  {
    if now - st.lastSweep >= SWEEP_INTERVAL {
      forall k | k in Swept(c, st.bs, now) ensures Unearned(Admits(log, k), c.rate, c.cap, now) {
        assert KeyAgrees(c, st.bs, Admits(log, k), k, clock);
        SurvivorIsBusy(c, st.bs, Admits(log, k), k, clock, now);
      }
    }
  }

  lemma ServeKeyKeepsBusy(c: Config, st: State, log: seq<Entry>, key: string, clock: real, now: real)
    requires Sound(c) && st.lastSweep <= clock <= now && Busy(c, st, log)
    requires forall k :: KeyAgrees(c, st.bs, Admits(log, k), k, clock)
    ensures var (st', out) := ServeKey(c, st, key, now);
            st'.lastSweep <= now && Busy(c, st', log + [Entry(Call(key, now), out)])
  {
    var mid := AfterSweep(c, st, now);
    var (st', out) := ServeKey(c, st, key, now);
    SweepKeepsBusy(c, st, log, clock, now);
    var e := Entry(Call(key, now), out);
    forall k | k in st'.bs ensures Unearned(Admits(log + [e], k), c.rate, c.cap, st'.lastSweep) {
      AdmitsAppend(log, e, k);
      if out == Admitted && k == key {
        JustAdmitted(c, Admits(log, k), now, mid.lastSweep);
      }
    }
  }

  lemma ServeKeepsBusy(c: Config, st: State, log: seq<Entry>, call: Call, clock: real)
    requires Sound(c) && st.lastSweep <= clock <= call.at && Busy(c, st, log) && Agrees(c, st, log, clock)
    ensures var (st', out) := Serve(c, st, call); st'.lastSweep <= call.at && Busy(c, st', log + [Entry(call, out)])
  {
    var (mid, ok) := ServeSite(c, st, call.at);
    assert mid.bs == st.bs && mid.lastSweep == st.lastSweep;
    if ok {
      ServeKeyKeepsBusy(c, mid, log, call.key, clock, call.at);
      assert Call(call.key, call.at) == call;
    } else {
      forall k | k in st.bs ensures Unearned(Admits(log + [Entry(call, SiteRefused)], k), c.rate, c.cap, st.lastSweep) {
        AdmitsAppend(log, Entry(call, SiteRefused), k);
      }
    }
  }

  lemma {:induction false} RunKeepsBusy(c: Config, calls: seq<Call>)
    requires Sound(c) && Timed(c, calls)
    ensures var (st, log) := Run(c, calls); st.lastSweep <= Clock(c, calls) && Busy(c, st, log)
  {
    if calls != [] {
      var earlier := calls[..|calls| - 1];
      RunKeepsBusy(c, earlier);
      RunAgrees(c, earlier);
      var (st, log) := Run(c, earlier);
      ServeKeepsBusy(c, st, log, calls[|calls| - 1], Clock(c, earlier));
    }
  }

  lemma BusyBefore(c: Config, st: State, log: seq<Entry>, k: string, before: real)
    requires Sound(c) && Busy(c, st, log) && k in st.bs && before <= st.lastSweep
    ensures Unearned(Admits(log, k), c.rate, c.cap, before)
  {
    var t :| t in Admits(log, k) && Earned(c.rate, st.lastSweep - t) < c.cap;
    EarnedLess(c.rate, before - t, st.lastSweep - t);
  }

  lemma FullMeansCrowd(c: Config, mid: State, log: seq<Entry>, call: Call) returns (crowd: set<string>)
    requires Sound(c) && Busy(c, mid, log) && call.at - SWEEP_INTERVAL <= mid.lastSweep
    requires call.key !in mid.bs && |mid.bs| >= MAX_BUCKETS
    ensures |crowd| >= MAX_BUCKETS && call.key !in crowd
    ensures forall k :: k in crowd ==> Unearned(Admits(log, k), c.rate, c.cap, call.at - SWEEP_INTERVAL)
  {
    crowd := mid.bs.Keys;
    forall k | k in crowd ensures Unearned(Admits(log, k), c.rate, c.cap, call.at - SWEEP_INTERVAL) {
      BusyBefore(c, mid, log, k, call.at - SWEEP_INTERVAL);
    }
  }

  /** A newcomer is refused at the cap only in a crowd: 50,000 other addresses each
      have an admission that had not been earned back one sweep interval ago. */
  lemma CapMeansCrowd(c: Config, calls: seq<Call>, call: Call) returns (crowd: set<string>)
    requires Sound(c) && Timed(c, calls + [call]) && Serve(c, Run(c, calls).0, call).1 == CapRefused
    ensures |crowd| >= MAX_BUCKETS && call.key !in crowd
    ensures forall k :: k in crowd ==> Unearned(Admits(Run(c, calls).1, k), c.rate, c.cap, call.at - SWEEP_INTERVAL)
  {
    ExactAdmission(c, calls, call);
    assert calls == (calls + [call])[..|calls|];
    assert forall i :: 0 <= i < |calls| ==> calls[i] == (calls + [call])[i];
    assert call == (calls + [call])[|calls|];
    RunAgrees(c, calls);
    RunKeepsBusy(c, calls);
    SweepKeepsBusy(c, Run(c, calls).0, Run(c, calls).1, Clock(c, calls), call.at);
    crowd := FullMeansCrowd(c, AfterSweep(c, Run(c, calls).0, call.at), Run(c, calls).1, call);
  }

  // ---- sweeping is invisible ----

  /** The reference limiter: it never evicts and never refuses to track. */
  function PlainServe(c: Config, st: State, call: Call): (State, Outcome)
  {
    var (mid, ok) := ServeSite(c, st, call.at);
    if !ok then (mid, SiteRefused)
    else
      var (b, taken) := if call.key in mid.bs then Take(mid.bs[call.key], c.rate, c.cap, call.at)
                        else (Bucket(c.cap - 1.0, call.at), true);
      (mid.(bs := mid.bs[call.key := b]), if taken then Admitted else Throttled)
  }

  function PlainRun(c: Config, calls: seq<Call>): (State, seq<Entry>)
  {
    if calls == [] then (Fresh(c), [])
    else
      var (st, log) := PlainRun(c, calls[..|calls| - 1]);
      var call := calls[|calls| - 1];
      var (st', out) := PlainServe(c, st, call);
      (st', log + [Entry(call, out)])
  }

  /** Both limiters hold the same site bucket, and each address is either held
      alike or, where swept away, already refilled to capacity. */
  ghost predicate Alike(c: Config, st: State, plain: State, clock: real)
  {
    && st.global == plain.global
    && (forall k :: k in st.bs ==> k in plain.bs && plain.bs[k] == st.bs[k])
    && (forall k :: k in plain.bs ==> plain.bs[k].last <= clock)
    && (forall k :: k in plain.bs && k !in st.bs ==>
          Refill(plain.bs[k], c.rate, c.cap, clock) == c.cap)
  }

  lemma SweepAlike(c: Config, st: State, plain: State, clock: real, now: real)
    requires Sound(c) && clock <= now && Alike(c, st, plain, clock)
    ensures Alike(c, AfterSweep(c, st, now), plain, now)
  {
    var mid := AfterSweep(c, st, now);
    forall k | k in plain.bs && k !in mid.bs ensures Refill(plain.bs[k], c.rate, c.cap, now) == c.cap {
      if k !in st.bs {
        RefillStaysFull(plain.bs[k], c.rate, c.cap, clock, now);
      }
    }
    forall k | k in plain.bs ensures plain.bs[k].last <= now {
    }
  }

  /** One call, met alike by both limiters. */
  lemma ServeAlike(c: Config, st: State, plain: State, call: Call, clock: real)
    requires Sound(c) && clock <= call.at && Alike(c, st, plain, clock) && Serve(c, st, call).1 != CapRefused
    ensures Serve(c, st, call).1 == PlainServe(c, plain, call).1
    ensures Alike(c, Serve(c, st, call).0, PlainServe(c, plain, call).0, call.at)
  {
    var (st1, ok) := ServeSite(c, st, call.at);
    var plain1 := ServeSite(c, plain, call.at).0;
    assert st1.bs == st.bs && plain1.bs == plain.bs && st1.global == plain1.global;
    SweepAlike(c, st, plain, clock, call.at);
    if ok {
      SweepAlike(c, st1, plain1, clock, call.at);
    } else {
      forall k | k in plain.bs && k !in st.bs ensures Refill(plain.bs[k], c.rate, c.cap, call.at) == c.cap {
        RefillStaysFull(plain.bs[k], c.rate, c.cap, clock, call.at);
      }
    }
  }

  /** On every run that never meets a missing address at the cap, the limiter with
      eviction answers every call as the one that never evicts. */
  lemma {:induction false} SweepIsInvisible(c: Config, calls: seq<Call>)
    requires Sound(c) && Timed(c, calls)
    requires forall e :: e in Run(c, calls).1 ==> e.outcome != CapRefused
    ensures Run(c, calls).1 == PlainRun(c, calls).1
    ensures Alike(c, Run(c, calls).0, PlainRun(c, calls).0, Clock(c, calls))
  {
    if calls != [] {
      var earlier, call := calls[..|calls| - 1], calls[|calls| - 1];
      var (st, log) := Run(c, earlier);
      var out := Serve(c, st, call).1;
      assert Run(c, calls).1 == log + [Entry(call, out)];
      assert Entry(call, out) in Run(c, calls).1;
      SweepIsInvisible(c, earlier);
      ServeAlike(c, st, PlainRun(c, earlier).0, call, Clock(c, earlier));
    }
  }
}
