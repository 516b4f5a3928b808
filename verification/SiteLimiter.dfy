/** The limiter as the object the router holds: its fields are updated in place
    by every request. Each method is proved against the step functions of module
    Limiter, whose runs carry the window theorems. */
module SiteLimiter {
  import opened TokenBucket
  import opened Options
  import opened Limiter

  class SiteLimiter {
    const rps: real
    const burst: real
    var bs: map<string, Bucket>
    var lastSweep: real
    var global: Option<Bucket>
    var globalRPS: real
    var globalBurst: real
    ghost const created: real
    ghost var globalSince: real

    ghost function Cfg(): Config
      reads this
    {
      Config(rps, burst, created, if global.Some? then Some(Ceiling(globalRPS, globalBurst, globalSince)) else None)
    }

    ghost function St(): State
      reads this
    {
      State(bs, lastSweep, global)
    }

    constructor (rps: int, burst: int, now: real)
      requires rps > 0
      ensures Cfg() == Config(rps as real, (rps + if burst < 0 then 0 else burst) as real, now, None)
      ensures St() == Fresh(Cfg()) && Sound(Cfg())
    {
      this.rps := rps as real;
      this.burst := (rps + if burst < 0 then 0 else burst) as real;
      bs := map[];
      lastSweep := now;
      global := None;
      created := now;
    }

    /** A non-positive rate means no limiter at all. */
    static method NewLimiter(rps: int, burst: int, now: real) returns (l: SiteLimiter?)
      ensures l == null <==> rps <= 0
      ensures l != null ==> fresh(l) && Sound(l.Cfg()) && l.St() == Fresh(l.Cfg())
      ensures l != null ==> l.Cfg() == Config(rps as real, (rps + if burst < 0 then 0 else burst) as real, now, None)
    {
      if rps <= 0 {
        return null;
      }
      l := new SiteLimiter(rps, burst, now);
    }

    /** Adds the site-wide ceiling; what the limiter knows of addresses stays. A
        limiter that has served nobody is then as good as one created with it. */
    method WithGlobal(rps: int, burst: int, now: real)
      requires Sound(Cfg())
      modifies this`global, this`globalRPS, this`globalBurst, this`globalSince
      ensures Sound(Cfg())
      ensures rps <= 0 ==> Cfg() == old(Cfg()) && St() == old(St())
      ensures rps > 0 ==>
                var cap := (rps + if burst < 0 then 0 else burst) as real;
                && Cfg() == old(Cfg()).(ceiling := Some(Ceiling(rps as real, cap, now)))
                && St() == old(St()).(global := Some(Bucket(cap, now)))
                && (old(St()) == Fresh(old(Cfg())) ==> St() == Fresh(Cfg()))
    {
      if rps <= 0 {
        return;
      }
      globalRPS := rps as real;
      globalBurst := (rps + if burst < 0 then 0 else burst) as real;
      global := Some(Bucket(globalBurst, now));
      globalSince := now;
    }

    method Allow(key: string, now: real) returns (ok: bool)
      modifies this
      ensures Cfg() == old(Cfg())
      ensures St() == Serve(old(Cfg()), old(St()), Call(key, now)).0
      ensures ok <==> Serve(old(Cfg()), old(St()), Call(key, now)).1 == Admitted
    {
      ok := AllowGlobal(now);
      if ok {
        ok := AllowPerIP(key, now);
      }
    }

    method AllowGlobal(now: real) returns (ok: bool)
      modifies this`global
      ensures Cfg() == old(Cfg())
      ensures (St(), ok) == ServeSite(old(Cfg()), old(St()), now)
    {
      if global.None? {
        return true;
      }
      var tokens := global.value.tokens + Earned(globalRPS, now - global.value.last);
      if tokens > globalBurst {
        tokens := globalBurst;
      }
      if tokens < 1.0 {
        global := Some(Bucket(tokens, now));
        return false;
      }
      global := Some(Bucket(tokens - 1.0, now));
      ok := true;
    }

    method AllowPerIP(key: string, now: real) returns (ok: bool)
      modifies this`bs, this`lastSweep
      ensures Cfg() == old(Cfg())
      ensures St() == ServeKey(old(Cfg()), old(St()), key, now).0
      ensures ok <==> ServeKey(old(Cfg()), old(St()), key, now).1 == Admitted
    {
      if now - lastSweep >= SWEEP_INTERVAL {
        Sweep(now);
        lastSweep := now;
      }
      if key !in bs {
        if |bs| >= MAX_BUCKETS {
          return false;
        }
        bs := bs[key := Bucket(burst - 1.0, now)];
        return true;
      }
      var tokens := bs[key].tokens + Earned(rps, now - bs[key].last);
      if tokens > burst {
        tokens := burst;
      }
      if tokens < 1.0 {
        bs := bs[key := Bucket(tokens, now)];
        return false;
      }
      bs := bs[key := Bucket(tokens - 1.0, now)];
      ok := true;
    }

    /** Drops, one by one and in any order, the buckets that have refilled. */
    method Sweep(now: real)
      modifies this`bs
      ensures bs == Swept(old(Cfg()), old(bs), now)
    {
      var todo := bs.Keys;
      while todo != {}
        invariant todo <= bs.Keys <= old(bs).Keys
        invariant forall k :: k in bs ==> bs[k] == old(bs)[k]
        invariant forall k :: k in old(bs) && k !in todo ==> (k in bs <==> k in Swept(old(Cfg()), old(bs), now))
        decreases todo
      {
        var k :| k in todo;
        var refilled := bs[k].tokens + Earned(rps, now - bs[k].last);
        if refilled >= burst {
          bs := bs - {k};
        }
        todo := todo - {k};
      }
    }
  }
}
