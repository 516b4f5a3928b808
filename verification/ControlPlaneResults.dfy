/** The main results about the control plane: safe routes, owned ports, images
    with a known origin, and the two ways a port is stranded. */
module ControlPlaneResults {
  import opened Options
  import opened ControlPlane
  import opened ControlPlaneSafety

  // ---- routes ----

  /** In every state any operations of any projects can reach, under any
      failures, a route to a port leads to an allocated port whose container has
      not been removed; the exception is a domain whose project is being, or has
      been, torn down under it. */
  lemma RouteSafety(events: seq<Event>, d: string)
    requires d !in Run(events).exposed && d in Run(events).routes && Run(events).routes[d].Upstream?
    ensures var w := Run(events);
            && w.routes[d].port in w.ports
            && w.ports[w.routes[d].port].Some?
            && w.ports[w.routes[d].port].value in w.containers
            && w.ports[w.routes[d].port].value in w.rows
            && w.rows[w.ports[w.routes[d].port].value].project in w.projects
            && w.projects[w.rows[w.ports[w.routes[d].port].value].project] == d
  {
    RunKeeps(events);
    assert RouteOK(Run(events), d);
  }

  ghost predicate JobsOnly(w: World)
  {
    w.exposed == {} && forall p :: p in w.ops ==> w.ops[p].Job?
  }

  lemma BeginsJob(w: World, e: Event)
    requires e.project !in w.ops && !e.BeginRemove?
    ensures Next(w, e).exposed == w.exposed
    ensures e.project in Next(w, e).ops ==> Next(w, e).ops[e.project].Job?
  {
  }

  lemma OwnOpDecides(w: World, w': World, p: nat)
    requires JobsOnly(w) && Frame(w, w', p) && w'.exposed <= w.exposed && (p in w'.ops ==> w'.ops[p].Job?)
    ensures JobsOnly(w')
  {
  }

  /** Without Remove there is no exception. */
  lemma {:induction false} NoRemoveNoExposure(events: seq<Event>)
    requires forall e :: e in events ==> !e.BeginRemove?
    ensures JobsOnly(Run(events))
  {
    if events != [] {
      var rest, e := events[..|events| - 1], events[|events| - 1];
      NoRemoveNoExposure(rest);
      assert e in events;
      var w := Run(rest);
      RunKeeps(rest);
      NextKeeps(w, e);
      if !(e.project in w.ops) {
        BeginsJob(w, e);
      }
      OwnOpDecides(w, Next(w, e), e.project);
    }
  }

  /** Draining never takes the container or the port of a routed deployment. */
  lemma DrainSparesRoutes(events: seq<Event>, p: nat, x: nat, d: string)
    requires var w := Run(events);
             && p in w.ops && w.ops[p].Job? && w.ops[p].stage.Draining?
             && x in w.ops[p].stage.todo && x != w.ops[p].id && d !in w.exposed
    ensures RouteOwner(Run(events), d) != Some(x)
  {
    var w := Run(events);
    RunKeeps(events);
    assert Local(w, p);
    assert RouteOK(w, d);
  }

  /** Remove frees the port before it deletes the site file: in between, the
      project's route is unsafe exactly when it named the latest deployment. */
  lemma RemoveGap(w: World, p: nat, ok: bool)
    requires Inv(w) && Idle(w, p) && w.projects[p] !in w.exposed
    ensures var d, w' := w.projects[p], Next(w, BeginRemove(p, ok));
            && (RouteOK(w', d) <==> d !in w'.exposed)
            && (d in w'.exposed <==>
                  d in w.routes && w.routes[d].Upstream? && LatestDeployment(w, p).Some?
                  && RouteOwner(w, d) == LatestDeployment(w, p))
  {
    var d, w' := w.projects[p], Next(w, BeginRemove(p, ok));
    NextKeeps(w, BeginRemove(p, ok));
    assert Local(w, p) && RouteOK(w, d);
    match LatestDeployment(w, p) {
      case None =>
      case Some(x) =>
        LatestIsLatest(w, p, x);
        assert w.rows[x].port != 0 ==> Owner(w, x) && Holds(w, w.rows[x].port, x);
        if d in w.routes && w.routes[d].Upstream? && RouteOwner(w, d) == Some(x) {
          assert Holds(w, w.routes[d].port, x);
          assert !InHand(w, w.routes[d].port, x);
        }
    }
  }

  /** When the site file cannot be deleted the route stays after the removal, and is
      safe only if it leads nowhere, or to another project of the same domain. */
  lemma UndeletedRoute(w: World, p: nat, commit: string, isStatic: bool)
    requires Inv(w) && p in w.ops && w.ops[p].Teardown? && p in w.projects
    ensures var d, w' := w.projects[p], Next(w, Advance(p, Env(false, isStatic, commit)));
            && w'.routes == w.routes
            && (RouteOK(w', d) <==>
                  !(d in w.routes && w.routes[d].Upstream?) || (RouteOK(w, d) && !Of(w, RouteOwner(w, d).value, p)))
  {
    var d, w' := w.projects[p], Next(w, Advance(p, Env(false, isStatic, commit)));
    assert w' == FinishTeardown(w, p, d, false);
    if d in w.routes && w.routes[d].Upstream? && RouteOwner(w, d).Some? {
      assert Holds(w, w.routes[d].port, RouteOwner(w, d).value);
    }
  }

  // ---- ports ----

  /** Which row answers for port `q`: not one whose port a drain, or the first half
      of Remove, has just freed. */
  ghost predicate Claims(w: World, x: nat, q: nat)
  {
    && x in w.rows && w.rows[x].port == q && q != 0 && w.rows[x].status != Stopped
    && !Released(w, x) && !(Torn(w, x) && IsLatest(w, x))
  }

  /** Project `p` has an operation in hand that holds port `q`. */
  predicate Grips(w: World, p: nat, q: nat)
  {
    p in w.ops && w.ops[p].Job? && w.ops[p].port == q && q != 0
  }

  /** However SELECT and INSERT interleave: every row that is not stopped has its
      port recorded under itself, so has every running operation, and no port has
      two holders among rows and operations. */
  lemma PortOwnership(events: seq<Event>)
    ensures var w := Run(events);
            && (forall x, q :: Claims(w, x, q) ==> Holds(w, q, x))
            && (forall p, q :: Grips(w, p, q) ==> Holds(w, q, w.ops[p].id))
            && (forall x, y, q :: Claims(w, x, q) && Claims(w, y, q) ==> x == y)
            && (forall x, p, q :: Grips(w, p, q) && Claims(w, x, q) ==> x == w.ops[p].id)
            && (forall p, r, q :: Grips(w, p, q) && Grips(w, r, q) ==> p == r)
            && (forall q :: q in w.ports ==> PORT_LO <= q <= PORT_HI)
  {
    var w := Run(events);
    RunKeeps(events);
    forall x, q | Claims(w, x, q) ensures Holds(w, q, x) {
      assert Local(w, w.rows[x].project);
    }
    forall p, q | Grips(w, p, q)
      ensures Holds(w, q, w.ops[p].id) && w.ops[p].id in w.rows && w.rows[w.ops[p].id].project == p
    {
      assert Local(w, p);
    }
  }

  /** Every allocation belongs to a deployment whose row does not say stopped. */
  ghost predicate Exact(w: World)
  {
    && (forall q :: q in w.ports ==> w.ports[q].Some?)
    && (forall q, x :: Holds(w, q, x) && x in w.rows && w.rows[x].port == q ==> w.rows[x].status != Stopped)
  }

  predicate Gentle(e: Event)
  {
    !e.Stop? && !e.BeginRemove?
  }

  lemma ExactMark(w: World, p: nat, op: Op, x: nat)
    requires AtJob(w, p, op) && op.stage.Draining? && op.stage.at == ToMark
    requires op.stage.todo != [] && op.stage.todo[0] == x
    requires Exact(w) && x in w.rows
    ensures Exact(DrainMark(w, p, op, x))
  {
    Unpack(w, p, op);
    assert x in op.stage.todo && Released(w, x);
    assert forall q :: !Holds(w, q, x);
    assert forall q, y :: Holds(DrainMark(w, p, op, x), q, y) ==> Holds(w, q, y);
  }

  lemma ExactDrain(w: World, p: nat, op: Op, env: Env)
    requires AtJob(w, p, op) && op.stage.Draining? && Exact(w)
    ensures Exact(AdvanceDrain(w, p, op, env))
  {
    Unpack(w, p, op);
    if op.stage.todo != [] && op.stage.at == ToMark && op.stage.todo[0] in w.rows {
      ExactMark(w, p, op, op.stage.todo[0]);
    } else {
      var w' := AdvanceDrain(w, p, op, env);
      assert w'.rows == w.rows;
      assert forall q, y :: Holds(w', q, y) ==> Holds(w, q, y);
    }
  }

  lemma ExactEnd(w: World, p: nat, op: Op, status: Status)
    requires AtJob(w, p, op) && Exact(w) && status != Stopped
    ensures Exact(EndJob(w, p, op, status))
  {
    assert forall q, y :: Holds(EndJob(w, p, op, status), q, y) ==> Holds(w, q, y);
  }

  lemma ExactInsert(w: World, p: nat, op: Op, q: nat)
    requires AtJob(w, p, op) && Exact(w) && q >= PORT_LO
    ensures Exact(InsertPort(w, p, op, q))
  {
    Unpack(w, p, op);
    assert forall r, y :: Holds(InsertPort(w, p, op, q), r, y) ==> Holds(w, r, y) || (r == q && y == op.id);
  }

  lemma ExactJob(w: World, p: nat, op: Op, d: string, env: Env)
    requires AtJob(w, p, op) && Exact(w)
    ensures Exact(AdvanceJob(w, p, op, d, env))
  {
    Unpack(w, p, op);
    match op.stage {
      case Draining(_, _) => ExactDrain(w, p, op, env);
      case Finishing => ExactEnd(w, p, op, Running);
      case Failing => ExactEnd(w, p, op, Failed);
      case Inserting(q) => ExactInsert(w, p, op, q);
      case Unwinding => assert forall q, y :: Holds(Unwind(w, p, op), q, y) ==> Holds(w, q, y);
      case _ =>
        var w' := AdvanceJob(w, p, op, d, env);
        assert w'.rows == w.rows && w'.ports == w.ports;
        assert forall q, y :: Holds(w', q, y) ==> Holds(w, q, y);
    }
  }

  lemma {:induction false} RunIsExact(events: seq<Event>)
    requires forall e :: e in events ==> Gentle(e)
    ensures Exact(Run(events))
  {
    if events != [] {
      var rest, e := events[..|events| - 1], events[|events| - 1];
      RunIsExact(rest);
      RunKeeps(rest);
      NoRemoveNoExposure(rest);
      assert e in events;
      var w := Run(rest);
      assert Run(events) == Next(w, e);
      if e.Advance? && e.project in w.ops && e.project in w.projects {
        ExactJob(w, e.project, w.ops[e.project], w.projects[e.project], e.env);
      } else {
        assert forall q, y :: Holds(Next(w, e), q, y) <==> Holds(w, q, y);
      }
    }
  }

  /** The rows of project `p` that its running operation has drained, or found
      without a container. */
  ghost predicate Cleared(w: World, p: nat)
  {
    p in w.ops && w.ops[p].Job? ==>
      forall x :: Of(w, x, p) && x != w.ops[p].id && Passed(w.ops[p], x) ==>
             w.rows[x].port == 0 || w.rows[x].status == Stopped
  }

  /** The operation is past draining row `x`. */
  predicate Passed(op: Op, x: nat)
    requires op.Job?
  {
    (op.stage.Draining? && x !in op.stage.todo) || (op.stage.Finishing? && op.port != 0)
  }

  lemma ClearedJob(w: World, p: nat, env: Env)
    requires Inv(w) && p in w.ops && w.ops[p].Job? && p in w.projects && Cleared(w, p)
    ensures Cleared(AdvanceJob(w, p, w.ops[p], w.projects[p], env), p)
  {
    var op := w.ops[p];
    Unpack(w, p, op);
    match op.stage {
      case Flipping => ListIsComplete(w.rows, p, w.nextId);
      case Draining(todo, at) => ClearedDrain(w, p, env);
      case _ =>
    }
  }

  lemma ClearedDrain(w: World, p: nat, env: Env)
    requires Inv(w) && p in w.ops && w.ops[p].Job? && w.ops[p].stage.Draining? && Cleared(w, p)
    ensures Cleared(AdvanceDrain(w, p, w.ops[p], env), p)
  {
    var op := w.ops[p];
    Unpack(w, p, op);
    var todo := op.stage.todo;
    if todo != [] {
      assert todo == [todo[0]] + todo[1..];
      assert todo[0] in todo;
      assert forall x :: x in todo ==> x == todo[0] || x in todo[1..];
    }
  }

  lemma NextIsCleared(w: World, e: Event, p: nat)
    requires Inv(w) && Cleared(w, p)
    ensures Cleared(Next(w, e), p)
  {
    if e.project != p {
      OthersCleared(w, e, p);
    } else if e.Advance? && p in w.ops && p in w.projects && w.ops[p].Job? {
      ClearedJob(w, p, e.env);
    }
  }

  lemma {:induction false} RunIsCleared(events: seq<Event>, p: nat)
    ensures Cleared(Run(events), p)
  {
    if events != [] {
      var rest := events[..|events| - 1];
      RunIsCleared(rest, p);
      RunKeeps(rest);
      NextIsCleared(Run(rest), events[|events| - 1], p);
    }
  }

  lemma OthersCleared(w: World, e: Event, p: nat)
    requires Inv(w) && e.project != p && Cleared(w, p)
    ensures Cleared(Next(w, e), p)
  {
    NextKeeps(w, e);
  }

  // ---- the two ways a port is stranded ----

  /** Port `q` is recorded for nobody, or for a stopped row that is not its
      project's latest: the drain passes over it and Remove does not look at it. */
  ghost predicate Stranded(w: World, q: nat)
  {
    q in w.ports &&
      (w.ports[q].Some? ==>
         var x := w.ports[q].value;
         x in w.rows && w.rows[x].status == Stopped && w.rows[x].port == q && !IsLatest(w, x))
  }

  lemma StrandedKept(w: World, w': World, q: nat)
    requires Stranded(w, q) && q in w'.ports && w'.ports[q] == w.ports[q]
    requires w.ports[q].Some? ==> w.ports[q].value in w'.rows && w'.rows[w.ports[q].value] == w.rows[w.ports[q].value]
    requires w.ports[q].Some? ==>
               forall y :: y in w.rows && w.rows[y].project == w.rows[w.ports[q].value].project ==>
                 y in w'.rows && w'.rows[y].project == w.rows[y].project
    ensures Stranded(w', q)
  {
  }

  lemma StrandedDrain(w: World, p: nat, op: Op, env: Env, q: nat)
    requires AtJob(w, p, op) && op.stage.Draining? && Stranded(w, q)
    ensures Stranded(AdvanceDrain(w, p, op, env), q)
  {
    Unpack(w, p, op);
    var todo := op.stage.todo;
    if todo != [] {
      var x := todo[0];
      assert x in todo;
      if op.stage.at == ToRelease {
        assert Owner(w, x);
        assert Holds(w, w.rows[x].port, x);
      }
    }
    StrandedKept(w, AdvanceDrain(w, p, op, env), q);
  }

  lemma StrandedJob(w: World, p: nat, op: Op, d: string, env: Env, q: nat)
    requires AtJob(w, p, op) && Stranded(w, q)
    ensures Stranded(AdvanceJob(w, p, op, d, env), q)
  {
    Unpack(w, p, op);
    match op.stage {
      case Draining(_, _) => StrandedDrain(w, p, op, env, q);
      case Finishing => StrandedKept(w, EndJob(w, p, op, Running), q);
      case Failing => StrandedKept(w, EndJob(w, p, op, Failed), q);
      case Inserting(r) => StrandedKept(w, InsertPort(w, p, op, r), q);
      case Unwinding =>
        assert Holds(w, op.port, op.id);
        StrandedKept(w, Unwind(w, p, op), q);
      case _ =>
        var w' := AdvanceJob(w, p, op, d, env);
        assert w'.rows == w.rows && w'.ports == w.ports;
    }
  }

  lemma StrandedTeardown(w: World, p: nat, d: string, ok: bool, q: nat)
    requires Inv(w) && Stranded(w, q)
    ensures Stranded(FinishTeardown(w, p, d, ok), q)
  {
    if w.ports[q].Some? && w.rows[w.ports[q].value].project != p {
      StrandedKept(w, FinishTeardown(w, p, d, ok), q);
    }
  }

  lemma StrandedStop(w: World, p: nat, ok: bool, q: nat)
    requires Inv(w) && Stranded(w, q)
    ensures Stranded(StopLatest(w, p, ok), q)
  {
    if LatestDeployment(w, p).Some? {
      LatestIsLatest(w, p, LatestDeployment(w, p).value);
    }
    StrandedKept(w, StopLatest(w, p, ok), q);
  }

  lemma StrandedScrap(w: World, p: nat, ok: bool, q: nat)
    requires Inv(w) && Stranded(w, q) && Idle(w, p)
    ensures Stranded(BeginTeardown(w, p, w.projects[p], ok), q)
  {
    if LatestDeployment(w, p).Some? {
      var x := LatestDeployment(w, p).value;
      LatestIsLatest(w, p, x);
      assert Local(w, p);
      assert w.rows[x].port != 0 ==> Owner(w, x) && Holds(w, w.rows[x].port, x);
    }
    StrandedKept(w, BeginTeardown(w, p, w.projects[p], ok), q);
  }

  lemma StrandedNext(w: World, e: Event, q: nat)
    requires Inv(w) && Stranded(w, q)
    ensures Stranded(Next(w, e), q)
  {
    var p := e.project;
    match e {
      case Advance(_, env) =>
        if p in w.ops && p in w.projects && w.ops[p].Job? {
          StrandedJob(w, p, w.ops[p], w.projects[p], env, q);
        } else if p in w.ops && p in w.projects {
          StrandedTeardown(w, p, w.projects[p], env.ok, q);
        }
      case Stop(_, ok) =>
        if Idle(w, p) {
          StrandedStop(w, p, ok, q);
        }
      case BeginRemove(_, ok) =>
        if Idle(w, p) {
          StrandedScrap(w, p, ok, q);
        }
      case _ =>
        StrandedKept(w, Next(w, e), q);
    }
  }

  /** A stranded port stays allocated whatever is done afterwards. */
  lemma {:induction false} StrandedForever(before: seq<Event>, after: seq<Event>, q: nat)
    requires Stranded(Run(before), q)
    ensures Inv(From(Run(before), after)) && Stranded(From(Run(before), after), q)
  {
    if after == [] {
      RunKeeps(before);
    } else {
      var rest := after[..|after| - 1];
      StrandedForever(before, rest, q);
      NextKeeps(From(Run(before), rest), after[|after| - 1]);
      StrandedNext(From(Run(before), rest), after[|after| - 1], q);
    }
  }

  /** Stopping a deployment and deploying the project again strands its port. */
  lemma StopThenDeployStrands(w: World, p: nat, x: nat)
    requires Inv(w) && Idle(w, p) && LatestDeployment(w, p) == Some(x) && x in w.rows && w.rows[x].port != 0
    ensures Stranded(Next(Next(w, Stop(p, true)), BeginDeploy(p)), w.rows[x].port)
  {
    LatestIsLatest(w, p, x);
    assert Local(w, p);
    assert Owner(w, x);
    var w1 := Next(w, Stop(p, true));
    var w2 := Next(w1, BeginDeploy(p));
    assert w1 == StopRow(w, x);
    NotLatest(w2, x, w.nextId);
  }

  /** Remove strands every port of the project but the latest deployment's. */
  lemma RemoveStrands(w: World, p: nat, x: nat, q: nat, ok: bool, env: Env)
    requires Inv(w) && Idle(w, p) && Of(w, x, p) && Holds(w, q, x) && LatestDeployment(w, p) != Some(x)
    ensures Stranded(Next(Next(w, BeginRemove(p, ok)), Advance(p, env)), q)
  {
    var w1 := Next(w, BeginRemove(p, ok));
    NextKeeps(w, BeginRemove(p, ok));
    assert Local(w, p);
    match LatestDeployment(w, p) {
      case None =>
      case Some(y) =>
        LatestIsLatest(w, p, y);
        assert w.rows[y].port != 0 ==> Owner(w, y) && Holds(w, w.rows[y].port, y);
    }
    assert Holds(w1, q, x) && w1.rows == w.rows;
    assert Next(w1, Advance(p, env)).ports[q] == None;
  }

  /** `e` begins an operation over a stopped deployment that still has port `q`. */
  predicate BeginsOver(w: World, e: Event, q: nat)
  {
    && (e.BeginDeploy? || (e.BeginRollback? && Of(w, e.target, e.project) && w.rows[e.target].image.Some?))
    && Idle(w, e.project) && LatestDeployment(w, e.project).Some?
    && var x := LatestDeployment(w, e.project).value;
       x in w.rows && w.rows[x].status == Stopped && w.rows[x].port == q && q != 0
  }

  /** `e` ends the removal of a project one of whose rows still holds port `q`. */
  predicate TearsDownOver(w: World, e: Event, q: nat)
  {
    && e.Advance? && e.project in w.ops && w.ops[e.project].Teardown? && e.project in w.projects
    && q in w.ports && w.ports[q].Some? && Of(w, w.ports[q].value, e.project)
  }

  predicate Strands(w: World, e: Event, q: nat)
  {
    BeginsOver(w, e, q) || TearsDownOver(w, e, q)
  }

  lemma BeginStrands(w: World, p: nat, commit: string, img: nat, stage: Stage, q: nat)
    requires Inv(w) && Idle(w, p) && !Stranded(w, q)
    ensures Stranded(Begin(w, p, commit, img, stage), q) <==>
              LatestDeployment(w, p).Some?
              && var x := LatestDeployment(w, p).value;
                  x in w.rows && w.rows[x].status == Stopped && w.rows[x].port == q && q != 0
  {
    var w' := Begin(w, p, commit, img, stage);
    var latest := LatestDeployment(w, p);
    assert Local(w, p);
    if latest.Some? {
      LatestIsLatest(w, p, latest.value);
      NotLatest(w', latest.value, w.nextId);
      assert w.rows[latest.value].port != 0 ==>
             Owner(w, latest.value) && Holds(w, w.rows[latest.value].port, latest.value);
    }
    assert forall x :: x in w.rows && w.rows[x].project != p && IsLatest(w, x) ==> IsLatest(w', x);
    if Stranded(w', q) {
      var x := w.ports[q].value;
      assert Holds(w, q, x) && IsLatest(w, x);
      if Of(w, x, p) {
        ListIsComplete(w.rows, p, w.nextId);
        assert x in ListDeployments(w, p);
      }
    }
  }

  lemma JobStrandsNothing(w: World, p: nat, op: Op, d: string, env: Env, q: nat)
    requires AtJob(w, p, op) && !Stranded(w, q)
    ensures !Stranded(AdvanceJob(w, p, op, d, env), q)
  {
    Unpack(w, p, op);
    var w' := AdvanceJob(w, p, op, d, env);
    match op.stage {
      case Draining(_, _) => DrainStrandsNothing(w, p, op, env, q);
      case Finishing => EndStrandsNothing(w, p, op, Running, q);
      case Failing => EndStrandsNothing(w, p, op, Failed, q);
      case Inserting(r) =>
        assert w'.rows == w.rows;
        assert IsLatest(w', op.id) && (q in w.ports ==> q in w'.ports && w'.ports[q] == w.ports[q]);
      case _ =>
        assert w'.rows == w.rows && forall r :: r in w'.ports ==> r in w.ports && w'.ports[r] == w.ports[r];
    }
  }

  lemma DrainStrandsNothing(w: World, p: nat, op: Op, env: Env, q: nat)
    requires AtJob(w, p, op) && op.stage.Draining? && !Stranded(w, q)
    ensures !Stranded(AdvanceDrain(w, p, op, env), q)
  {
    Unpack(w, p, op);
    var w' := AdvanceDrain(w, p, op, env);
    assert forall r :: r in w'.ports ==> r in w.ports && w'.ports[r] == w.ports[r];
    if op.stage.todo != [] && op.stage.at == ToMark {
      var x := op.stage.todo[0];
      assert x in op.stage.todo && Released(w, x);
      SameLatest(w, w', x);
      assert forall r :: !Holds(w, r, x);
      assert Stranded(w', q) && w.ports[q].Some? ==> Holds(w, q, w.ports[q].value);
    } else {
      assert w'.rows == w.rows;
    }
  }

  lemma EndStrandsNothing(w: World, p: nat, op: Op, status: Status, q: nat)
    requires AtJob(w, p, op) && status != Stopped && !Stranded(w, q)
    ensures !Stranded(EndJob(w, p, op, status), q)
  {
    Unpack(w, p, op);
    SameLatest(w, EndJob(w, p, op, status), op.id);
  }

  lemma StopStrandsNothing(w: World, p: nat, ok: bool, q: nat)
    requires Inv(w) && Idle(w, p) && !Stranded(w, q)
    ensures !Stranded(StopLatest(w, p, ok), q)
  {
    if LatestDeployment(w, p).Some? {
      var x := LatestDeployment(w, p).value;
      LatestIsLatest(w, p, x);
      SameLatest(w, StopRow(w, x), x);
    }
  }

  lemma TeardownStrands(w: World, p: nat, d: string, ok: bool, q: nat)
    requires Inv(w) && !Stranded(w, q) && p in w.projects
    ensures Stranded(FinishTeardown(w, p, d, ok), q) <==> q in w.ports && w.ports[q].Some? && Of(w, w.ports[q].value, p)
  {
    var w' := FinishTeardown(w, p, d, ok);
    if q in w.ports && w.ports[q].Some? && !Of(w, w.ports[q].value, p) {
      var x := w.ports[q].value;
      assert Holds(w, q, x) && x in w'.rows && w'.rows[x] == w.rows[x];
      assert forall y :: y in w.rows && w.rows[y].project == w.rows[x].project ==>
             y in w'.rows && w'.rows[y] == w.rows[y];
      assert IsLatest(w', x) ==> IsLatest(w, x);
      assert IsLatest(w, x) ==> IsLatest(w', x);
    }
  }

  /** A step strands a port exactly if it begins an operation over it or ends a
      removal over it; what the caller can see beforehand decides. */
  lemma StrandsExactly(w: World, e: Event, q: nat)
    requires Inv(w) && !Stranded(w, q)
    ensures Stranded(Next(w, e), q) <==> Strands(w, e, q)
  {
    var p := e.project;
    match e {
      case BeginDeploy(_) =>
        if Idle(w, p) {
          BeginStrands(w, p, "", 0, Syncing, q);
        }
      case BeginRollback(_, t) =>
        if Idle(w, p) && Of(w, t, p) && w.rows[t].image.Some? {
          BeginStrands(w, p, w.rows[t].commit, w.rows[t].image.value, Selecting(PORT_LO), q);
        }
      case Stop(_, ok) =>
        if Idle(w, p) {
          StopStrandsNothing(w, p, ok, q);
        }
      case BeginRemove(_, ok) =>
        var w' := Next(w, e);
        assert w'.rows == w.rows && forall r :: r in w'.ports ==> r in w.ports && w'.ports[r] == w.ports[r];
      case Advance(_, env) =>
        if p in w.ops && p in w.projects {
          if w.ops[p].Teardown? {
            TeardownStrands(w, p, w.projects[p], env.ok, q);
          } else {
            JobStrandsNothing(w, p, w.ops[p], w.projects[p], env, q);
          }
        }
      case Create(_, _) =>
    }
  }

  /** Step `i` of the run loses port `q`. */
  predicate StrandsAt(events: seq<Event>, i: nat, q: nat)
  {
    i < |events| && Strands(Run(events[..i]), events[i], q)
  }

  ghost predicate StrandedBy(events: seq<Event>, q: nat)
  {
    exists i :: StrandsAt(events, i, q)
  }

  lemma StrandsAtPrefix(events: seq<Event>, n: nat, i: nat, q: nat)
    requires i < n <= |events|
    ensures StrandsAt(events[..n], i, q) <==> StrandsAt(events, i, q)
  {
    assert events[..n][..i] == events[..i];
  }

  lemma StrandedByPart(events: seq<Event>, n: nat, q: nat)
    requires n <= |events| && StrandedBy(events[..n], q)
    ensures StrandedBy(events, q)
  {
    var i: nat :| StrandsAt(events[..n], i, q);
    StrandsAtPrefix(events, n, i, q);
  }

  lemma StrandedEarlier(events: seq<Event>, i: nat, q: nat)
    requires StrandsAt(events, i, q) && i + 1 < |events|
    ensures StrandedBy(events[..|events| - 1], q)
  {
    StrandsAtPrefix(events, |events| - 1, i, q);
  }

  lemma StrandedByLast(events: seq<Event>, q: nat)
    requires events != []
    ensures var n := |events| - 1; StrandedBy(events, q) <==> StrandedBy(events[..n], q) || StrandsAt(events, n, q)
  {
    var n := |events| - 1;
    if StrandedBy(events[..n], q) {
      StrandedByPart(events, n, q);
    }
    if i: nat :| StrandsAt(events, i, q) && i != n {
      StrandedEarlier(events, i, q);
    }
  }

  /** So at the end of a run a port is stranded exactly if some step of it did that. */
  lemma {:induction false} StrandedExactly(events: seq<Event>, q: nat)
    ensures Stranded(Run(events), q) <==> StrandedBy(events, q)
  {
    if events != [] {
      var n := |events| - 1;
      StrandedExactly(events[..n], q);
      StrandedByLast(events, q);
      RunKeeps(events[..n]);
      if Stranded(Run(events[..n]), q) {
        StrandedNext(Run(events[..n]), events[n], q);
      } else {
        StrandsExactly(Run(events[..n]), events[n], q);
      }
    }
  }

  lemma RunsOn(before: seq<Event>, e: Event)
    ensures Run(before + [e]) == Next(Run(before), e)
  {
    assert (before + [e])[..|before|] == before;
  }

  /** A deployment of project 1 up to the container that starts on port 8300 and
      does not answer; it is stopped by hand, and the project is deployed again. */
  const LossyRun: seq<Event> := [
    Create(1, "a"), BeginDeploy(1),
    Advance(1, Env(true, false, "c")), Advance(1, Env(true, false, "")), Advance(1, Env(true, false, "")),
    Advance(1, Env(true, false, "")), Advance(1, Env(true, false, "")), Advance(1, Env(false, false, "")),
    Advance(1, Env(true, false, "")), Stop(1, true), BeginDeploy(1)]

  const NewRow := Row(1, Building, None, false, 0, "")
  const BuiltRow := NewRow.(commit := "c", image := Some(1))

  /** Project 1 is at its first operation, and nothing else has happened. */
  ghost predicate FirstOp(w: World, op: Op, ports: map<nat, Option<nat>>)
  {
    w.projects == map[1 := "a"] && w.rows == map[1 := NewRow] && w.nextId == 2 && w.ops == map[1 := op] &&
        w.ports == ports
  }

  lemma LossyStart()
    ensures FirstOp(Run(LossyRun[..2]), Job(1, NewRow, 0, 0, Syncing), map[])
  {
    assert LossyRun[..0] == [] && LossyRun[..1] == LossyRun[..0] + [Create(1, "a")];
    RunsOn(LossyRun[..0], Create(1, "a"));
    assert LossyRun[..2] == LossyRun[..1] + [BeginDeploy(1)];
    RunsOn(LossyRun[..1], BeginDeploy(1));
  }

  lemma LossyBuild(w: World)
    requires FirstOp(w, Job(1, NewRow, 0, 0, Syncing), map[])
    ensures FirstOp(Next(Next(w, Advance(1, Env(true, false, "c"))), Advance(1, Env(true, false, ""))),
            Job(1, BuiltRow, 1, 0, Selecting(PORT_LO)), map[])
  {
    var w1 := Next(w, Advance(1, Env(true, false, "c")));
    assert FirstOp(w1, Job(1, NewRow.(commit := "c"), 0, 0, Compiling), map[]);
  }

  lemma LossyPort(w: World)
    requires FirstOp(w, Job(1, BuiltRow, 1, 0, Selecting(PORT_LO)), map[])
    ensures var e := Advance(1, Env(true, false, ""));
            FirstOp(Next(Next(w, e), e), Job(1, BuiltRow, 1, PORT_LO, Starting), map[PORT_LO := Some(1)])
  {
    var w1 := Next(w, Advance(1, Env(true, false, "")));
    assert FirstOp(w1, Job(1, BuiltRow, 1, 0, Inserting(PORT_LO)), map[]);
  }

  lemma LossyProbe(w: World)
    requires FirstOp(w, Job(1, BuiltRow, 1, PORT_LO, Starting), map[PORT_LO := Some(1)])
    ensures var yes, no := Advance(1, Env(true, false, "")), Advance(1, Env(false, false, ""));
            var w' := Next(Next(Next(w, yes), no), yes);
            Idle(w', 1) && w'.rows == map[1 := BuiltRow.(status := Failed, container := true, port := PORT_LO)] &&
                w'.nextId == 2
  {
    var w1 := Next(w, Advance(1, Env(true, false, "")));
    assert FirstOp(w1, Job(1, BuiltRow.(container := true, port := PORT_LO), 1, PORT_LO, Probing), w.ports);
    var w2 := Next(w1, Advance(1, Env(false, false, "")));
    assert FirstOp(w2, Job(1, BuiltRow.(container := true, port := PORT_LO), 1, PORT_LO, Failing), w.ports);
  }

  lemma TwoMore(n: nat)
    requires n + 2 <= |LossyRun|
    ensures Run(LossyRun[..n + 2]) == Next(Next(Run(LossyRun[..n]), LossyRun[n]), LossyRun[n + 1])
  {
    assert LossyRun[..n + 1] == LossyRun[..n] + [LossyRun[n]];
    assert LossyRun[..n + 2] == LossyRun[..n + 1] + [LossyRun[n + 1]];
    RunsOn(LossyRun[..n], LossyRun[n]);
    RunsOn(LossyRun[..n + 1], LossyRun[n + 1]);
  }

  /** The first nine of those steps leave the failed deployment its port. */
  lemma FailureKeepsPort()
    ensures var w := Run(LossyRun[..9]);
            Idle(w, 1) && w.rows == map[1 := BuiltRow.(status := Failed, container := true, port := PORT_LO)] &&
                w.nextId == 2
  {
    LossyStart();
    TwoMore(2);
    LossyBuild(Run(LossyRun[..2]));
    TwoMore(4);
    LossyPort(Run(LossyRun[..4]));
    TwoMore(6);
    assert LossyRun[..9] == LossyRun[..8] + [LossyRun[8]];
    RunsOn(LossyRun[..8], LossyRun[8]);
    LossyProbe(Run(LossyRun[..6]));
  }

  /** From nothing to a stranded port. */
  lemma APortIsLost()
    ensures Stranded(Run(LossyRun), 8300)
  {
    FailureKeepsPort();
    var w := Run(LossyRun[..9]);
    RunKeeps(LossyRun[..9]);
    ListIsComplete(w.rows, 1, 2);
    assert 1 in ListDeployments(w, 1);
    StopThenDeployStrands(w, 1, 1);
    TwoMore(9);
    assert LossyRun[..11] == LossyRun;
  }

  // ---- who has a port, in any run ----

  /** Row `x` of project `p` has port `q` and is no longer answered for. */
  ghost predicate StrandedUnder(w: World, q: nat, p: nat)
  {
    Stranded(w, q) && w.ports[q].Some? && Of(w, w.ports[q].value, p)
  }

  /** Row `x` has port `q` and is not stopped, or is its project's latest. */
  ghost predicate Has(w: World, x: nat, q: nat)
  {
    x in w.rows && w.rows[x].port == q && q != 0 && (w.rows[x].status != Stopped || IsLatest(w, x))
  }

  /** Row `x` of a project under removal still has port `q`. */
  ghost predicate TornHolds(w: World, x: nat, q: nat)
  {
    x in w.rows && w.rows[x].port == q && Torn(w, x) && Holds(w, q, x)
  }

  /** At any moment a port is allocated exactly if a row owns it, a running operation
      holds it, a row under removal still has it, or it is stranded. */
  lemma AtAnyMoment(events: seq<Event>, q: nat)
    ensures var w := Run(events);
            q in w.ports <==>
              || (exists x :: x in w.rows && w.rows[x].port == q && Owner(w, x))
              || (exists p :: Grips(w, p, q))
              || (exists x :: TornHolds(w, x, q))
              || Stranded(w, q)
  {
    var w := Run(events);
    RunKeeps(events);
    if q in w.ports && w.ports[q].Some? {
      var x := w.ports[q].value;
      assert Holds(w, q, x);
      assert Local(w, w.rows[x].project);
      assert InHand(w, q, x) ==> Grips(w, w.rows[x].project, q);
      assert w.rows[x].port == q ==> Owner(w, x) || TornHolds(w, x, q) || Stranded(w, q);
    }
    if x :| x in w.rows && w.rows[x].port == q && Owner(w, x) {
      assert Local(w, w.rows[x].project) && Holds(w, q, x);
    }
    if p :| Grips(w, p, q) {
      assert Local(w, p) && Holds(w, q, w.ops[p].id);
    }
  }

  /** A project without a running operation has exactly the ports of its rows that
      are not stopped, that of its latest, and those stranded under it, whatever the
      other projects are at. */
  lemma ProjectAtRest(events: seq<Event>, p: nat, q: nat)
    requires p !in Run(events).ops
    ensures var w := Run(events);
            (exists x :: Of(w, x, p) && Holds(w, q, x)) <==>
                (exists x :: Of(w, x, p) && Has(w, x, q)) || StrandedUnder(w, q, p)
  {
    var w := Run(events);
    RunKeeps(events);
    assert Local(w, p);
    if x :| Of(w, x, p) && Holds(w, q, x) {
      assert w.rows[x].port == q && (Has(w, x, q) || StrandedUnder(w, q, p));
    }
    if x :| Of(w, x, p) && Has(w, x, q) {
      assert Owner(w, x) && Holds(w, q, x);
    }
    if StrandedUnder(w, q, p) {
      assert Holds(w, q, w.ports[q].value);
    }
  }

  /** Between operations a port is allocated exactly if a row that is not stopped,
      or is its project's latest, has it, or it is stranded. */
  lemma AtRest(events: seq<Event>, q: nat)
    requires Run(events).ops == map[]
    ensures q in Run(events).ports <==> (exists x :: Has(Run(events), x, q)) || Stranded(Run(events), q)
  {
    var w := Run(events);
    AtAnyMoment(events, q);
    RunKeeps(events);
    if x :| x in w.rows && w.rows[x].port == q && Owner(w, x) {
      assert Has(w, x, q);
    }
    if x :| Has(w, x, q) {
      assert Owner(w, x);
    }
  }

  /** Without Stop and Remove, at any moment, the allocated ports are those of the
      rows that are not stopped and those running operations hold. */
  lemma ExactAtAnyMoment(events: seq<Event>, q: nat)
    requires forall e :: e in events ==> Gentle(e)
    ensures var w := Run(events); q in w.ports <==> (exists x :: Claims(w, x, q)) || (exists p :: Grips(w, p, q))
  {
    var w := Run(events);
    RunIsExact(events);
    PortOwnership(events);
    NoRemoveNoExposure(events);
    AtAnyMoment(events, q);
    RunKeeps(events);
    if x :| x in w.rows && w.rows[x].port == q && Owner(w, x) {
      assert Local(w, w.rows[x].project);
      assert Holds(w, q, x) && Claims(w, x, q);
    }
    assert Stranded(w, q) ==> Holds(w, q, w.ports[q].value);
  }

  /** In particular, once no operation is under way, those of the rows that are not
      stopped. */
  lemma ExactAtRest(events: seq<Event>, q: nat)
    requires (forall e :: e in events ==> Gentle(e)) && Run(events).ops == map[]
    ensures q in Run(events).ports <==> exists x :: Claims(Run(events), x, q)
  {
    ExactAtAnyMoment(events, q);
  }

  /** When a container deploy or rollback succeeds, its project is left with the
      port its route was given, and otherwise only with ports that are stranded. */
  lemma SuccessLeaves(events: seq<Event>, p: nat, env: Env, q: nat)
    requires var w := Run(events);
             p in w.ops && w.ops[p].Job? && w.ops[p].stage.Finishing? && w.ops[p].port != 0
    ensures var w, w' := Run(events), Run(events + [Advance(p, env)]);
            && Of(w', w.ops[p].id, p) && w'.rows[w.ops[p].id].status == Running &&
                w'.rows[w.ops[p].id].port == w.ops[p].port
            && ((exists x :: Of(w', x, p) && Holds(w', q, x)) <==> q == w.ops[p].port || StrandedUnder(w', q, p))
            && !Stranded(w', w.ops[p].port)
  {
    var w, last := Run(events), Advance(p, env);
    var all := events + [last];
    assert all[..|all| - 1] == events;
    var op := w.ops[p];
    RunKeeps(events);
    Unpack(w, p, op);
    RunIsCleared(events, p);
    var w' := Next(w, last);
    assert Run(all) == w' == EndJob(w, p, op, Running);
    RunKeeps(all);
    assert Local(w', p);
    assert Holds(w', op.port, op.id) && Of(w', op.id, p);
    SameLatest(w, w', op.id);
    forall x, r | Of(w', x, p) && Holds(w', r, x) && x != op.id ensures StrandedUnder(w', r, p) {
      assert w'.rows[x].port == r && !IsLatest(w, x);
      assert Of(w, x, p) && Passed(op, x);
    }
  }

  /** Without Stop and Remove nothing is stranded, and one port is left. */
  lemma SuccessLeavesOnePort(events: seq<Event>, p: nat, env: Env, q: nat)
    requires forall e :: e in events ==> Gentle(e)
    requires var w := Run(events);
             p in w.ops && w.ops[p].Job? && w.ops[p].stage.Finishing? && w.ops[p].port != 0
    ensures var w, w' := Run(events), Run(events + [Advance(p, env)]);
            (exists x :: Of(w', x, p) && Holds(w', q, x)) <==> q == w.ops[p].port
  {
    var all := events + [Advance(p, env)];
    SuccessLeaves(events, p, env, q);
    RunIsExact(all);
    assert StrandedUnder(Run(all), q, p) ==> Holds(Run(all), q, Run(all).ports[q].value);
  }

  // ---- where images come from ----

  /** Image `b` came from a successful build of deployment `b` of project `p` at
      commit `c`, no later than deployment `x`. */
  ghost predicate Origin(w: World, b: nat, p: nat, c: string, x: nat)
  {
    b in w.built && w.built[b] == (p, c) && b <= x
  }

  ghost predicate OpOrigin(w: World, p: nat, op: Op)
    requires op.Job?
  {
    && (op.rec.image.Some? ==> Origin(w, op.rec.image.value, p, op.rec.commit, op.id))
    && (op.stage.Selecting? || op.stage.Inserting? || op.stage.Starting? ==> Origin(w, op.img, p, op.rec.commit, op.id))
    && (op.stage.Syncing? || op.stage.SavingStatic? || op.stage.Compiling? ==> op.id !in w.built && op.rec.image.None?)
  }

  /** Every image named by a row or a running operation of `p` has its origin. */
  ghost predicate Traced(w: World, p: nat)
  {
    && (forall x :: Of(w, x, p) && w.rows[x].image.Some? ==> Origin(w, w.rows[x].image.value, p, w.rows[x].commit, x))
    && (p in w.ops && w.ops[p].Job? ==> OpOrigin(w, p, w.ops[p]))
  }

  ghost predicate AllTraced(w: World)
  {
    (forall b :: b in w.built ==> b < w.nextId) && forall p :: Traced(w, p)
  }

  /** Another project's step adds at most the build of its own deployment. */
  lemma OthersTraced(w: World, w': World, p: nat, r: nat)
    requires Traced(w, r) && r != p && Frame(w, w', p) && OpOK(w, r)
    requires forall b :: b in w.built ==> b in w'.built && w'.built[b] == w.built[b]
    requires forall b :: b in w'.built && b !in w.built ==> Of(w, b, p)
    ensures Traced(w', r)
  {
    assert forall x :: Of(w', x, r) ==> Of(w, x, r);
  }

  /** The job of `p` moves on and builds nothing. */
  lemma TracedMove(w: World, w': World, p: nat, op': Op)
    requires Traced(w, p) && w'.built == w.built && op'.Job? && OpOrigin(w, p, op')
    requires p in w'.ops && w'.ops[p] == op'
    requires forall x :: Of(w', x, p) ==>
             Of(w, x, p) && w'.rows[x].image == w.rows[x].image && w'.rows[x].commit == w.rows[x].commit
    ensures Traced(w', p)
  {
  }

  lemma TracedDrain(w: World, p: nat, op: Op, env: Env)
    requires AtJob(w, p, op) && Traced(w, p) && op.stage.Draining?
    ensures AdvanceDrain(w, p, op, env).built == w.built && Traced(AdvanceDrain(w, p, op, env), p)
  {
    var todo := op.stage.todo;
    if todo == [] {
      TracedMove(w, SetOp(w, p, op.(stage := Finishing)), p, op.(stage := Finishing));
    } else if todo[0] !in w.rows || (op.stage.at == ToRemove && Skips(w, op.id, todo[0])) {
      var op' := op.(stage := Draining(todo[1..], ToRemove));
      TracedMove(w, SetOp(w, p, op'), p, op');
    } else {
      match op.stage.at {
        case ToRemove =>
          TracedMove(w, DrainRemove(w, p, op, todo[0], env.ok), p, op.(stage := Draining(todo, ToRelease)));
        case ToRelease =>
          TracedMove(w, DrainRelease(w, p, op, todo[0]), p, op.(stage := Draining(todo, ToMark)));
        case ToMark =>
          TracedMove(w, DrainMark(w, p, op, todo[0]), p, op.(stage := Draining(todo[1..], ToRemove)));
      }
    }
  }

  lemma TracedEnd(w: World, p: nat, op: Op, status: Status)
    requires AtJob(w, p, op) && Traced(w, p)
    ensures Traced(EndJob(w, p, op, status), p)
  {
    Unpack(w, p, op);
    assert forall x :: Of(EndJob(w, p, op, status), x, p) ==> Of(w, x, p);
  }

  lemma TracedCompile(w: World, p: nat, op: Op)
    requires AtJob(w, p, op) && Traced(w, p) && op.stage.Compiling?
    ensures op.id !in w.built && Traced(Compile(w, p, op), p)
  {
    Unpack(w, p, op);
    assert forall x :: Of(Compile(w, p, op), x, p) <==> Of(w, x, p);
  }

  lemma TracedStart(w: World, p: nat, op: Op, d: string, env: Env)
    requires AtJob(w, p, op) && Traced(w, p)
    requires op.stage.Syncing? || op.stage.SavingStatic? || (op.stage.Compiling? && !env.ok) || op.stage.Selecting?
    ensures AdvanceJob(w, p, op, d, env).built == w.built && Traced(AdvanceJob(w, p, op, d, env), p)
  {
    Unpack(w, p, op);
    var w' := AdvanceJob(w, p, op, d, env);
    TracedMove(w, w', p, w'.ops[p]);
  }

  lemma TracedMiddle(w: World, p: nat, op: Op, d: string, env: Env)
    requires AtJob(w, p, op) && Traced(w, p)
    requires op.stage.Inserting? || op.stage.Starting?
    ensures AdvanceJob(w, p, op, d, env).built == w.built && Traced(AdvanceJob(w, p, op, d, env), p)
  {
    Unpack(w, p, op);
    var w' := AdvanceJob(w, p, op, d, env);
    TracedMove(w, w', p, w'.ops[p]);
  }

  lemma TracedLate(w: World, p: nat, op: Op, d: string, env: Env)
    requires AtJob(w, p, op) && Traced(w, p)
    requires op.stage.Unwinding? || op.stage.Probing? || op.stage.Flipping?
    ensures AdvanceJob(w, p, op, d, env).built == w.built && Traced(AdvanceJob(w, p, op, d, env), p)
  {
    Unpack(w, p, op);
    var w' := AdvanceJob(w, p, op, d, env);
    TracedMove(w, w', p, w'.ops[p]);
  }

  lemma TracedUnfinished(w: World, p: nat, op: Op, d: string, env: Env)
    requires AtJob(w, p, op) && Traced(w, p) && !op.stage.Draining? && !op.stage.Finishing? && !op.stage.Failing?
    requires op.stage.Compiling? ==> !env.ok
    ensures AdvanceJob(w, p, op, d, env).built == w.built && Traced(AdvanceJob(w, p, op, d, env), p)
  {
    match op.stage {
      case Inserting(_) => TracedMiddle(w, p, op, d, env);
      case Starting => TracedMiddle(w, p, op, d, env);
      case Unwinding => TracedLate(w, p, op, d, env);
      case Probing => TracedLate(w, p, op, d, env);
      case Flipping => TracedLate(w, p, op, d, env);
      case _ => TracedStart(w, p, op, d, env);
    }
  }

  lemma TracedJob(w: World, p: nat, op: Op, d: string, env: Env)
    requires AtJob(w, p, op) && Traced(w, p)
    ensures var w' := AdvanceJob(w, p, op, d, env);
            && (w'.built == w.built || (w'.built == w.built[op.id := (p, op.rec.commit)] && op.id !in w.built))
            && Traced(w', p)
  {
    match op.stage {
      case Draining(_, _) => TracedDrain(w, p, op, env);
      case Finishing => TracedEnd(w, p, op, Running);
      case Failing => TracedEnd(w, p, op, Failed);
      case _ =>
        if op.stage.Compiling? && env.ok {
          TracedCompile(w, p, op);
        } else {
          TracedUnfinished(w, p, op, d, env);
        }
    }
  }

  ghost predicate BuiltGrows(w: World, w': World, p: nat)
  {
    && w'.nextId >= w.nextId
    && (forall b :: b in w.built ==> b in w'.built && w'.built[b] == w.built[b])
    && (forall b :: b in w'.built && b !in w.built ==> Of(w, b, p))
  }

  lemma TracedAdvance(w: World, p: nat, env: Env)
    requires Inv(w) && Traced(w, p) && p in w.ops && p in w.projects && w.ops[p].Job?
    ensures var w' := Next(w, Advance(p, env)); Traced(w', p) && BuiltGrows(w, w', p)
  {
    Unpack(w, p, w.ops[p]);
    TracedJob(w, p, w.ops[p], w.projects[p], env);
    NextKeeps(w, Advance(p, env));
    assert Next(w, Advance(p, env)) == AdvanceJob(w, p, w.ops[p], w.projects[p], env);
  }

  /** A deployment begins without an image, a rollback with one traced already. */
  lemma TracedBegin(w: World, p: nat, commit: string, img: nat, stage: Stage)
    requires Inv(w) && AllTraced(w) && Idle(w, p)
    requires stage.Syncing? || (stage == Selecting(PORT_LO) && Origin(w, img, p, commit, w.nextId))
    ensures Traced(Begin(w, p, commit, img, stage), p) && BuiltGrows(w, Begin(w, p, commit, img, stage), p)
  {
    assert Traced(w, p);
    assert forall x :: Of(Begin(w, p, commit, img, stage), x, p) ==> Of(w, x, p) || x == w.nextId;
  }

  lemma TracedStop(w: World, p: nat, ok: bool)
    requires Inv(w) && Traced(w, p)
    ensures Traced(StopLatest(w, p, ok), p) && BuiltGrows(w, StopLatest(w, p, ok), p)
  {
  }

  lemma TracedScrap(w: World, p: nat, ok: bool)
    requires Inv(w) && Traced(w, p) && Idle(w, p)
    ensures var w' := BeginTeardown(w, p, w.projects[p], ok); Traced(w', p) && BuiltGrows(w, w', p)
  {
    assert BeginTeardown(w, p, w.projects[p], ok).rows == w.rows;
  }

  lemma TracedTeardown(w: World, p: nat, d: string, ok: bool)
    requires Inv(w) && Traced(w, p)
    ensures Traced(FinishTeardown(w, p, d, ok), p) && BuiltGrows(w, FinishTeardown(w, p, d, ok), p)
  {
  }

  lemma TracedOther(w: World, e: Event)
    requires Inv(w) && Traced(w, e.project) && !e.BeginDeploy? && !e.BeginRollback?
    requires e.Advance? && e.project in w.ops && e.project in w.projects ==> w.ops[e.project].Teardown?
    ensures Traced(Next(w, e), e.project) && BuiltGrows(w, Next(w, e), e.project)
  {
    match e {
      case BeginRemove(p, ok) =>
        if Idle(w, p) {
          TracedScrap(w, p, ok);
        }
      case Stop(p, ok) => TracedStop(w, p, ok);
      case Advance(p, env) =>
        if p in w.ops && p in w.projects {
          TracedTeardown(w, p, w.projects[p], env.ok);
        }
      case _ =>
    }
  }

  lemma TracedOwn(w: World, e: Event)
    requires Inv(w) && AllTraced(w)
    ensures Traced(Next(w, e), e.project) && BuiltGrows(w, Next(w, e), e.project)
  {
    var p := e.project;
    assert Traced(w, p);
    match e {
      case Advance(_, env) =>
        if p in w.ops && p in w.projects && w.ops[p].Job? {
          TracedAdvance(w, p, env);
        } else {
          TracedOther(w, e);
        }
      case BeginDeploy(_) =>
        if Idle(w, p) {
          TracedBegin(w, p, "", 0, Syncing);
        }
      case BeginRollback(_, t) =>
        if Idle(w, p) && Of(w, t, p) && w.rows[t].image.Some? {
          TracedBegin(w, p, w.rows[t].commit, w.rows[t].image.value, Selecting(PORT_LO));
        }
      case _ => TracedOther(w, e);
    }
  }

  lemma TracedNext(w: World, e: Event)
    requires Inv(w) && AllTraced(w)
    ensures AllTraced(Next(w, e))
  {
    var p, w' := e.project, Next(w, e);
    NextKeeps(w, e);
    TracedOwn(w, e);
    forall r ensures Traced(w', r) {
      assert Traced(w, r) && Local(w, r);
      if r != p {
        OthersTraced(w, w', p, r);
      }
    }
  }

  /** Over any run of deploys and repeated rollbacks, every image named by a row
      comes from a successful build of the same project, of this deployment or an
      earlier one, and rows that share an image share its commit. */
  lemma RollbackProvenance(events: seq<Event>)
    ensures var w := Run(events);
            && (forall x :: x in w.rows && w.rows[x].image.Some? ==>
                  Origin(w, w.rows[x].image.value, w.rows[x].project, w.rows[x].commit, x))
            && (forall x, y | x in w.rows && y in w.rows ::
                  w.rows[x].image.Some? && w.rows[x].image == w.rows[y].image ==>
                    w.rows[x].commit == w.rows[y].commit && w.rows[x].project == w.rows[y].project)
  {
    RunIsTraced(events);
    var w := Run(events);
    forall x | x in w.rows && w.rows[x].image.Some?
      ensures Origin(w, w.rows[x].image.value, w.rows[x].project, w.rows[x].commit, x)
    {
      assert Traced(w, w.rows[x].project);
    }
  }

  lemma {:induction false} RunIsTraced(events: seq<Event>)
    ensures AllTraced(Run(events))
  {
    if events != [] {
      RunIsTraced(events[..|events| - 1]);
      RunKeeps(events[..|events| - 1]);
      TracedNext(Run(events[..|events| - 1]), events[|events| - 1]);
    }
  }
}
