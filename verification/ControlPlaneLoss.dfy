/** Which ports can never be freed again, whatever is done afterwards. */
module ControlPlaneLoss {
  import opened Options
  import opened ControlPlane
  import opened ControlPlaneSafety
  import opened ControlPlaneResults

  /** Allocated now and after every continuation. */
  ghost predicate Lost(w: World, q: nat)
  {
    q in w.ports && forall after :: q in From(w, after).ports
  }

  // ---- the condition ----

  predicate AnyFree(w: World)
  {
    exists r :: PORT_LO <= r <= PORT_HI && r !in w.ports
  }

  predicate TearingDown(w: World, p: nat)
  {
    p in w.ops && w.ops[p].Teardown?
  }

  /** The owner of the port belongs to a project that is being removed. */
  predicate TornOwner(w: World, q: nat)
  {
    q in w.ports && w.ports[q].Some? && w.ports[q].value in w.rows && TearingDown(w, w.rows[w.ports[q].value].project)
  }

  /** The operation has a port, and will drain row `x` if all goes well. */
  predicate WillDrain(op: Op, x: nat)
  {
    op.Job? && (op.stage.Starting? || op.stage.Unwinding? || op.stage.Probing? || op.stage.Flipping?
                || (op.stage.Draining? && x in op.stage.todo))
  }

  /** The project could give a port back without getting another one first: its
      latest deployment has one, or its operation holds one. */
  ghost predicate CanGive(w: World, r: nat)
  {
    && r in w.projects && !TearingDown(w, r)
    && ((exists y :: Of(w, y, r) && IsLatest(w, y) && w.rows[y].port != 0) ||
        (r in w.ops && w.ops[r].Job? && w.ops[r].port != 0))
  }

  /** Row `x` has port `q`, is neither stopped nor its project's latest, and the
      project stays: only a drain can free the port. */
  ghost predicate NeedsDrain(w: World, p: nat, x: nat, q: nat)
  {
    && Holds(w, q, x) && Of(w, x, p) && w.rows[x].port == q && q != 0
    && w.rows[x].status != Stopped && !IsLatest(w, x) && p in w.projects && !TearingDown(w, p)
  }

  /** A drain needs a port for the new container, and there is none to be had: none
      is free, the project's own operation has none, and no other project could
      give one back. */
  ghost predicate Starved(w: World, p: nat, x: nat)
  {
    && !AnyFree(w)
    && (p in w.ops ==> !WillDrain(w.ops[p], x))
    && (forall r :: r != p ==> !CanGive(w, r))
  }

  ghost predicate Wedged(w: World, q: nat)
  {
    && q in w.ports && w.ports[q].Some? && w.ports[q].value in w.rows
    && var x := w.ports[q].value;
       NeedsDrain(w, w.rows[x].project, x, q) && Starved(w, w.rows[x].project, x)
  }

  /** What can be seen of a lost port in the state itself. */
  ghost predicate Doomed(w: World, q: nat)
  {
    Stranded(w, q) || TornOwner(w, q) || Wedged(w, q)
  }

  // ---- what every state keeps ----

  ghost predicate Good(w: World)
  {
    Inv(w) && forall p :: Cleared(w, p)
  }

  lemma RunIsGood(events: seq<Event>)
    ensures Good(Run(events))
  {
    RunKeeps(events);
    forall p ensures Cleared(Run(events), p) {
      RunIsCleared(events, p);
    }
  }

  lemma NextIsGood(w: World, e: Event)
    requires Good(w)
    ensures Good(Next(w, e))
  {
    NextKeeps(w, e);
    forall p ensures Cleared(Next(w, e), p) {
      assert Cleared(w, p);
      NextIsCleared(w, e, p);
    }
  }

  /** A row that only a drain frees is still to be drained. */
  lemma StillToDrain(w: World, p: nat, x: nat, q: nat)
    requires Good(w) && NeedsDrain(w, p, x, q) && p in w.ops
    ensures w.ops[p].Job? && x != w.ops[p].id
    ensures w.ops[p].stage.Draining? ==> x in w.ops[p].stage.todo
    ensures w.ops[p].stage.Finishing? ==> w.ops[p].port == 0
  {
    assert Local(w, p);
    assert Cleared(w, p);
  }

  // ---- a doomed port stays doomed ----

  /** A stage in which a running operation neither has a port nor drains, or is about
      to end. */
  predicate Portless(stage: Stage)
  {
    stage.Syncing? || stage.SavingStatic? || stage.Compiling? || stage.Selecting? || stage.Inserting? ||
        stage.Finishing? || stage.Failing?
  }

  /** The operation moved on, or wrote its row and ended; no port came or went. */
  ghost predicate Idles(w: World, w': World, p: nat, op: Op)
    requires op.Job?
  {
    && w'.ports == w.ports && w'.projects == w.projects
    && (p in w'.ops ==>
          w'.rows == w.rows && w'.ops[p].Job? && w'.ops[p].port == op.port && Portless(w'.ops[p].stage))
    && (p !in w'.ops ==>
          && op.id in w'.rows && w'.rows == w.rows[op.id := w'.rows[op.id]]
          && w'.rows[op.id].project == p && w'.rows[op.id].port == op.port)
  }

  lemma EarlyIdles(w: World, p: nat, op: Op, d: string, env: Env)
    requires AtJob(w, p, op)
    requires (op.stage.Syncing? || op.stage.Compiling? || op.stage.Selecting? || op.stage.SavingStatic?)
    ensures Idles(w, AdvanceJob(w, p, op, d, env), p, op)
  {
    Unpack(w, p, op);
  }

  lemma LateIdles(w: World, p: nat, op: Op, d: string, env: Env)
    requires AtJob(w, p, op) && !AnyFree(w) && (op.stage.Inserting? || op.stage.Finishing? || op.stage.Failing?)
    ensures Idles(w, AdvanceJob(w, p, op, d, env), p, op)
  {
    Unpack(w, p, op);
  }

  lemma JobIdles(w: World, p: nat, op: Op, env: Env)
    requires AtJob(w, p, op) && !AnyFree(w) && Portless(op.stage)
    ensures p in w.projects && Idles(w, Next(w, Advance(p, env)), p, op)
  {
    Unpack(w, p, op);
    if op.stage.Inserting? || op.stage.Finishing? || op.stage.Failing? {
      LateIdles(w, p, op, w.projects[p], env);
    } else {
      EarlyIdles(w, p, op, w.projects[p], env);
    }
  }

  lemma NeedsDrainFramed(w: World, w': World, r: nat, p: nat, x: nat, q: nat)
    requires Frame(w, w', r) && r != p && NeedsDrain(w, p, x, q)
    ensures NeedsDrain(w', p, x, q)
  {
    assert forall y :: Of(w, y, p) <==> Of(w', y, p);
  }

  lemma CanGiveFramed(w: World, w': World, r: nat, s: nat)
    requires Frame(w, w', r) && r != s
    ensures CanGive(w', s) <==> CanGive(w, s)
  {
    assert forall y :: Of(w, y, s) <==> Of(w', y, s);
    assert forall y :: Of(w, y, s) ==> (IsLatest(w, y) <==> IsLatest(w', y));
  }

  /** A step of a project that cannot give a port leaves all of them as they are,
      and the project as unable. */
  lemma PoorStep(w: World, e: Event)
    requires Good(w) && !AnyFree(w) && !CanGive(w, e.project)
    ensures Next(w, e).ports.Keys == w.ports.Keys && !CanGive(Next(w, e), e.project)
  {
    var r := e.project;
    assert Local(w, r);
    if e.Advance? && r in w.ops && w.ops[r].Job? {
      PoorJob(w, r, w.ops[r], e.env);
    } else if Idle(w, r) {
      PoorIdle(w, e);
    } else if e.Create? && r !in w.projects {
      assert forall y :: !Of(w, y, r);
    }
  }

  lemma PoorJob(w: World, r: nat, op: Op, env: Env)
    requires Good(w) && AtJob(w, r, op) && !AnyFree(w) && !CanGive(w, r)
    ensures Next(w, Advance(r, env)).ports == w.ports && !CanGive(Next(w, Advance(r, env)), r)
  {
    Unpack(w, r, op);
    JobIdles(w, r, op, env);
    var w' := Next(w, Advance(r, env));
    SameRowsOf(w, w', r, op.id);
  }

  /** If at most row `id` of the project changed, the latest is the same. */
  lemma SameRowsOf(w: World, w': World, r: nat, id: nat)
    requires Of(w, id, r) && Of(w', id, r) && w'.rows == w.rows[id := w'.rows[id]]
    ensures forall y :: Of(w, y, r) <==> Of(w', y, r)
    ensures forall y :: Of(w, y, r) ==> (IsLatest(w, y) <==> IsLatest(w', y))
  {
    SameLatest(w, w', id);
  }

  lemma PoorIdle(w: World, e: Event)
    requires Good(w) && Idle(w, e.project) && !CanGive(w, e.project)
    ensures Next(w, e).ports == w.ports && !CanGive(Next(w, e), e.project)
  {
    var r, w' := e.project, Next(w, e);
    var latest := LatestDeployment(w, r);
    if latest.Some? {
      LatestIsLatest(w, r, latest.value);
    }
    match e {
      case Stop(_, _) =>
        if latest.Some? {
          SameRowsOf(w, w', r, latest.value);
        }
      case BeginRemove(_, _) =>
      case BeginDeploy(_) => BeginIsPoor(w, r, "", 0, Syncing);
      case BeginRollback(_, t) =>
        if Of(w, t, r) && w.rows[t].image.Some? {
          BeginIsPoor(w, r, w.rows[t].commit, w.rows[t].image.value, Selecting(PORT_LO));
        }
      case _ =>
    }
  }

  lemma BeginIsPoor(w: World, r: nat, commit: string, img: nat, stage: Stage)
    requires Inv(w) && Idle(w, r)
    ensures !CanGive(Begin(w, r, commit, img, stage), r)
  {
    var w' := Begin(w, r, commit, img, stage);
    assert Of(w', w.nextId, r);
    assert forall y :: Of(w', y, r) && IsLatest(w', y) ==> y == w.nextId;
  }

  lemma WedgedByOther(w: World, e: Event, p: nat, x: nat, q: nat)
    requires Good(w) && NeedsDrain(w, p, x, q) && Starved(w, p, x) && e.project != p
    ensures NeedsDrain(Next(w, e), p, x, q) && Starved(Next(w, e), p, x)
  {
    var w' := Next(w, e);
    NextKeeps(w, e);
    NeedsDrainFramed(w, w', e.project, p, x, q);
    PoorStep(w, e);
    forall r | r != p ensures !CanGive(w', r) {
      if r != e.project {
        CanGiveFramed(w, w', e.project, r);
      }
    }
  }

  lemma WedgedByOwnJob(w: World, p: nat, x: nat, q: nat, env: Env)
    requires Good(w) && NeedsDrain(w, p, x, q) && Starved(w, p, x) && p in w.ops
    ensures NeedsDrain(Next(w, Advance(p, env)), p, x, q) && Starved(Next(w, Advance(p, env)), p, x)
  {
    var e := Advance(p, env);
    StillToDrain(w, p, x, q);
    var op, w' := w.ops[p], Next(w, e);
    Unpack(w, p, op);
    JobIdles(w, p, op, env);
    NextKeeps(w, e);
    SameRowsOf(w, w', p, op.id);
    forall r | r != p ensures !CanGive(w', r) {
      CanGiveFramed(w, w', p, r);
    }
  }

  lemma WedgedByOwnBegin(w: World, p: nat, x: nat, q: nat, commit: string, img: nat, stage: Stage)
    requires Good(w) && NeedsDrain(w, p, x, q) && Starved(w, p, x)
    requires Idle(w, p) && (stage.Syncing? || stage == Selecting(PORT_LO))
    ensures var w' := Begin(w, p, commit, img, stage); NeedsDrain(w', p, x, q) && Starved(w', p, x)
  {
    var w' := Begin(w, p, commit, img, stage);
    assert Of(w', w.nextId, p);
    assert Holds(w', q, x);
    BeginFrame(w, w', p, commit, img, stage);
    forall r | r != p ensures !CanGive(w', r) {
      CanGiveFramed(w, w', p, r);
    }
  }

  lemma WedgedByStopRow(w: World, p: nat, x: nat, q: nat, y: nat)
    requires Good(w) && NeedsDrain(w, p, x, q) && Starved(w, p, x) && Idle(w, p) && Of(w, y, p) && IsLatest(w, y)
    ensures NeedsDrain(StopRow(w, y), p, x, q) && Starved(StopRow(w, y), p, x)
  {
    var w' := StopRow(w, y);
    StopKeeps(w, p, y);
    SameRowsOf(w, w', p, y);
    assert Holds(w', q, x);
    forall r | r != p ensures !CanGive(w', r) {
      CanGiveFramed(w, w', p, r);
    }
  }

  lemma WedgedByOwnStop(w: World, p: nat, x: nat, q: nat, ok: bool)
    requires Good(w) && NeedsDrain(w, p, x, q) && Starved(w, p, x) && Idle(w, p)
    ensures NeedsDrain(StopLatest(w, p, ok), p, x, q) && Starved(StopLatest(w, p, ok), p, x)
  {
    if LatestDeployment(w, p).Some? {
      var y := LatestDeployment(w, p).value;
      LatestIsLatest(w, p, y);
      WedgedByStopRow(w, p, x, q, y);
    }
  }

  lemma WedgedByOwnRemove(w: World, p: nat, x: nat, q: nat, ok: bool)
    requires Good(w) && NeedsDrain(w, p, x, q) && Idle(w, p)
    ensures TornOwner(Next(w, BeginRemove(p, ok)), q)
  {
    assert Local(w, p);
    if LatestDeployment(w, p).Some? {
      var y := LatestDeployment(w, p).value;
      LatestIsLatest(w, p, y);
      assert w.rows[y].port != 0 ==> Owner(w, y) && Holds(w, w.rows[y].port, y);
    }
  }

  lemma WedgedNext(w: World, e: Event, q: nat)
    requires Good(w) && Wedged(w, q)
    ensures Doomed(Next(w, e), q)
  {
    var x := w.ports[q].value;
    var p := w.rows[x].project;
    if e.project != p {
      WedgedByOther(w, e, p, x, q);
      assert Holds(Next(w, e), q, x);
    } else {
      match e {
        case Advance(_, env) =>
          if p in w.ops {
            WedgedByOwnJob(w, p, x, q, env);
            assert Holds(Next(w, e), q, x);
          }
        case BeginDeploy(_) =>
          if Idle(w, p) {
            WedgedByOwnBegin(w, p, x, q, "", 0, Syncing);
          }
        case BeginRollback(_, t) =>
          if Idle(w, p) && Of(w, t, p) && w.rows[t].image.Some? {
            WedgedByOwnBegin(w, p, x, q, w.rows[t].commit, w.rows[t].image.value, Selecting(PORT_LO));
          }
        case Stop(_, ok) =>
          if Idle(w, p) {
            WedgedByOwnStop(w, p, x, q, ok);
          }
        case BeginRemove(_, ok) =>
          if Idle(w, p) {
            WedgedByOwnRemove(w, p, x, q, ok);
          }
        case Create(_, _) =>
      }
    }
  }

  lemma TornOwnerNext(w: World, e: Event, q: nat)
    requires Good(w) && TornOwner(w, q)
    ensures Doomed(Next(w, e), q)
  {
    var x := w.ports[q].value;
    var p := w.rows[x].project;
    assert Local(w, p);
    NextKeeps(w, e);
    assert Holds(w, q, x);
    if e.project != p {
      assert Holds(Next(w, e), q, x);
    }
  }

  lemma DoomedNext(w: World, e: Event, q: nat)
    requires Good(w) && Doomed(w, q)
    ensures Doomed(Next(w, e), q)
  {
    if Stranded(w, q) {
      StrandedNext(w, e, q);
    } else if TornOwner(w, q) {
      TornOwnerNext(w, e, q);
    } else {
      WedgedNext(w, e, q);
    }
  }

  lemma {:induction false} DoomedForever(w: World, after: seq<Event>, q: nat)
    requires Good(w) && Doomed(w, q)
    ensures Good(From(w, after)) && Doomed(From(w, after), q)
  {
    if after != [] {
      var rest, e := after[..|after| - 1], after[|after| - 1];
      DoomedForever(w, rest, q);
      NextIsGood(From(w, rest), e);
      DoomedNext(From(w, rest), e, q);
    }
  }

  // ---- any other port can be freed ----

  ghost predicate CanFree(w: World, q: nat)
  {
    exists after :: q !in From(w, after).ports
  }

  lemma {:induction false} FromFirst(w: World, e: Event, after: seq<Event>)
    ensures From(w, [e] + after) == From(Next(w, e), after)
  {
    var all := [e] + after;
    if after == [] {
      assert From(w, all[..0]) == w;
    } else {
      var n := |after| - 1;
      FromFirst(w, e, after[..n]);
      assert all[..|all| - 1] == [e] + after[..n];
    }
  }

  lemma FreeNow(w: World, q: nat)
    requires q !in w.ports
    ensures CanFree(w, q)
  {
    assert From(w, []) == w;
  }

  lemma FreeLater(w: World, e: Event, q: nat)
    requires CanFree(Next(w, e), q)
    ensures CanFree(w, q)
  {
    var after :| q !in From(Next(w, e), after).ports;
    FromFirst(w, e, after);
  }

  /** Port `q` of row `x` waits for a drain. */
  ghost predicate Waits(w: World, p: nat, x: nat, q: nat)
  {
    Good(w) && NeedsDrain(w, p, x, q)
  }

  ghost predicate At(w: World, p: nat, stage: Stage)
  {
    p in w.ops && w.ops[p].Job? && w.ops[p].stage == stage
  }

  lemma WaitsOn(w: World, w': World, p: nat, x: nat, q: nat)
    requires Waits(w, p, x, q) && Good(w') && x in w'.rows && w'.rows[x] == w.rows[x] && Holds(w', q, x)
    requires w'.projects == w.projects && !TearingDown(w', p) && forall y :: Of(w, y, p) ==> Of(w', y, p)
    ensures Waits(w', p, x, q)
  {
    var y: nat :| y in w.rows && w.rows[y].project == w.rows[x].project && !(y <= x);
    assert Of(w, y, p) && Of(w', y, p);
  }

  const Yes := Env(true, false, "")
  const No := Env(false, false, "")

  // -- from a container started to the drain --

  /** How far the drain of a row is from its end. */
  function ToTurn(at: Drain): nat
  {
    match at
    case ToRemove => 2
    case ToRelease => 1
    case ToMark => 0
  }

  /** The drain comes to row `x`. */
  lemma {:induction false} DrainFrees(w: World, p: nat, x: nat, q: nat)
    requires Waits(w, p, x, q) && p in w.ops && w.ops[p].Job? && w.ops[p].stage.Draining?
    ensures CanFree(w, q)
    decreases |w.ops[p].stage.todo|, ToTurn(w.ops[p].stage.at)
  {
    StillToDrain(w, p, x, q);
    var op := w.ops[p];
    Unpack(w, p, op);
    var w' := Next(w, Advance(p, Yes));
    NextIsGood(w, Advance(p, Yes));
    assert w' == AdvanceDrain(w, p, op, Yes);
    if op.stage.todo[0] == x && op.stage.at == ToRelease {
      FreeNow(w', q);
    } else {
      DrainTurn(w, p, x, q);
      DrainFrees(w', p, x, q);
    }
    FreeLater(w, Advance(p, Yes), q);
  }

  /** One step of the drain: further with the row at hand, or on to the next. */
  ghost predicate DrainsOn(w: World, w': World, p: nat, stage: Stage)
    requires stage.Draining?
  {
    && p in w'.ops && w'.ops[p].Job? && w'.ops[p].stage.Draining?
    && var stage' := w'.ops[p].stage;
       || (stage'.todo == stage.todo && ToTurn(stage'.at) < ToTurn(stage.at))
       || |stage'.todo| < |stage.todo|
  }

  lemma RemoveTurn(w: World, p: nat, op: Op)
    requires AtJob(w, p, op) && op.stage.Draining? && op.stage.at == ToRemove && op.stage.todo != []
    ensures var w' := AdvanceDrain(w, p, op, Yes);
            DrainsOn(w, w', p, op.stage) && w'.rows == w.rows && w'.ports == w.ports && w'.projects == w.projects
  {
  }

  lemma ReleaseTurn(w: World, p: nat, op: Op, x: nat, q: nat)
    requires AtJob(w, p, op) && op.stage.Draining? && op.stage.at == ToRelease && op.stage.todo != []
    requires op.stage.todo[0] != x && Holds(w, q, x)
    ensures var w' := AdvanceDrain(w, p, op, Yes);
            && DrainsOn(w, w', p, op.stage) && w'.rows == w.rows && Holds(w', q, x) && w'.projects == w.projects
  {
    Unpack(w, p, op);
    var y := op.stage.todo[0];
    assert y in op.stage.todo;
    assert Owner(w, y) && Holds(w, w.rows[y].port, y);
  }

  lemma MarkTurn(w: World, p: nat, op: Op, x: nat, q: nat)
    requires AtJob(w, p, op) && op.stage.Draining? && op.stage.at == ToMark && op.stage.todo != []
    requires Holds(w, q, x) && Of(w, x, p)
    ensures var w' := AdvanceDrain(w, p, op, Yes);
            && DrainsOn(w, w', p, op.stage) && x in w'.rows && w'.rows[x] == w.rows[x] && w'.ports == w.ports
            && w'.projects == w.projects && forall y :: Of(w, y, p) ==> Of(w', y, p)
  {
    Unpack(w, p, op);
    assert op.stage.todo[0] in op.stage.todo && Released(w, op.stage.todo[0]);
  }

  /** Until then the row keeps its port. */
  lemma DrainTurn(w: World, p: nat, x: nat, q: nat)
    requires Waits(w, p, x, q) && p in w.ops && w.ops[p].Job?
    requires w.ops[p].stage.Draining? && x in w.ops[p].stage.todo && x != w.ops[p].id
    requires !(w.ops[p].stage.todo[0] == x && w.ops[p].stage.at == ToRelease)
    ensures var w' := Next(w, Advance(p, Yes)); Waits(w', p, x, q) && DrainsOn(w, w', p, w.ops[p].stage)
  {
    var op := w.ops[p];
    NextIsGood(w, Advance(p, Yes));
    var w' := AdvanceDrain(w, p, op, Yes);
    assert w' == Next(w, Advance(p, Yes));
    match op.stage.at {
      case ToRemove => RemoveTurn(w, p, op);
      case ToRelease => ReleaseTurn(w, p, op, x, q);
      case ToMark => MarkTurn(w, p, op, x, q);
    }
    WaitsOn(w, w', p, x, q);
  }

  /** Before it: the container answers, the route is flipped, the list is made. */
  lemma {:induction false} LaunchFrees(w: World, p: nat, x: nat, q: nat)
    requires Waits(w, p, x, q) && p in w.ops && w.ops[p].Job?
    requires var s := w.ops[p].stage; s.Starting? || s.Probing? || s.Flipping? || s.Draining?
    ensures CanFree(w, q)
    decreases match w.ops[p].stage case Starting => 3 case Probing => 2 case Flipping => 1 case _ => 0
  {
    if w.ops[p].stage.Draining? {
      DrainFrees(w, p, x, q);
    } else {
      LaunchTurn(w, p, x, q);
      LaunchFrees(Next(w, Advance(p, Yes)), p, x, q);
      FreeLater(w, Advance(p, Yes), q);
    }
  }

  lemma LaunchTurn(w: World, p: nat, x: nat, q: nat)
    requires Waits(w, p, x, q) && p in w.ops && w.ops[p].Job?
    requires var s := w.ops[p].stage; s.Starting? || s.Probing? || s.Flipping?
    ensures var w', s := Next(w, Advance(p, Yes)), w.ops[p].stage;
            && Waits(w', p, x, q) && p in w'.ops && w'.ops[p].Job?
            && (s.Starting? ==> w'.ops[p].stage.Probing?)
            && (s.Probing? ==> w'.ops[p].stage.Flipping?)
            && (s.Flipping? ==> w'.ops[p].stage.Draining?)
  {
    var op, w' := w.ops[p], Next(w, Advance(p, Yes));
    Unpack(w, p, op);
    NextIsGood(w, Advance(p, Yes));
    assert w' == AdvanceJob(w, p, op, w.projects[p], Yes);
    assert w'.rows == w.rows && w'.ports == w.ports;
    WaitsOn(w, w', p, x, q);
  }

  // -- from the beginning, with port `r` free --

  ghost predicate FreePort(w: World, r: nat)
  {
    PORT_LO <= r <= PORT_HI && r !in w.ports
  }

  /** The deployment will get a port: it has not yet looked at `r`. */
  predicate Ahead(stage: Stage, r: nat)
  {
    stage.Syncing? || stage.Compiling? || (stage.Selecting? && stage.candidate <= r)
  }

  /** How far a deployment is from a port. */
  function ToPort(stage: Stage): int
  {
    match stage
    case Syncing => PORT_HI + 2
    case Compiling => PORT_HI + 1
    case Selecting(c) => PORT_HI - c
    case _ => 0
  }

  lemma {:induction false} AheadFrees(w: World, p: nat, x: nat, q: nat, r: nat)
    requires Waits(w, p, x, q) && p in w.ops && w.ops[p].Job? && FreePort(w, r) && Ahead(w.ops[p].stage, r)
    ensures CanFree(w, q)
    decreases ToPort(w.ops[p].stage)
  {
    var w' := Next(w, Advance(p, Yes));
    AheadTurn(w, p, x, q, r);
    if w'.ops[p].stage.Inserting? {
      InsertFrees(w', p, x, q);
    } else {
      AheadFrees(w', p, x, q, r);
    }
    FreeLater(w, Advance(p, Yes), q);
  }

  lemma AheadTurn(w: World, p: nat, x: nat, q: nat, r: nat)
    requires Waits(w, p, x, q) && p in w.ops && w.ops[p].Job? && FreePort(w, r) && Ahead(w.ops[p].stage, r)
    ensures var w', s := Next(w, Advance(p, Yes)), w.ops[p].stage;
            && Waits(w', p, x, q) && FreePort(w', r) && p in w'.ops && w'.ops[p].Job?
            && (s.Syncing? ==> w'.ops[p].stage.Compiling?)
            && (s.Compiling? ==> w'.ops[p].stage == Selecting(PORT_LO))
            && (s.Selecting? ==>
                  || (w'.ops[p].stage == Selecting(s.candidate + 1) && s.candidate < r)
                  || (w'.ops[p].stage == Inserting(s.candidate) && s.candidate !in w'.ports))
  {
    var op, w' := w.ops[p], Next(w, Advance(p, Yes));
    Unpack(w, p, op);
    NextIsGood(w, Advance(p, Yes));
    assert w' == AdvanceJob(w, p, op, w.projects[p], Yes);
    assert w'.rows == w.rows && w'.ports == w.ports;
    WaitsOn(w, w', p, x, q);
  }

  lemma InsertFrees(w: World, p: nat, x: nat, q: nat)
    requires Waits(w, p, x, q) && p in w.ops && w.ops[p].Job?
    requires w.ops[p].stage.Inserting? && w.ops[p].stage.candidate !in w.ports
    ensures CanFree(w, q)
  {
    var op, w' := w.ops[p], Next(w, Advance(p, Yes));
    Unpack(w, p, op);
    NextIsGood(w, Advance(p, Yes));
    assert w' == InsertPort(w, p, op, op.stage.candidate);
    WaitsOn(w, w', p, x, q);
    LaunchFrees(w', p, x, q);
    FreeLater(w, Advance(p, Yes), q);
  }

  lemma IdleFrees(w: World, p: nat, x: nat, q: nat, r: nat)
    requires Waits(w, p, x, q) && p !in w.ops && FreePort(w, r)
    ensures CanFree(w, q)
  {
    var e := BeginDeploy(p);
    NextIsGood(w, e);
    assert Next(w, e) == Begin(w, p, "", 0, Syncing);
    WaitsOn(w, Next(w, e), p, x, q);
    AheadFrees(Next(w, e), p, x, q, r);
    FreeLater(w, e, q);
  }

  // -- an operation too far on for that is brought to its end --

  /** How far an operation that will not drain is from its end. */
  function ToEnd(stage: Stage): int
  {
    match stage
    case SavingStatic => PORT_HI + 5
    case Selecting(c) => if c > PORT_HI then 3 else PORT_HI - c + 4
    case Inserting(_) => 3
    case Unwinding => 2
    case Failing => 1
    case Finishing => 1
    case _ => 0
  }

  predicate Ending(w: World, stage: Stage)
  {
    || stage.SavingStatic? || stage.Unwinding? || stage.Failing? || stage.Finishing?
    || (stage.Selecting? && forall r :: stage.candidate <= r <= PORT_HI ==> r in w.ports)
    || (stage.Inserting? && stage.candidate in w.ports)
  }

  lemma {:induction false} EndingFrees(w: World, p: nat, x: nat, q: nat, r: nat)
    requires Waits(w, p, x, q) && p in w.ops && w.ops[p].Job? && FreePort(w, r) && Ending(w, w.ops[p].stage)
    ensures CanFree(w, q)
    decreases ToEnd(w.ops[p].stage)
  {
    var w' := Next(w, Advance(p, No));
    EndingTurn(w, p, x, q, r);
    if p in w'.ops {
      EndingFrees(w', p, x, q, r);
    } else {
      IdleFrees(w', p, x, q, r);
    }
    FreeLater(w, Advance(p, No), q);
  }

  lemma EndingTurn(w: World, p: nat, x: nat, q: nat, r: nat)
    requires Waits(w, p, x, q) && p in w.ops && w.ops[p].Job? && FreePort(w, r) && Ending(w, w.ops[p].stage)
    ensures var w' := Next(w, Advance(p, No));
            && Waits(w', p, x, q) && FreePort(w', r)
            && (p in w'.ops ==>
                  && w'.ops[p].Job? && Ending(w', w'.ops[p].stage)
                  && 0 <= ToEnd(w'.ops[p].stage) < ToEnd(w.ops[p].stage))
  {
    StillToDrain(w, p, x, q);
    var op, w' := w.ops[p], Next(w, Advance(p, No));
    Unpack(w, p, op);
    NextIsGood(w, Advance(p, No));
    assert w' == AdvanceJob(w, p, op, w.projects[p], No);
    WaitsOn(w, w', p, x, q);
  }

  /** With a free port the drain can be had. */
  lemma AnyFreeFrees(w: World, p: nat, x: nat, q: nat)
    requires Waits(w, p, x, q) && AnyFree(w)
    ensures CanFree(w, q)
  {
    var r :| PORT_LO <= r <= PORT_HI && r !in w.ports;
    if p !in w.ops {
      IdleFrees(w, p, x, q, r);
    } else {
      StillToDrain(w, p, x, q);
      var stage := w.ops[p].stage;
      match stage {
        case Syncing => AheadFrees(w, p, x, q, r);
        case Compiling => AheadFrees(w, p, x, q, r);
        case Selecting(c) =>
          if s :| c <= s <= PORT_HI && s !in w.ports {
            Unpack(w, p, w.ops[p]);
            AheadFrees(w, p, x, q, s);
          } else {
            EndingFrees(w, p, x, q, r);
          }
        case Inserting(c) =>
          if c !in w.ports {
            InsertFrees(w, p, x, q);
          } else {
            EndingFrees(w, p, x, q, r);
          }
        case Starting => LaunchFrees(w, p, x, q);
        case Probing => LaunchFrees(w, p, x, q);
        case Flipping => LaunchFrees(w, p, x, q);
        case Draining(_, _) => LaunchFrees(w, p, x, q);
        case _ => EndingFrees(w, p, x, q, r);
      }
    }
  }

  // -- another project gives its port back --

  /** Project `r` giving port `given` back is what `q` needs: it is that port, or
      its row then finds one free. */
  ghost predicate Helps(w: World, r: nat, given: nat, p: nat, x: nat, q: nat)
  {
    given == q || (r != p && Waits(w, p, x, q))
  }

  lemma Helped(w: World, r: nat, given: nat, p: nat, x: nat, q: nat)
    requires Helps(w, r, given, p, x, q) && FreePort(w, given)
    ensures CanFree(w, q)
  {
    if given == q {
      FreeNow(w, q);
    } else {
      AnyFreeFrees(w, p, x, q);
    }
  }

  lemma HelpsOn(w: World, e: Event, given: nat, p: nat, x: nat, q: nat)
    requires Good(w) && Helps(w, e.project, given, p, x, q)
    ensures Good(Next(w, e)) && Helps(Next(w, e), e.project, given, p, x, q)
  {
    NextIsGood(w, e);
    if given != q {
      NextKeeps(w, e);
      NeedsDrainFramed(w, Next(w, e), e.project, p, x, q);
    }
  }

  lemma LatestGives(w: World, r: nat, y: nat, p: nat, x: nat, q: nat)
    requires Good(w) && Idle(w, r) && Of(w, y, r) && IsLatest(w, y) && w.rows[y].port != 0
    requires Helps(w, r, w.rows[y].port, p, x, q)
    ensures CanFree(w, q)
  {
    var e := BeginRemove(r, true);
    HelpsOn(w, e, w.rows[y].port, p, x, q);
    assert Local(w, r);
    assert Owner(w, y) && Holds(w, w.rows[y].port, y);
    ListIsComplete(w.rows, r, w.nextId);
    assert y in ListDeployments(w, r);
    LatestIsLatest(w, r, LatestDeployment(w, r).value);
    Helped(Next(w, e), r, w.rows[y].port, p, x, q);
    FreeLater(w, e, q);
  }

  /** How far an operation is from giving its port back. */
  function ToGive(stage: Stage): int
  {
    match stage
    case Starting => 7
    case Unwinding => 6
    case Probing => 3
    case Flipping => 3
    case Draining(todo, at) => 5 + 3 * |todo| + ToTurn(at)
    case Finishing => 1
    case Failing => 1
    case _ => 0
  }

  lemma {:induction false} JobGives(w: World, r: nat, p: nat, x: nat, q: nat)
    requires Good(w) && r in w.ops && w.ops[r].Job? && w.ops[r].port != 0 && Helps(w, r, w.ops[r].port, p, x, q)
    ensures CanFree(w, q)
    decreases ToGive(w.ops[r].stage)
  {
    var op, e := w.ops[r], Advance(r, No);
    var w' := Next(w, e);
    HelpsOn(w, e, op.port, p, x, q);
    GiveTurn(w, r);
    if op.port !in w'.ports {
      Helped(w', r, op.port, p, x, q);
    } else if r in w'.ops {
      JobGives(w', r, p, x, q);
    } else {
      LatestGives(w', r, op.id, p, x, q);
    }
    FreeLater(w, e, q);
  }

  /** The port was given back, or the operation is nearer to its end and still has
      it, or it has ended and left it to the latest row. */
  ghost predicate Nearer(w: World, w': World, r: nat, op: Op)
    requires op.Job?
  {
    op.port in w'.ports ==>
      if r in w'.ops then w'.ops[r].Job? && w'.ops[r].port == op.port && 0 <= ToGive(w'.ops[r].stage) < ToGive(op.stage)
      else Idle(w', r) && Of(w', op.id, r) && IsLatest(w', op.id) && w'.rows[op.id].port == op.port
  }

  lemma DrainNearer(w: World, r: nat, op: Op)
    requires AtJob(w, r, op) && op.stage.Draining? && op.port != 0
    ensures Nearer(w, AdvanceDrain(w, r, op, No), r, op)
  {
    Unpack(w, r, op);
  }

  lemma LaunchNearer(w: World, r: nat, op: Op, d: string)
    requires AtJob(w, r, op) && (op.stage.Starting? || op.stage.Unwinding? || op.stage.Probing? || op.stage.Flipping?)
    ensures Nearer(w, AdvanceJob(w, r, op, d, No), r, op)
  {
    Unpack(w, r, op);
  }

  lemma EndNearer(w: World, r: nat, op: Op, status: Status)
    requires AtJob(w, r, op) && (op.stage.Finishing? || op.stage.Failing?) && op.port != 0
    ensures Nearer(w, EndJob(w, r, op, status), r, op)
  {
    Unpack(w, r, op);
    SameLatest(w, EndJob(w, r, op, status), op.id);
  }

  lemma GiveTurn(w: World, r: nat)
    requires Good(w) && r in w.ops && w.ops[r].Job? && w.ops[r].port != 0
    ensures var op := w.ops[r]; PORT_LO <= op.port <= PORT_HI && Nearer(w, Next(w, Advance(r, No)), r, op)
  {
    var op := w.ops[r];
    Unpack(w, r, op);
    if op.stage.Draining? {
      DrainNearer(w, r, op);
    } else if op.stage.Finishing? {
      EndNearer(w, r, op, Running);
    } else if op.stage.Failing? {
      EndNearer(w, r, op, Failed);
    } else {
      LaunchNearer(w, r, op, w.projects[r]);
    }
  }

  /** While the latest row has a port no job is running. */
  lemma NoJobOver(w: World, r: nat, y: nat)
    requires Inv(w) && Of(w, y, r) && IsLatest(w, y) && w.rows[y].port != 0
    ensures r in w.ops ==> w.ops[r].Teardown?
  {
    assert Local(w, r);
  }

  lemma GiverFrees(w: World, r: nat, p: nat, x: nat, q: nat)
    requires Waits(w, p, x, q) && r != p && CanGive(w, r)
    ensures CanFree(w, q)
  {
    assert Local(w, r);
    if r in w.ops && w.ops[r].port != 0 {
      JobGives(w, r, p, x, q);
    } else {
      var y: nat :| Of(w, y, r) && IsLatest(w, y) && w.rows[y].port != 0;
      NoJobOver(w, r, y);
      LatestGives(w, r, y, p, x, q);
    }
  }

  // ---- the theorem ----

  lemma WaitingFrees(w: World, p: nat, x: nat, q: nat)
    requires Waits(w, p, x, q) && !Starved(w, p, x)
    ensures CanFree(w, q)
  {
    if AnyFree(w) {
      AnyFreeFrees(w, p, x, q);
    } else if p in w.ops && WillDrain(w.ops[p], x) {
      if w.ops[p].stage.Unwinding? {
        UnwindFrees(w, p, x, q);
      } else {
        LaunchFrees(w, p, x, q);
      }
    } else {
      var r :| r != p && CanGive(w, r);
      GiverFrees(w, r, p, x, q);
    }
  }

  lemma UnwindFrees(w: World, p: nat, x: nat, q: nat)
    requires Waits(w, p, x, q) && p in w.ops && w.ops[p].Job? && w.ops[p].stage.Unwinding?
    ensures CanFree(w, q)
  {
    StillToDrain(w, p, x, q);
    var op, e := w.ops[p], Advance(p, Yes);
    var w' := Next(w, e);
    Unpack(w, p, op);
    NextIsGood(w, e);
    assert w' == Unwind(w, p, op);
    WaitsOn(w, w', p, x, q);
    assert FreePort(w', op.port);
    AnyFreeFrees(w', p, x, q);
    FreeLater(w, e, q);
  }

  lemma OthersFree(w: World, q: nat)
    requires Good(w) && q in w.ports && !Doomed(w, q)
    ensures CanFree(w, q)
  {
    var x := w.ports[q].value;
    assert Holds(w, q, x);
    var p := w.rows[x].project;
    assert Local(w, p);
    if InHand(w, q, x) {
      JobGives(w, p, p, x, q);
    } else if IsLatest(w, x) {
      NoJobOver(w, p, x);
      LatestGives(w, p, x, p, x, q);
    } else {
      WaitingFrees(w, p, x, q);
    }
  }

  /** In every reachable state a port can never be freed again exactly if it is
      allocated and stranded, or its owner's project is being removed, or only a
      drain could free it and none can be had. */
  lemma LostExactly(events: seq<Event>, q: nat)
    ensures Lost(Run(events), q) <==> Doomed(Run(events), q)
  {
    var w := Run(events);
    RunIsGood(events);
    assert From(w, []) == w;
    if Doomed(w, q) {
      forall after ensures q in From(w, after).ports {
        DoomedForever(w, after, q);
      }
    } else if q in w.ports {
      OthersFree(w, q);
    }
  }

  // ---- a run that loses every port ----

  function FailedRow(x: nat): Row
  {
    Row(1, Failed, Some(x), true, PORT_LO + x - 1, "")
  }

  /** `n` deploys of project 1 whose container did not answer have taken `n` ports. */
  ghost predicate Taken(w: World, n: nat)
  {
    && w.projects == map[1 := "a"]
    && (forall q :: q in w.ports <==> PORT_LO <= q < PORT_LO + n)
    && (forall q :: q in w.ports ==> w.ports[q] == Some(q - PORT_LO + 1))
  }

  ghost predicate Filled(w: World, n: nat)
  {
    && Taken(w, n) && w.ops == map[] && w.nextId == n + 1
    && (forall x :: x in w.rows <==> 1 <= x <= n)
    && (forall x :: x in w.rows ==> w.rows[x] == FailedRow(x))
  }

  /** The next deploy has begun, and `taken` ports are allocated. */
  ghost predicate Filling(w: World, n: nat, op: Op, taken: nat)
  {
    && Taken(w, taken) && w.ops == map[1 := op] && w.nextId == n + 2
    && (forall x :: x in w.rows <==> 1 <= x <= n + 1)
    && (forall x :: x in w.rows && x <= n ==> w.rows[x] == FailedRow(x))
    && w.rows[n + 1] == NewRow
  }

  function ImageRow(n: nat): Row
  {
    NewRow.(image := Some(n + 1))
  }

  lemma FillBegins(w: World, n: nat)
    requires Filled(w, n)
    ensures Filling(Next(w, BeginDeploy(1)), n, Job(n + 1, NewRow, 0, 0, Syncing), n)
  {
  }

  lemma FillBuilds(w: World, n: nat)
    requires Filling(w, n, Job(n + 1, NewRow, 0, 0, Syncing), n)
    ensures Filling(Next(Next(w, Advance(1, Yes)), Advance(1, Yes)), n,
            Job(n + 1, ImageRow(n), n + 1, 0, Selecting(PORT_LO)), n)
  {
    assert Filling(Next(w, Advance(1, Yes)), n, Job(n + 1, NewRow, 0, 0, Compiling), n);
  }

  lemma FillSelects(w: World, n: nat, c: nat)
    requires Filling(w, n, Job(n + 1, ImageRow(n), n + 1, 0, Selecting(c)), n)
    requires PORT_LO <= c <= PORT_LO + n && c <= PORT_HI
    ensures Filling(Next(w, Advance(1, Yes)), n,
                    Job(n + 1, ImageRow(n), n + 1, 0, if c < PORT_LO + n then Selecting(c + 1) else Inserting(c)), n)
  {
  }

  lemma FillInserts(w: World, n: nat)
    requires Filling(w, n, Job(n + 1, ImageRow(n), n + 1, 0, Inserting(PORT_LO + n)), n)
    ensures Filling(Next(w, Advance(1, Yes)), n, Job(n + 1, ImageRow(n), n + 1, PORT_LO + n, Starting), n + 1)
  {
  }

  lemma FillStarts(w: World, n: nat)
    requires Filling(w, n, Job(n + 1, ImageRow(n), n + 1, PORT_LO + n, Starting), n + 1)
    ensures Filling(Next(w, Advance(1, Yes)), n,
                    Job(n + 1, ImageRow(n).(container := true, port := PORT_LO + n), n + 1, PORT_LO + n, Probing),
                        n + 1)
  {
  }

  lemma FillFails(w: World, n: nat)
    requires Filling(w, n,
             Job(n + 1, ImageRow(n).(container := true, port := PORT_LO + n), n + 1, PORT_LO + n, Probing), n + 1)
    ensures Filled(Next(Next(w, Advance(1, No)), Advance(1, Yes)), n + 1)
  {
    var op := Job(n + 1, ImageRow(n).(container := true, port := PORT_LO + n), n + 1, PORT_LO + n, Failing);
    assert Filling(Next(w, Advance(1, No)), n, op, n + 1);
  }

  lemma {:induction false} FillLooks(events: seq<Event>, n: nat, c: nat) returns (more: seq<Event>)
    requires Filling(Run(events), n, Job(n + 1, ImageRow(n), n + 1, 0, Selecting(c)), n)
    requires PORT_LO <= c <= PORT_LO + n <= PORT_HI
    requires forall e :: e in events ==> Gentle(e)
    ensures Filling(Run(more), n, Job(n + 1, ImageRow(n), n + 1, 0, Inserting(PORT_LO + n)), n)
    ensures forall e :: e in more ==> Gentle(e)
    decreases PORT_LO + n - c
  {
    FillSelects(Run(events), n, c);
    RunsOn(events, Advance(1, Yes));
    more := events + [Advance(1, Yes)];
    if c < PORT_LO + n {
      more := FillLooks(more, n, c + 1);
    }
  }

  lemma FillOne(events: seq<Event>, n: nat) returns (more: seq<Event>)
    requires Filled(Run(events), n) && PORT_LO + n <= PORT_HI
    requires forall e :: e in events ==> Gentle(e)
    ensures Filled(Run(more), n + 1)
    ensures forall e :: e in more ==> Gentle(e)
  {
    FillBegins(Run(events), n);
    RunsOn(events, BeginDeploy(1));
    more := events + [BeginDeploy(1)];
    FillBuilds(Run(more), n);
    RunsOn(more, Advance(1, Yes));
    RunsOn(more + [Advance(1, Yes)], Advance(1, Yes));
    more := more + [Advance(1, Yes)] + [Advance(1, Yes)];
    more := FillLooks(more, n, PORT_LO);
    more := FillEnds(more, n);
  }

  lemma FillEnds(events: seq<Event>, n: nat) returns (more: seq<Event>)
    requires Filling(Run(events), n, Job(n + 1, ImageRow(n), n + 1, 0, Inserting(PORT_LO + n)), n)
    requires forall e :: e in events ==> Gentle(e)
    ensures Filled(Run(more), n + 1)
    ensures forall e :: e in more ==> Gentle(e)
  {
    FillInserts(Run(events), n);
    RunsOn(events, Advance(1, Yes));
    more := events + [Advance(1, Yes)];
    FillStarts(Run(more), n);
    RunsOn(more, Advance(1, Yes));
    more := more + [Advance(1, Yes)];
    FillFails(Run(more), n);
    RunsOn(more, Advance(1, No));
    RunsOn(more + [Advance(1, No)], Advance(1, Yes));
    more := more + [Advance(1, No)] + [Advance(1, Yes)];
  }

  lemma {:induction false} FillUp(n: nat) returns (events: seq<Event>)
    requires n <= PORT_HI - PORT_LO + 1
    ensures Filled(Run(events), n)
    ensures forall e :: e in events ==> Gentle(e)
  {
    if n == 0 {
      RunsOn([], Create(1, "a"));
      events := [] + [Create(1, "a")];
    } else {
      events := FillUp(n - 1);
      events := FillOne(events, n - 1);
    }
  }

  lemma FullIsWedged(w: World, q: nat)
    requires Filled(w, PORT_HI - PORT_LO + 1) && PORT_LO <= q <= PORT_HI
    ensures Wedged(Next(w, BeginDeploy(1)), q) && !Stranded(Next(w, BeginDeploy(1)), q)
  {
    var n, w' := PORT_HI - PORT_LO + 1, Next(w, BeginDeploy(1));
    FillBegins(w, n);
    var x := q - PORT_LO + 1;
    assert Holds(w', q, x) && w'.rows[x] == FailedRow(x);
    assert w'.rows[n + 1].project == 1 && n + 1 > x;
  }

  /** Without a single Stop or Remove the platform can run out of ports for good:
      seven hundred deploys whose container does not answer, and the beginning of
      one more. No port is stranded, and none will ever be free again. */
  lemma EveryPortIsLost() returns (events: seq<Event>)
    ensures forall e :: e in events ==> Gentle(e)
    ensures forall q :: PORT_LO <= q <= PORT_HI ==> Lost(Run(events), q) && !Stranded(Run(events), q)
  {
    var before := FillUp(PORT_HI - PORT_LO + 1);
    events := before + [BeginDeploy(1)];
    RunsOn(before, BeginDeploy(1));
    forall q: nat | PORT_LO <= q <= PORT_HI ensures Lost(Run(events), q) && !Stranded(Run(events), q) {
      FullIsWedged(Run(before), q);
      LostExactly(events, q);
    }
  }
}
