/** What every run of the control plane keeps: who owns a port, what a route
    leads to, where an image came from. */
module ControlPlaneSafety {
  import opened Options
  import opened ControlPlane

  // ---- the invariant ----

  ghost predicate RowsOK(w: World)
  {
    && (forall x :: x in w.rows ==>
          x < w.nextId && w.rows[x].project in w.projects && (w.rows[x].container <==> w.rows[x].port != 0))
    && (forall x :: x in w.containers ==> x < w.nextId)
  }

  ghost predicate PortsOK(w: World)
  {
    forall q :: q in w.ports ==> PORT_LO <= q <= PORT_HI
  }

  predicate Holds(w: World, q: nat, x: nat)
  {
    q in w.ports && w.ports[q] == Some(x)
  }

  /** Which ports an operation has at each stage, in hand and in its record. */
  predicate PhaseOK(op: Op)
    requires op.Job?
  {
    && (op.rec.container <==> op.rec.port != 0)
    && match op.stage
       case Syncing => op.port == 0 && op.rec.port == 0
       case SavingStatic => op.port == 0 && op.rec.port == 0
       case Compiling => op.port == 0 && op.rec.port == 0
       case Selecting(q) => op.port == 0 && op.rec.port == 0 && PORT_LO <= q
       case Inserting(q) => op.port == 0 && op.rec.port == 0 && PORT_LO <= q <= PORT_HI
       case Starting => op.port != 0 && op.rec.port == 0
       case Unwinding => op.port != 0 && op.rec.port == 0
       case Probing => op.port != 0 && op.rec.port == op.port
       case Flipping => op.port != 0 && op.rec.port == op.port
       case Draining(_, _) => op.port != 0 && op.rec.port == op.port
       case Finishing => op.rec.port == op.port
       case Failing => op.rec.port == op.port
  }

  ghost predicate DrainOK(w: World, p: nat, op: Op)
    requires op.Job? && p in w.projects
  {
    op.stage.Draining? ==>
      && (forall x :: x in op.stage.todo ==> x in w.rows && w.rows[x].project == p)
      && (op.stage.at != ToRemove ==> op.stage.todo != [] && !Skips(w, op.id, op.stage.todo[0]))
      && (forall x :: x in op.stage.todo && x != op.id ==> RouteOwner(w, w.projects[p]) != Some(x))
  }

  ghost predicate JobOK(w: World, p: nat, op: Op)
    requires op.Job? && p in w.projects
  {
    && op.id in w.rows && w.rows[op.id].project == p && w.rows[op.id].port == 0
    && IsLatest(w, op.id)
    && op.rec.project == p
    && PhaseOK(op)
    && (op.port != 0 ==> Holds(w, op.port, op.id))
    && (op.rec.port != 0 <==> op.id in w.containers)
    && DrainOK(w, p, op)
  }

  /** `x` is being drained: its port is free again, its row not yet marked. */
  predicate Released(w: World, x: nat)
  {
    && x in w.rows && w.rows[x].project in w.ops
    && var op := w.ops[w.rows[x].project];
       op.Job? && op.stage.Draining? && op.stage.at == ToMark && op.stage.todo != [] && op.stage.todo[0] == x
  }

  /** The project of `x` is being torn down. */
  predicate Torn(w: World, x: nat)
  {
    x in w.rows && w.rows[x].project in w.ops && w.ops[w.rows[x].project].Teardown?
  }

  ghost predicate Owner(w: World, x: nat)
    requires x in w.rows
  {
    && w.rows[x].port != 0
    && (w.rows[x].status != Stopped || IsLatest(w, x))
    && !Released(w, x) && !(Torn(w, x) && IsLatest(w, x))
  }

  predicate InHand(w: World, q: nat, x: nat)
  {
    && x in w.rows && w.rows[x].project in w.ops
    && var op := w.ops[w.rows[x].project];
       op.Job? && op.id == x && op.port == q
  }

  /** The project's running operation is in order. */
  ghost predicate OpOK(w: World, p: nat)
  {
    p in w.ops ==> p in w.projects && (w.ops[p].Job? ==> JobOK(w, p, w.ops[p]))
  }

  /** Each of its rows that has a port and was not stopped, or is the latest, owns
      that port. */
  ghost predicate RowsOwn(w: World, p: nat)
  {
    forall x :: x in w.rows && w.rows[x].project == p && Owner(w, x) ==> Holds(w, w.rows[x].port, x)
  }

  /** Each port it owns is the one the owner's row or operation knows. */
  ghost predicate PortsKnown(w: World, p: nat)
  {
    forall q, x :: Holds(w, q, x) && x in w.rows && w.rows[x].project == p ==>
      (w.rows[x].port == q || InHand(w, q, x)) && !Released(w, x)
  }

  /** What one project keeps. */
  ghost predicate Local(w: World, p: nat)
  {
    OpOK(w, p) && RowsOwn(w, p) && PortsKnown(w, p)
  }

  /** Only deployments that exist own ports. */
  ghost predicate OwnersExist(w: World)
  {
    forall q, x :: Holds(w, q, x) ==> x in w.rows
  }

  /** The deployment that owns the port the domain's route names. */
  function RouteOwner(w: World, d: string): Option<nat>
  {
    if d in w.routes && w.routes[d].Upstream? && w.routes[d].port in w.ports then w.ports[w.routes[d].port] else None
  }

  /** The route leads to an allocated port whose owner's container is there. */
  ghost predicate RouteOK(w: World, d: string)
  {
    d in w.routes && w.routes[d].Upstream? ==>
      && RouteOwner(w, d).Some?
      && RouteOwner(w, d).value in w.containers
      && RouteOwner(w, d).value in w.rows
      && w.rows[RouteOwner(w, d).value].project in w.projects
      && w.projects[w.rows[RouteOwner(w, d).value].project] == d
  }

  ghost predicate RoutesOK(w: World)
  {
    forall d :: d !in w.exposed ==> RouteOK(w, d)
  }

  ghost predicate Inv(w: World)
  {
    RowsOK(w) && PortsOK(w) && OwnersExist(w) && RoutesOK(w) && forall p :: Local(w, p)
  }

  // ---- one project's step leaves the others alone ----

  predicate Of(w: World, x: nat, p: nat)
  {
    x in w.rows && w.rows[x].project == p
  }

  /** From `w` to `w'` only project `p` and what its rows own has changed. */
  ghost predicate Frame(w: World, w': World, p: nat)
  {
    && w'.nextId >= w.nextId
    && (forall q :: q != p ==> (q in w.projects <==> q in w'.projects) && (q in w.ops <==> q in w'.ops))
    && (forall q :: q != p && q in w.projects ==> w'.projects[q] == w.projects[q])
    && (forall q :: q != p && q in w.ops ==> w'.ops[q] == w.ops[q])
    && (forall x :: x in w.rows && w.rows[x].project != p ==> x in w'.rows && w'.rows[x] == w.rows[x])
    && (forall x :: x in w'.rows && w'.rows[x].project != p ==> x in w.rows && w'.rows[x] == w.rows[x])
    && (forall x, q :: x in w.rows && w.rows[x].project != p ==> (Holds(w, q, x) <==> Holds(w', q, x)))
    && (forall x :: x in w.rows && w.rows[x].project != p ==> (x in w.containers <==> x in w'.containers))
    && (forall x, d :: x in w.rows && w.rows[x].project != p && RouteOwner(w', d) == Some(x) ==>
        RouteOwner(w, d) == Some(x))
  }

  /** The invariant holds again, and only project `p` was touched. */
  ghost predicate Kept(w: World, w': World, p: nat)
  {
    Inv(w') && Frame(w, w', p) && Calm(w, w', p)
  }

  /** A step of a job exposes no route and turns into no teardown. */
  ghost predicate Calm(w: World, w': World, p: nat)
  {
    p in w.ops && w.ops[p].Job? ==> w'.exposed <= w.exposed && (p in w'.ops ==> w'.ops[p].Job?)
  }

  lemma FrameKeepsLocal(w: World, w': World, p: nat, q: nat)
    requires Frame(w, w', p) && q != p && Local(w, q)
    ensures Local(w', q)
  {
    assert forall x :: x in w.rows && w.rows[x].project == q ==> (IsLatest(w, x) <==> IsLatest(w', x));
    assert forall x :: Of(w, x, q) <==> Of(w', x, q);
    if q in w.ops && w.ops[q].Job? {
      var op := w.ops[q];
      assert JobOK(w, q, op);
      assert DrainOK(w', q, op) by {
        if op.stage.Draining? {
          forall x | x in op.stage.todo ensures Of(w', x, q) {
            assert Of(w, x, q);
          }
        }
      }
    }
    forall x | x in w'.rows && w'.rows[x].project == q && Owner(w', x) ensures Holds(w', w'.rows[x].port, x) {
      assert Of(w, x, q) && Owner(w, x);
    }
  }

  /** Routes away from the project's own domain are as safe as they were. */
  lemma FrameKeepsRoute(w: World, w': World, p: nat, d: string)
    requires Frame(w, w', p) && RouteOK(w, d) && RowsOK(w) && OwnersExist(w)
    requires d in w'.routes ==> d in w.routes && w'.routes[d] == w.routes[d]
    requires p in w.projects ==> w.projects[p] != d
    ensures RouteOK(w', d)
  {
    if d in w'.routes && w.routes[d].Upstream? {
      var x := RouteOwner(w, d).value;
      assert Holds(w, w.routes[d].port, x);
      assert w.rows[x].project != p;
      assert Holds(w', w.routes[d].port, x);
    }
  }

  lemma Assemble(w: World, w': World, p: nat, d: string)
    requires Inv(w) && Frame(w, w', p) && Calm(w, w', p)
    requires RowsOK(w') && PortsOK(w') && OwnersExist(w') && Local(w', p)
    requires p in w.projects ==> w.projects[p] == d
    requires forall e :: e != d && e !in w'.exposed ==> e !in w.exposed
    requires forall e :: e != d && e in w'.routes ==> e in w.routes && w'.routes[e] == w.routes[e]
    requires d !in w'.exposed ==> RouteOK(w', d)
    ensures Kept(w, w', p)
  {
    forall q ensures Local(w', q) {
      assert Local(w, q);
      if q != p {
        FrameKeepsLocal(w, w', p, q);
      }
    }
    forall e | e !in w'.exposed ensures RouteOK(w', e) {
      if e != d {
        FrameKeepsRoute(w, w', p, e);
      }
    }
  }

  // ---- the steps ----

  ghost predicate AtJob(w: World, p: nat, op: Op)
  {
    Inv(w) && p in w.ops && w.ops[p] == op && op.Job?
  }

  lemma Unpack(w: World, p: nat, op: Op)
    requires AtJob(w, p, op)
    ensures Local(w, p) && p in w.projects && JobOK(w, p, op)
    ensures w.projects[p] !in w.exposed ==> RouteOK(w, w.projects[p])
  {
    assert Local(w, p);
  }

  lemma StageLocal(w: World, w': World, p: nat, op: Op, op': Op)
    requires Local(w, p) && p in w.ops && w.ops[p] == op && op.Job? && p in w.projects
    requires op'.Job? && op'.id == op.id && op'.port == op.port && op'.rec.project == p
    requires PhaseOK(op') && (op'.rec.port != 0 <==> op'.id in w.containers)
    requires op'.stage.Draining? ==>
               op'.stage.at == ToRemove && op.stage.Draining? && forall x :: x in op'.stage.todo ==> x in op.stage.todo
    requires op.stage.Draining? ==> op.stage.at == ToRemove
    requires w' == SetOp(w, p, op')
    ensures Local(w', p)
  {
    assert forall x :: Of(w, x, p) ==>
           (IsLatest(w, x) <==> IsLatest(w', x)) && !Released(w, x) && !Released(w', x) && !Torn(w, x) && !Torn(w', x);
    assert forall x, q :: Holds(w, q, x) <==> Holds(w', q, x);
    assert forall d :: RouteOwner(w, d) == RouteOwner(w', d);
  }

  /** A step that only moves the operation on. */
  lemma StageKeeps(w: World, p: nat, op: Op, op': Op)
    requires AtJob(w, p, op) && op'.Job? && op'.id == op.id && op'.port == op.port && op'.rec.project == p
    requires PhaseOK(op') && (op'.rec.port != 0 <==> op'.id in w.containers)
    requires op'.stage.Draining? ==>
             op'.stage.at == ToRemove && op.stage.Draining? && (forall x :: x in op'.stage.todo ==> x in op.stage.todo)
    requires op.stage.Draining? ==> op.stage.at == ToRemove
    ensures Kept(w, SetOp(w, p, op'), p)
  {
    Unpack(w, p, op);
    var w' := SetOp(w, p, op');
    StageLocal(w, w', p, op, op');
    assert forall x, q :: Holds(w, q, x) <==> Holds(w', q, x);
    assert forall d :: RouteOwner(w, d) == RouteOwner(w', d);
    Assemble(w, w', p, w.projects[p]);
  }

  lemma BuiltFrame(w: World, built: map<nat, (nat, string)>, q: nat)
    ensures Frame(w, w.(built := built), q)
  {
    var w' := w.(built := built);
    assert forall r, x :: Holds(w, r, x) <==> Holds(w', r, x);
    assert forall d :: RouteOwner(w, d) == RouteOwner(w', d);
  }

  lemma BuiltIsGhost(w: World, built: map<nat, (nat, string)>)
    requires Inv(w)
    ensures Inv(w.(built := built))
  {
    var w' := w.(built := built);
    forall q: nat ensures Local(w', q) {
      assert Local(w, q);
      BuiltFrame(w, built, q + 1);
      FrameKeepsLocal(w, w', q + 1, q);
    }
    assert forall q, x :: Holds(w', q, x) ==> Holds(w, q, x);
    assert forall d :: RouteOK(w, d) ==> RouteOK(w', d);
  }

  lemma SameLatest(w: World, w': World, x: nat)
    requires x in w.rows && x in w'.rows && w'.rows == w.rows[x := w'.rows[x]]
    requires w'.rows[x].project == w.rows[x].project
    ensures forall y :: y in w.rows ==> (IsLatest(w, y) <==> IsLatest(w', y))
  {
    assert forall y :: y in w.rows <==> y in w'.rows;
    assert forall y :: y in w.rows ==> w'.rows[y].project == w.rows[y].project;
  }

  lemma NotLatest(w: World, x: nat, y: nat)
    requires x in w.rows && y in w.rows && w.rows[x].project == w.rows[y].project && x < y
    ensures !IsLatest(w, x)
  {
  }

  /** A step that touches one row `x` of project `p`, the port it owns, its
      container, or a route to it, stays within the project's frame. */
  lemma StepFrame(w: World, w': World, p: nat, x: nat, q: nat)
    requires Of(w, x, p) && w'.projects == w.projects && w'.ops - {p} == w.ops - {p} && w'.nextId == w.nextId
    requires w'.rows == w.rows || (x in w'.rows && w'.rows == w.rows[x := w'.rows[x]] && w'.rows[x].project == p)
    requires || w'.ports == w.ports
             || (w'.ports == w.ports - {q} && Holds(w, q, x))
             || (w'.ports == w.ports[q := Some(x)] && q !in w.ports)
    requires w'.containers - {x} == w.containers - {x}
    requires forall d :: d in w'.routes && !(d in w.routes && w'.routes[d] == w.routes[d]) ==>
               w'.routes[d].Static? || Holds(w', w'.routes[d].port, x)
    ensures Frame(w, w', p)
  {
    assert forall r :: r != p ==> (r in w.ops <==> r in w.ops - {p}) && (r in w'.ops <==> r in w'.ops - {p});
    forall r | r != p && r in w.ops ensures r in w'.ops && w'.ops[r] == w.ops[r] {
      assert r in w.ops - {p} && r in w'.ops - {p};
      assert (w.ops - {p})[r] == (w'.ops - {p})[r];
    }
    assert forall y :: y != x ==>
           (y in w.containers <==> y in w.containers - {x}) && (y in w'.containers <==> y in w'.containers - {x});
    assert forall r, y :: y != x ==> (Holds(w, r, y) <==> Holds(w', r, y));
    forall y, d | y in w.rows && w.rows[y].project != p && RouteOwner(w', d) == Some(y)
      ensures RouteOwner(w, d) == Some(y)
    {
      assert Holds(w', w'.routes[d].port, y);
      assert Holds(w, w'.routes[d].port, y);
    }
  }

  // Every case below shows the same five facts of the next world: the frame, the
  // tables in order, the project's own part, and the project's own route.

  lemma CompileKeeps(w: World, p: nat, op: Op)
    requires AtJob(w, p, op) && op.stage.Compiling?
    ensures Kept(w, Compile(w, p, op), p)
  {
    Unpack(w, p, op);
    var mid := w.(built := w.built[op.id := (p, op.rec.commit)]);
    BuiltIsGhost(w, mid.built);
    var op' := op.(rec := op.rec.(image := Some(op.id)), img := op.id, stage := Selecting(PORT_LO));
    StageKeeps(mid, p, op, op');
    assert forall q, x :: Holds(w, q, x) <==> Holds(mid, q, x);
    assert forall d :: RouteOwner(w, d) == RouteOwner(mid, d);
    assert SetOp(mid, p, op') == Compile(w, p, op);
  }

  lemma InsertLocal(w: World, w': World, p: nat, op: Op, q: nat)
    requires RowsOK(w) && PortsOK(w) && OwnersExist(w) && Local(w, p) && p in w.ops && w.ops[p] == op && op.Job?
    requires op.stage == Inserting(q) && q !in w.ports
    requires w' == InsertPort(w, p, op, q)
    ensures Local(w', p)
  {
    assert forall r, x :: Holds(w', r, x) <==> Holds(w, r, x) || (r == q && x == op.id);
    assert forall x :: Of(w, x, p) ==> (IsLatest(w, x) <==> IsLatest(w', x)) && !Released(w, x) && !Released(w', x);
    assert InHand(w', q, op.id);
  }

  lemma InsertKeeps(w: World, p: nat, op: Op, q: nat)
    requires AtJob(w, p, op) && op.stage == Inserting(q)
    ensures Kept(w, InsertPort(w, p, op, q), p)
  {
    Unpack(w, p, op);
    var w' := InsertPort(w, p, op, q);
    if q in w.ports {
      StageKeeps(w, p, op, op.(stage := Failing));
    } else {
      assert forall r, x :: Holds(w', r, x) <==> Holds(w, r, x) || (r == q && x == op.id);
      StepFrame(w, w', p, op.id, q);
      InsertLocal(w, w', p, op, q);
      Assemble(w, w', p, w.projects[p]);
    }
  }

  lemma StartKeeps(w: World, p: nat, op: Op)
    requires AtJob(w, p, op) && op.stage.Starting?
    ensures Kept(w, StartContainer(w, p, op), p)
  {
    Unpack(w, p, op);
    var w' := StartContainer(w, p, op);
    assert forall q, x :: Holds(w, q, x) <==> Holds(w', q, x);
    StepFrame(w, w', p, op.id, 0);
    Assemble(w, w', p, w.projects[p]);
  }

  lemma UnwindLocal(w: World, w': World, p: nat, op: Op)
    requires RowsOK(w) && Local(w, p) && p in w.ops && w.ops[p] == op && op.Job? && op.stage.Unwinding?
    requires w' == Unwind(w, p, op)
    ensures Local(w', p)
  {
    assert forall q, x :: Holds(w', q, x) <==> Holds(w, q, x) && q != op.port;
    assert forall x :: Of(w, x, p) ==> (IsLatest(w, x) <==> IsLatest(w', x)) && !Released(w, x) && !Released(w', x);
  }

  lemma UnwindKeeps(w: World, p: nat, op: Op)
    requires AtJob(w, p, op) && op.stage.Unwinding?
    ensures Kept(w, Unwind(w, p, op), p)
  {
    Unpack(w, p, op);
    var w' := Unwind(w, p, op);
    assert forall q, x :: Holds(w', q, x) <==> Holds(w, q, x) && q != op.port;
    UnwindLocal(w, w', p, op);
    StepFrame(w, w', p, op.id, op.port);
    Assemble(w, w', p, w.projects[p]);
  }

  lemma FlipLocal(w: World, w': World, p: nat, op: Op, d: string)
    requires RowsOK(w) && Local(w, p) && p in w.ops && w.ops[p] == op && op.Job? && op.stage.Flipping?
    requires p in w.projects && w.projects[p] == d
    requires w' == FlipRoute(w, p, op, d, Upstream(op.port), Draining(ListDeployments(w, p), ToRemove))
    ensures Local(w', p)
  {
    ListIsComplete(w.rows, p, w.nextId);
    assert forall q, x :: Holds(w, q, x) <==> Holds(w', q, x);
    assert RouteOwner(w', d) == Some(op.id);
    assert forall x :: Of(w, x, p) ==> (IsLatest(w, x) <==> IsLatest(w', x)) && !Released(w, x) && !Released(w', x);
  }

  lemma FlipKeeps(w: World, p: nat, op: Op, d: string)
    requires AtJob(w, p, op) && op.stage.Flipping? && p in w.projects && w.projects[p] == d
    ensures Kept(w, FlipRoute(w, p, op, d, Upstream(op.port), Draining(ListDeployments(w, p), ToRemove)), p)
  {
    Unpack(w, p, op);
    var w' := FlipRoute(w, p, op, d, Upstream(op.port), Draining(ListDeployments(w, p), ToRemove));
    FlipLocal(w, w', p, op, d);
    assert forall q, x :: Holds(w, q, x) <==> Holds(w', q, x);
    assert RouteOwner(w', d) == Some(op.id);
    StepFrame(w, w', p, op.id, 0);
    Assemble(w, w', p, d);
  }

  lemma StaticKeeps(w: World, p: nat, op: Op, d: string)
    requires AtJob(w, p, op) && op.stage.SavingStatic? && p in w.projects && w.projects[p] == d
    ensures Kept(w, FlipRoute(w, p, op, d, Static, Finishing), p)
  {
    Unpack(w, p, op);
    var w' := FlipRoute(w, p, op, d, Static, Finishing);
    assert forall q, x :: Holds(w, q, x) <==> Holds(w', q, x);
    StepFrame(w, w', p, op.id, 0);
    Assemble(w, w', p, d);
  }

  lemma DrainRemoveLocal(w: World, w': World, p: nat, op: Op, x: nat, ok: bool)
    requires RowsOK(w) && Local(w, p) && p in w.ops && w.ops[p] == op && op.Job? && op.stage.Draining?
    requires op.stage.todo != [] && op.stage.todo[0] == x && op.stage.at == ToRemove && !Skips(w, op.id, x)
    requires w' == DrainRemove(w, p, op, x, ok)
    ensures Local(w', p)
  {
    assert forall d :: RouteOwner(w, d) == RouteOwner(w', d);
    assert forall y :: Of(w, y, p) ==> (IsLatest(w, y) <==> IsLatest(w', y)) && !Released(w, y) && !Released(w', y);
    assert forall q, y :: Holds(w, q, y) <==> Holds(w', q, y);
  }

  lemma DrainRemoveKeeps(w: World, p: nat, op: Op, x: nat, ok: bool)
    requires AtJob(w, p, op) && op.stage.Draining? && op.stage.todo != [] && op.stage.todo[0] == x
    requires op.stage.at == ToRemove && !Skips(w, op.id, x)
    ensures Kept(w, DrainRemove(w, p, op, x, ok), p)
  {
    Unpack(w, p, op);
    var w' := DrainRemove(w, p, op, x, ok);
    assert forall q, y :: Holds(w, q, y) <==> Holds(w', q, y);
    StepFrame(w, w', p, x, 0);
    DrainRemoveLocal(w, w', p, op, x, ok);
    Assemble(w, w', p, w.projects[p]);
  }

  lemma DrainReleaseLocal(w: World, w': World, p: nat, op: Op, x: nat)
    requires RowsOK(w) && Local(w, p) && p in w.ops && w.ops[p] == op && op.Job? && op.stage.Draining?
    requires op.stage.todo != [] && op.stage.todo[0] == x && op.stage.at == ToRelease && x in w.rows
    requires forall q, y :: Holds(w', q, y) <==> Holds(w, q, y) && y != x
    requires w' == DrainRelease(w, p, op, x)
    ensures Local(w', p)
  {
    assert forall d, y :: RouteOwner(w', d) == Some(y) ==> RouteOwner(w, d) == Some(y);
    assert forall y :: Of(w, y, p) ==>
           (IsLatest(w, y) <==> IsLatest(w', y)) && !Released(w, y) && (Released(w', y) <==> y == x);
  }

  lemma DrainReleaseKeeps(w: World, p: nat, op: Op, x: nat)
    requires AtJob(w, p, op) && op.stage.Draining? && op.stage.todo != [] && op.stage.todo[0] == x
    requires op.stage.at == ToRelease && x in w.rows
    ensures Kept(w, DrainRelease(w, p, op, x), p)
  {
    Unpack(w, p, op);
    var w' := DrainRelease(w, p, op, x);
    assert Of(w, x, p) && Owner(w, x);
    assert Holds(w, w.rows[x].port, x);
    forall q | Holds(w, q, x) ensures q == w.rows[x].port {
      assert !InHand(w, q, x);
    }
    assert forall q, y :: Holds(w', q, y) <==> Holds(w, q, y) && y != x;
    StepFrame(w, w', p, x, w.rows[x].port);
    DrainReleaseLocal(w, w', p, op, x);
    Assemble(w, w', p, w.projects[p]);
  }

  lemma DrainMarkLocal(w: World, w': World, p: nat, op: Op, x: nat)
    requires RowsOK(w) && Local(w, p) && p in w.ops && w.ops[p] == op && op.Job? && op.stage.Draining?
    requires op.stage.todo != [] && op.stage.todo[0] == x && op.stage.at == ToMark && x in w.rows
    requires w' == DrainMark(w, p, op, x)
    ensures Local(w', p)
  {
    assert Of(w, x, p) && x != op.id;
    SameLatest(w, w', x);
    NotLatest(w, x, op.id);
    assert forall d :: RouteOwner(w, d) == RouteOwner(w', d);
    assert forall y :: Of(w, y, p) ==> !Released(w', y) && (Released(w, y) <==> y == x);
    assert forall q, y :: Holds(w, q, y) <==> Holds(w', q, y);
  }

  lemma DrainMarkKeeps(w: World, p: nat, op: Op, x: nat)
    requires AtJob(w, p, op) && op.stage.Draining? && op.stage.todo != [] && op.stage.todo[0] == x
    requires op.stage.at == ToMark && x in w.rows
    ensures Kept(w, DrainMark(w, p, op, x), p)
  {
    Unpack(w, p, op);
    var w' := DrainMark(w, p, op, x);
    DrainMarkLocal(w, w', p, op, x);
    assert forall q, y :: Holds(w, q, y) <==> Holds(w', q, y);
    StepFrame(w, w', p, x, 0);
    Assemble(w, w', p, w.projects[p]);
  }

  lemma EndLocal(w: World, w': World, p: nat, op: Op, status: Status)
    requires PortsOK(w) && Local(w, p) && p in w.ops && w.ops[p] == op && op.Job?
    requires (op.stage.Finishing? || op.stage.Failing?) && status != Stopped && w' == EndJob(w, p, op, status)
    ensures Local(w', p)
  {
    SameLatest(w, w', op.id);
    assert forall x :: Of(w, x, p) ==> !Released(w, x) && !Released(w', x) && !Torn(w, x);
    assert forall q, y :: Holds(w, q, y) <==> Holds(w', q, y);
    assert forall x :: Of(w, x, p) && IsLatest(w, x) ==> x == op.id;
  }

  lemma EndKeeps(w: World, p: nat, op: Op, status: Status)
    requires AtJob(w, p, op) && (op.stage.Finishing? || op.stage.Failing?) && status != Stopped
    ensures Kept(w, EndJob(w, p, op, status), p)
  {
    Unpack(w, p, op);
    var w' := EndJob(w, p, op, status);
    EndLocal(w, w', p, op, status);
    assert forall q, x :: Holds(w, q, x) <==> Holds(w', q, x);
    StepFrame(w, w', p, op.id, 0);
    Assemble(w, w', p, w.projects[p]);
  }

  lemma BeginLocal(w: World, w': World, p: nat, commit: string, img: nat, stage: Stage)
    requires RowsOK(w) && PortsOK(w) && OwnersExist(w) && Local(w, p)
    requires Idle(w, p) && (stage.Syncing? || stage == Selecting(PORT_LO))
    requires w' == Begin(w, p, commit, img, stage)
    ensures Local(w', p)
  {
    assert Of(w', w.nextId, p);
    assert forall q, y :: Holds(w, q, y) <==> Holds(w', q, y);
    forall x | Of(w, x, p) ensures !Released(w, x) && !Torn(w, x) && !Released(w', x) && !IsLatest(w', x) {
      NotLatest(w', x, w.nextId);
    }
  }

  lemma BeginFrame(w: World, w': World, p: nat, commit: string, img: nat, stage: Stage)
    requires RowsOK(w) && OwnersExist(w) && Idle(w, p) && w' == Begin(w, p, commit, img, stage)
    ensures Frame(w, w', p)
  {
    assert forall q, x :: Holds(w, q, x) <==> Holds(w', q, x);
    assert forall d :: RouteOwner(w, d) == RouteOwner(w', d);
  }

  lemma BeginKeeps(w: World, p: nat, commit: string, img: nat, stage: Stage)
    requires Inv(w) && Idle(w, p) && (stage.Syncing? || stage == Selecting(PORT_LO))
    ensures Kept(w, Begin(w, p, commit, img, stage), p)
  {
    assert Local(w, p);
    var w' := Begin(w, p, commit, img, stage);
    assert forall q, x :: Holds(w, q, x) <==> Holds(w', q, x);
    BeginLocal(w, w', p, commit, img, stage);
    BeginFrame(w, w', p, commit, img, stage);
    Assemble(w, w', p, w.projects[p]);
  }

  lemma StopLocal(w: World, w': World, p: nat, x: nat)
    requires RowsOK(w) && Local(w, p) && Idle(w, p) && Of(w, x, p) && IsLatest(w, x) && w' == StopRow(w, x)
    ensures Local(w', p)
  {
    SameLatest(w, w', x);
    assert forall y :: Of(w, y, p) ==> !Released(w, y) && !Torn(w, y);
    assert forall q, y :: Holds(w, q, y) <==> Holds(w', q, y);
  }

  lemma StopKeeps(w: World, p: nat, x: nat)
    requires Inv(w) && Idle(w, p) && Of(w, x, p) && IsLatest(w, x)
    ensures Kept(w, StopRow(w, x), p)
  {
    assert Local(w, p);
    var w' := StopRow(w, x);
    assert forall q, y :: Holds(w, q, y) <==> Holds(w', q, y);
    StopLocal(w, w', p, x);
    StepFrame(w, w', p, x, 0);
    Assemble(w, w', p, w.projects[p]);
  }

  lemma ScrapPorts(w: World, d: string, x: nat, ok: bool)
    requires x in w.rows && (w.rows[x].port != 0 ==> Holds(w, w.rows[x].port, x))
    requires forall q :: Holds(w, q, x) ==> q == w.rows[x].port && q != 0
    ensures forall q, y :: Holds(ScrapRow(w, d, x, ok), q, y) <==> Holds(w, q, y) && y != x
  {
  }

  lemma ScrapHolds(w: World, p: nat, x: nat, ok: bool)
    requires Inv(w) && Idle(w, p) && Of(w, x, p) && IsLatest(w, x)
    ensures var w' := SetOp(ScrapRow(w, w.projects[p], x, ok), p, Teardown);
            forall q, y :: Holds(w', q, y) <==> Holds(w, q, y) && y != x
    ensures w.rows[x].port != 0 ==> Holds(w, w.rows[x].port, x)
  {
    assert Local(w, p);
    var w' := SetOp(ScrapRow(w, w.projects[p], x, ok), p, Teardown);
    assert w.rows[x].port != 0 ==> Owner(w, x) && Holds(w, w.rows[x].port, x);
    forall q, y | Of(w, y, p) && Holds(w, q, y) ensures q == w.rows[y].port {
      assert !InHand(w, q, y);
    }
    assert forall q :: Holds(w, q, x) ==> q == w.rows[x].port && q != 0;
    ScrapPorts(w, w.projects[p], x, ok);
    assert forall q, y :: Holds(w', q, y) <==> Holds(ScrapRow(w, w.projects[p], x, ok), q, y);
  }

  lemma ScrapRoute(w: World, p: nat, x: nat, ok: bool)
    requires Inv(w) && Idle(w, p) && Of(w, x, p) && IsLatest(w, x)
    ensures var d, w' := w.projects[p], SetOp(ScrapRow(w, w.projects[p], x, ok), p, Teardown);
            d !in w'.exposed ==> RouteOK(w', d)
  {
    var d, w' := w.projects[p], SetOp(ScrapRow(w, w.projects[p], x, ok), p, Teardown);
    ScrapHolds(w, p, x, ok);
    assert Local(w, p);
    if d !in w'.exposed && d in w.routes && w.routes[d].Upstream? {
      assert RouteOK(w, d);
      assert Holds(w, w.routes[d].port, RouteOwner(w, d).value);
    }
  }

  lemma ScrapKeeps(w: World, p: nat, x: nat, ok: bool)
    requires Inv(w) && Idle(w, p) && Of(w, x, p) && IsLatest(w, x)
    ensures Kept(w, SetOp(ScrapRow(w, w.projects[p], x, ok), p, Teardown), p)
  {
    assert Local(w, p);
    var w' := SetOp(ScrapRow(w, w.projects[p], x, ok), p, Teardown);
    ScrapHolds(w, p, x, ok);
    ScrapRoute(w, p, x, ok);
    assert forall q, y | Of(w, y, p) :: Holds(w, q, y) ==> !InHand(w, q, y);
    assert forall y :: Of(w, y, p) ==> Torn(w', y);
    StepFrame(w, w', p, x, w.rows[x].port);
    Assemble(w, w', p, w.projects[p]);
  }

  lemma TeardownHolds(w: World, w': World, p: nat, ok: bool)
    requires p in w.projects && w' == FinishTeardown(w, p, w.projects[p], ok)
    ensures forall q, x :: Holds(w', q, x) <==> Holds(w, q, x) && !Of(w, x, p)
  {
    forall q, x ensures Holds(w', q, x) <==> Holds(w, q, x) && !Of(w, x, p) {
      assert q in w'.ports <==> q in w.ports;
    }
  }

  lemma TeardownOwners(w: World, w': World, p: nat, ok: bool, x: nat, d: string)
    requires p in w.projects && w' == FinishTeardown(w, p, w.projects[p], ok) && RouteOwner(w', d) == Some(x)
    ensures RouteOwner(w, d) == Some(x)
  {
    TeardownHolds(w, w', p, ok);
    assert Holds(w', w'.routes[d].port, x);
  }

  lemma TeardownFrame(w: World, w': World, p: nat, ok: bool)
    requires Inv(w) && p in w.projects && w' == FinishTeardown(w, p, w.projects[p], ok)
    ensures Frame(w, w', p)
  {
    TeardownHolds(w, w', p, ok);
    forall x, d | x in w.rows && w.rows[x].project != p && RouteOwner(w', d) == Some(x)
      ensures RouteOwner(w, d) == Some(x)
    {
      TeardownOwners(w, w', p, ok, x, d);
    }
  }

  lemma FinishTeardownKeeps(w: World, p: nat, ok: bool)
    requires Inv(w) && p in w.ops && w.ops[p].Teardown? && p in w.projects
    ensures Kept(w, FinishTeardown(w, p, w.projects[p], ok), p)
  {
    assert Local(w, p);
    var w' := FinishTeardown(w, p, w.projects[p], ok);
    TeardownHolds(w, w', p, ok);
    TeardownFrame(w, w', p, ok);
    Assemble(w, w', p, w.projects[p]);
  }

  lemma CreateKeeps(w: World, p: nat, d: string)
    requires Inv(w) && p !in w.projects
    ensures Kept(w, Next(w, Create(p, d)), p)
  {
    assert Local(w, p);
    var w' := Next(w, Create(p, d));
    assert forall q, x :: Holds(w, q, x) <==> Holds(w', q, x);
    assert d !in w.exposed ==> RouteOK(w, d);
    assert Frame(w, w', p);
    Assemble(w, w', p, d);
  }

  lemma DrainKeeps(w: World, p: nat, op: Op, env: Env)
    requires AtJob(w, p, op) && op.stage.Draining?
    ensures Kept(w, AdvanceDrain(w, p, op, env), p)
  {
    Unpack(w, p, op);
    var todo := op.stage.todo;
    if todo == [] {
      StageKeeps(w, p, op, op.(stage := Finishing));
    } else {
      assert todo[0] in todo;
      match op.stage.at {
        case ToRemove =>
          if Skips(w, op.id, todo[0]) {
            StageKeeps(w, p, op, op.(stage := Draining(todo[1..], ToRemove)));
          } else {
            DrainRemoveKeeps(w, p, op, todo[0], env.ok);
          }
        case ToRelease => DrainReleaseKeeps(w, p, op, todo[0]);
        case ToMark => DrainMarkKeeps(w, p, op, todo[0]);
      }
    }
  }

  lemma EarlyKeeps(w: World, p: nat, op: Op, env: Env)
    requires AtJob(w, p, op) && p in w.projects
    requires op.stage.Syncing? || op.stage.Compiling? || op.stage.Selecting? || op.stage.Probing?
    ensures Kept(w, AdvanceJob(w, p, op, w.projects[p], env), p)
  {
    Unpack(w, p, op);
    if op.stage.Compiling? && env.ok {
      CompileKeeps(w, p, op);
    } else {
      var w' := AdvanceJob(w, p, op, w.projects[p], env);
      var op' := w'.ops[p];
      assert w' == SetOp(w, p, op');
      StageKeeps(w, p, op, op');
    }
  }

  lemma JobKeeps(w: World, p: nat, op: Op, env: Env)
    requires AtJob(w, p, op) && p in w.projects
    ensures Kept(w, AdvanceJob(w, p, op, w.projects[p], env), p)
  {
    Unpack(w, p, op);
    match op.stage {
      case Inserting(q) => InsertKeeps(w, p, op, q);
      case Unwinding => UnwindKeeps(w, p, op);
      case Draining(_, _) => DrainKeeps(w, p, op, env);
      case Finishing => EndKeeps(w, p, op, Running);
      case Failing => EndKeeps(w, p, op, Failed);
      case SavingStatic =>
        if env.ok { StaticKeeps(w, p, op, w.projects[p]); } else { StageKeeps(w, p, op, op.(stage := Failing)); }
      case Starting =>
        if env.ok { StartKeeps(w, p, op); } else { StageKeeps(w, p, op, op.(stage := Unwinding)); }
      case Flipping =>
        if env.ok { FlipKeeps(w, p, op, w.projects[p]); } else { StageKeeps(w, p, op, op.(stage := Failing)); }
      case _ => EarlyKeeps(w, p, op, env);
    }
  }

  lemma LatestIsLatest(w: World, p: nat, x: nat)
    requires RowsOK(w) && LatestDeployment(w, p) == Some(x)
    ensures Of(w, x, p) && IsLatest(w, x)
  {
    ListIsComplete(w.rows, p, w.nextId);
    var all := ListDeployments(w, p);
    assert all[0] in all;
    forall y: nat | Of(w, y, p) ensures y <= x {
      var j :| 0 <= j < |all| && all[j] == y;
    }
  }

  lemma RowlessKeeps(w: World, p: nat)
    requires Inv(w) && Idle(w, p) && LatestDeployment(w, p).None?
    ensures Kept(w, SetOp(w, p, Teardown), p)
  {
    var w' := SetOp(w, p, Teardown);
    ListIsComplete(w.rows, p, w.nextId);
    forall x: nat ensures !Of(w, x, p) {
      assert x !in ListDeployments(w, p);
    }
    assert Local(w, p);
    assert forall q, y :: Holds(w, q, y) <==> Holds(w', q, y);
    assert forall d :: RouteOK(w, d) ==> RouteOK(w', d);
    assert Frame(w, w', p);
    Assemble(w, w', p, w.projects[p]);
  }

  /** Domain `d` is not the project's own. */
  predicate Foreign(w: World, p: nat, d: string)
  {
    !(p in w.projects && w.projects[p] == d)
  }

  /** The routes of other domains are as they were, and as exposed as they were;
      the own domain is exposed by a teardown only. */
  ghost predicate RoutesAside(w: World, e: Event, w': World)
  {
    && (forall d :: Foreign(w, e.project, d) ==>
          (d in w'.routes <==> d in w.routes) && (d in w.routes ==> w'.routes[d] == w.routes[d]) &&
              (d in w'.exposed <==> d in w.exposed))
    && (w'.exposed <= w.exposed || e.BeginRemove? || (e.Advance? && e.project in w.ops && w.ops[e.project].Teardown?))
  }

  lemma DrainRoutesAside(w: World, p: nat, op: Op, env: Env)
    requires op.Job? && op.stage.Draining?
    ensures AdvanceDrain(w, p, op, env).routes == w.routes && AdvanceDrain(w, p, op, env).exposed == w.exposed
  {
    match op.stage.at {
      case ToRemove =>
      case ToRelease =>
      case ToMark =>
    }
  }

  /** The steps before the container is up. */
  lemma EarlyJobIsQuiet(w: World, p: nat, op: Op, d: string, env: Env)
    requires op.Job?
    requires (op.stage.Syncing? || op.stage.Compiling? || op.stage.Selecting? || op.stage.Inserting? ||
             op.stage.Starting?)
    ensures AdvanceJob(w, p, op, d, env).routes == w.routes && AdvanceJob(w, p, op, d, env).exposed == w.exposed
  {
  }

  /** And those after, but for the flip. */
  lemma LateJobIsQuiet(w: World, p: nat, op: Op, d: string, env: Env)
    requires op.Job? && (op.stage.Unwinding? || op.stage.Probing? || op.stage.Finishing? || op.stage.Failing?)
    ensures AdvanceJob(w, p, op, d, env).routes == w.routes && AdvanceJob(w, p, op, d, env).exposed == w.exposed
  {
  }

  lemma QuietJob(w: World, p: nat, op: Op, d: string, env: Env)
    requires op.Job? && !op.stage.Flipping? && !op.stage.SavingStatic?
    ensures AdvanceJob(w, p, op, d, env).routes == w.routes && AdvanceJob(w, p, op, d, env).exposed == w.exposed
  {
    if op.stage.Draining? {
      DrainRoutesAside(w, p, op, env);
    } else if op.stage.Unwinding? || op.stage.Probing? || op.stage.Finishing? || op.stage.Failing? {
      LateJobIsQuiet(w, p, op, d, env);
    } else {
      EarlyJobIsQuiet(w, p, op, d, env);
    }
  }

  lemma FlippingJob(w: World, p: nat, op: Op, d: string, env: Env)
    requires op.Job? && (op.stage.Flipping? || op.stage.SavingStatic?)
    ensures var w' := AdvanceJob(w, p, op, d, env);
            || (w'.routes == w.routes && w'.exposed == w.exposed)
            || (d in w'.routes && w'.routes == w.routes[d := w'.routes[d]] && w'.exposed == w.exposed - {d})
  {
  }

  lemma NextRoutesAside(w: World, e: Event)
    ensures RoutesAside(w, e, Next(w, e))
  {
    var p := e.project;
    if e.Advance? && p in w.ops && p in w.projects && w.ops[p].Job? {
      var op := w.ops[p];
      if op.stage.Flipping? || op.stage.SavingStatic? {
        FlippingJob(w, p, op, w.projects[p], e.env);
      } else {
        QuietJob(w, p, op, w.projects[p], e.env);
      }
    }
  }

  lemma NextKeeps(w: World, e: Event)
    requires Inv(w)
    ensures Kept(w, Next(w, e), e.project) && RoutesAside(w, e, Next(w, e))
  {
    NextRoutesAside(w, e);
    match e {
      case Create(p, d) => if p !in w.projects { CreateKeeps(w, p, d); }
      case BeginDeploy(p) => if Idle(w, p) { BeginKeeps(w, p, "", 0, Syncing); }
      case BeginRollback(p, t) =>
        if Idle(w, p) && t in w.rows && w.rows[t].project == p && w.rows[t].image.Some? {
          BeginKeeps(w, p, w.rows[t].commit, w.rows[t].image.value, Selecting(PORT_LO));
        }
      case Stop(p, ok) =>
        if Idle(w, p) && LatestDeployment(w, p).Some? {
          LatestIsLatest(w, p, LatestDeployment(w, p).value);
          StopKeeps(w, p, LatestDeployment(w, p).value);
        }
      case BeginRemove(p, ok) =>
        if Idle(w, p) {
          match LatestDeployment(w, p) {
            case None => RowlessKeeps(w, p);
            case Some(x) =>
              LatestIsLatest(w, p, x);
              ScrapKeeps(w, p, x, ok);
          }
        }
      case Advance(p, env) =>
        if p in w.ops && p in w.projects {
          if w.ops[p].Teardown? {
            FinishTeardownKeeps(w, p, env.ok);
          } else {
            JobKeeps(w, p, w.ops[p], env);
          }
        }
    }
  }

  lemma {:induction false} RunKeeps(events: seq<Event>)
    ensures Inv(Run(events))
  {
    if events != [] {
      RunKeeps(events[..|events| - 1]);
      NextKeeps(Run(events[..|events| - 1]), events[|events| - 1]);
    }
  }
}
