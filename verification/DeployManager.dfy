/** The deploy manager as the object the program runs: tables, containers and
    routes updated in place, statement by statement. Every method is proved to be
    a run of the step machine, so each result about runs is one about it. */
module DeployManager {
  import opened Options
  import opened ControlPlane
  import opened ControlPlaneSafety

  /** `events` leads from `w` to `w'`. */
  ghost predicate Leads(w: World, events: seq<Event>, w': World)
  {
    From(w, events) == w'
  }

  ghost predicate At(w: World, p: nat, op: Op)
  {
    p in w.projects && p in w.ops && w.ops[p] == op && op.Job?
  }

  const YES := Env(true, false, "")
  const NO := Env(false, false, "")

  // ---- each statement is one step ----

  lemma Onward(w: World, events: seq<Event>, w1: World, e: Event)
    requires Leads(w, events, w1)
    ensures Leads(w, events + [e], Next(w1, e))
  {
    assert (events + [e])[..|events|] == events;
  }

  lemma BegunDeploy(w: World, events: seq<Event>, w1: World, p: nat)
    requires Leads(w, events, w1) && Idle(w1, p)
    ensures Leads(w, events + [BeginDeploy(p)], Begin(w1, p, "", 0, Syncing))
  {
    Onward(w, events, w1, BeginDeploy(p));
  }

  lemma BegunRollback(w: World, events: seq<Event>, w1: World, p: nat, t: nat)
    requires Leads(w, events, w1) && Idle(w1, p) && t in w1.rows && w1.rows[t].project == p && w1.rows[t].image.Some?
    ensures Leads(w, events + [BeginRollback(p, t)],
            Begin(w1, p, w1.rows[t].commit, w1.rows[t].image.value, Selecting(PORT_LO)))
  {
    Onward(w, events, w1, BeginRollback(p, t));
  }

  lemma Synced(w: World, events: seq<Event>, w1: World, p: nat, op: Op, isStatic: bool, commit: string)
    requires Leads(w, events, w1) && At(w1, p, op) && op.stage.Syncing?
    ensures Leads(w, events + [Advance(p, Env(true, isStatic, commit))],
                  var stage := if isStatic then SavingStatic else Compiling;
                  SetOp(w1, p, op.(rec := op.rec.(commit := commit), stage := stage)))
  {
    Onward(w, events, w1, Advance(p, Env(true, isStatic, commit)));
  }

  predicate Breakable(op: Op)
    requires op.Job?
  {
    || op.stage.Syncing? || op.stage.SavingStatic? || op.stage.Compiling? || op.stage.Probing? || op.stage.Flipping?
    || (op.stage.Selecting? && op.stage.candidate > PORT_HI)
  }

  lemma BreakIsFailing(w1: World, p: nat, op: Op, d: string)
    requires op.Job? && Breakable(op)
    ensures AdvanceJob(w1, p, op, d, NO) == SetOp(w1, p, op.(stage := Failing))
  {
    match op.stage {
      case Syncing =>
      case SavingStatic =>
      case Compiling =>
      case Probing =>
      case Flipping =>
      case Selecting(_) =>
    }
  }

  lemma Broke(w: World, events: seq<Event>, w1: World, p: nat, op: Op)
    requires Leads(w, events, w1) && At(w1, p, op) && Breakable(op)
    ensures Leads(w, events + [Advance(p, NO)], SetOp(w1, p, op.(stage := Failing)))
  {
    Onward(w, events, w1, Advance(p, NO));
    BreakIsFailing(w1, p, op, w1.projects[p]);
  }

  lemma Compiled(w: World, events: seq<Event>, w1: World, p: nat, op: Op)
    requires Leads(w, events, w1) && At(w1, p, op) && op.stage.Compiling?
    ensures Leads(w, events + [Advance(p, YES)], Compile(w1, p, op))
  {
    Onward(w, events, w1, Advance(p, YES));
  }

  lemma Selected(w: World, events: seq<Event>, w1: World, p: nat, op: Op, q: nat)
    requires Leads(w, events, w1) && At(w1, p, op) && op.stage == Selecting(q) && q <= PORT_HI
    ensures Leads(w, events + [Advance(p, YES)],
            SetOp(w1, p, op.(stage := if q in w1.ports then Selecting(q + 1) else Inserting(q))))
  {
    Onward(w, events, w1, Advance(p, YES));
  }

  lemma Inserted(w: World, events: seq<Event>, w1: World, p: nat, op: Op, q: nat)
    requires Leads(w, events, w1) && At(w1, p, op) && op.stage == Inserting(q)
    ensures Leads(w, events + [Advance(p, YES)], InsertPort(w1, p, op, q))
  {
    Onward(w, events, w1, Advance(p, YES));
  }

  lemma Started(w: World, events: seq<Event>, w1: World, p: nat, op: Op)
    requires Leads(w, events, w1) && At(w1, p, op) && op.stage.Starting?
    ensures Leads(w, events + [Advance(p, YES)], StartContainer(w1, p, op))
  {
    Onward(w, events, w1, Advance(p, YES));
  }

  lemma NotStarted(w: World, events: seq<Event>, w1: World, p: nat, op: Op)
    requires Leads(w, events, w1) && At(w1, p, op) && op.stage.Starting?
    ensures Leads(w, events + [Advance(p, NO)], SetOp(w1, p, op.(stage := Unwinding)))
  {
    Onward(w, events, w1, Advance(p, NO));
  }

  lemma Unwound(w: World, events: seq<Event>, w1: World, p: nat, op: Op)
    requires Leads(w, events, w1) && At(w1, p, op) && op.stage.Unwinding?
    ensures Leads(w, events + [Advance(p, YES)], Unwind(w1, p, op))
  {
    Onward(w, events, w1, Advance(p, YES));
  }

  lemma Probed(w: World, events: seq<Event>, w1: World, p: nat, op: Op)
    requires Leads(w, events, w1) && At(w1, p, op) && op.stage.Probing?
    ensures Leads(w, events + [Advance(p, YES)], SetOp(w1, p, op.(stage := Flipping)))
  {
    Onward(w, events, w1, Advance(p, YES));
  }

  lemma Flipped(w: World, events: seq<Event>, w1: World, p: nat, op: Op)
    requires Leads(w, events, w1) && At(w1, p, op) && op.stage.Flipping?
    ensures Leads(w, events + [Advance(p, YES)],
                  FlipRoute(w1, p, op, w1.projects[p], Upstream(op.port), Draining(ListDeployments(w1, p), ToRemove)))
  {
    Onward(w, events, w1, Advance(p, YES));
  }

  lemma SavedStatic(w: World, events: seq<Event>, w1: World, p: nat, op: Op)
    requires Leads(w, events, w1) && At(w1, p, op) && op.stage.SavingStatic?
    ensures Leads(w, events + [Advance(p, YES)], FlipRoute(w1, p, op, w1.projects[p], Static, Finishing))
  {
    Onward(w, events, w1, Advance(p, YES));
  }

  lemma DrainDone(w: World, events: seq<Event>, w1: World, p: nat, op: Op)
    requires Leads(w, events, w1) && At(w1, p, op) && op.stage.Draining? && op.stage.todo == []
    ensures Leads(w, events + [Advance(p, YES)], SetOp(w1, p, op.(stage := Finishing)))
  {
    Onward(w, events, w1, Advance(p, YES));
  }

  lemma DrainSkipped(w: World, events: seq<Event>, w1: World, p: nat, op: Op)
    requires Leads(w, events, w1) && At(w1, p, op) && op.stage.Draining? && op.stage.at == ToRemove
    requires op.stage.todo != [] && Skips(w1, op.id, op.stage.todo[0])
    ensures Leads(w, events + [Advance(p, YES)], SetOp(w1, p, op.(stage := Draining(op.stage.todo[1..], ToRemove))))
  {
    Onward(w, events, w1, Advance(p, YES));
  }

  lemma DrainRemoved(w: World, events: seq<Event>, w1: World, p: nat, op: Op, ok: bool)
    requires Leads(w, events, w1) && At(w1, p, op) && op.stage.Draining? && op.stage.at == ToRemove
    requires op.stage.todo != [] && !Skips(w1, op.id, op.stage.todo[0])
    ensures Leads(w, events + [Advance(p, Env(ok, false, ""))], DrainRemove(w1, p, op, op.stage.todo[0], ok))
  {
    Onward(w, events, w1, Advance(p, Env(ok, false, "")));
  }

  lemma DrainReleased(w: World, events: seq<Event>, w1: World, p: nat, op: Op)
    requires Leads(w, events, w1) && At(w1, p, op) && op.stage.Draining? && op.stage.at == ToRelease
    requires op.stage.todo != [] && op.stage.todo[0] in w1.rows
    ensures Leads(w, events + [Advance(p, YES)], DrainRelease(w1, p, op, op.stage.todo[0]))
  {
    Onward(w, events, w1, Advance(p, YES));
  }

  lemma DrainMarked(w: World, events: seq<Event>, w1: World, p: nat, op: Op)
    requires Leads(w, events, w1) && At(w1, p, op) && op.stage.Draining? && op.stage.at == ToMark
    requires op.stage.todo != [] && op.stage.todo[0] in w1.rows
    ensures Leads(w, events + [Advance(p, YES)], DrainMark(w1, p, op, op.stage.todo[0]))
  {
    Onward(w, events, w1, Advance(p, YES));
  }

  lemma Succeeded(w: World, events: seq<Event>, w1: World, p: nat, op: Op)
    requires Leads(w, events, w1) && At(w1, p, op) && op.stage.Finishing?
    ensures Leads(w, events + [Advance(p, YES)], EndJob(w1, p, op, Running))
  {
    Onward(w, events, w1, Advance(p, YES));
  }

  lemma FailedAtLast(w: World, events: seq<Event>, w1: World, p: nat, op: Op)
    requires Leads(w, events, w1) && At(w1, p, op) && op.stage.Failing?
    ensures Leads(w, events + [Advance(p, YES)], EndJob(w1, p, op, Failed))
  {
    Onward(w, events, w1, Advance(p, YES));
  }

  /** What the agent, the disk and the network answer during one operation. */
  datatype Answers = Answers(synced: bool, isStatic: bool, commit: string, built: bool, started: bool, healthy: bool,
                             saved: bool, removed: nat -> bool)

  predicate LowestFree(ports: map<nat, Option<nat>>, q: nat)
  {
    PORT_LO <= q <= PORT_HI && q !in ports && forall r :: PORT_LO <= r < q ==> r in ports
  }

  predicate Room(ports: map<nat, Option<nat>>)
  {
    exists q :: PORT_LO <= q <= PORT_HI && q !in ports
  }

  /** What it takes for an image to go live. */
  predicate Runs(ports: map<nat, Option<nat>>, o: Answers)
  {
    Room(ports) && o.started && o.healthy && o.saved
  }

  /** What it takes for a deployment to succeed. */
  predicate Succeeds(ports: map<nat, Option<nat>>, o: Answers)
  {
    o.synced && if o.isStatic then o.saved else o.built && Runs(ports, o)
  }

  /** A failed operation leaves the routes, every container and every port held
      before as they were; only its own row tells of it. */
  ghost predicate LeftAlone(w: World, w': World, p: nat, id: nat)
  {
    && w'.projects == w.projects && w'.routes == w.routes && w'.ops == w.ops - {p}
    && w.containers <= w'.containers
    && (forall q :: q in w.ports ==> q in w'.ports && w'.ports[q] == w.ports[q])
    && id in w'.rows && w'.rows == w.rows[id := w'.rows[id]] && w'.rows[id].status == Failed
  }

  lemma FailedAlone(w: World, w': World, p: nat, id: nat)
    requires w'.projects == w.projects && w'.routes == w.routes && w'.ops == w.ops - {p}
    requires w.containers <= w'.containers && id in w'.rows && w'.rows[id].status == Failed
    requires w'.rows == w.rows[id := w'.rows[id]]
    requires forall q :: q in w.ports ==> q in w'.ports && w'.ports[q] == w.ports[q]
    ensures LeftAlone(w, w', p, id)
  {
  }

  /** What became of the new row of a deployment that got as far as its image: it
      has the port and the container it was given, if it was given them. */
  ghost predicate Gave(w: World, w': World, id: nat, dep: Row, img: nat, o: Answers)
  {
    && id in w'.rows
    && if Room(w.ports) && o.started then
         var q := w'.rows[id].port;
         && LowestFree(w.ports, q) && w'.ports == w.ports[q := Some(id)] && w'.containers == w.containers + {id}
         && w'.rows[id] == dep.(status := Failed, container := true, port := q, image := Some(img))
       else Untouched(w, w', id, dep)
  }

  /** It got nothing. */
  ghost predicate Untouched(w: World, w': World, id: nat, dep: Row)
  {
    w'.ports == w.ports && w'.containers == w.containers && id in w'.rows && w'.rows[id] == dep.(status := Failed)
  }

  /** A deployment of the project that a drain takes down. */
  predicate ToDrain(rows: map<nat, Row>, p: nat, keep: nat, x: nat)
  {
    x in rows && rows[x].project == p && x != keep && rows[x].container && rows[x].status != Stopped
  }

  function DrainedRows(rows: map<nat, Row>, p: nat, keep: nat, seen: set<nat>): map<nat, Row>
  {
    map x | x in rows :: if x in seen && ToDrain(rows, p, keep, x) then rows[x].(status := Stopped) else rows[x]
  }

  /** The containers the agent removes on the way. */
  function DrainedContainers(rows: map<nat, Row>, p: nat, keep: nat, seen: set<nat>, removed: nat -> bool): set<nat>
  {
    set x | x in seen && ToDrain(rows, p, keep, x) && removed(x)
  }

  /** The ports that are freed on the way. */
  function DrainedPorts(rows: map<nat, Row>, p: nat, keep: nat, seen: set<nat>): set<nat>
  {
    set x | x in seen && ToDrain(rows, p, keep, x) && rows[x].port != 0 :: rows[x].port
  }

  /** A deployment that went live: it has the lowest free port, the image and the
      commit it was to have, and the route; every other of the project that had a
      container and was not stopped is, its port is free, and its container is gone
      if the agent could remove it. Nothing else changed. */
  ghost predicate WentLive(w: World, w': World, p: nat, id: nat, dep: Row, img: nat, removed: nat -> bool)
  {
    && w'.projects == w.projects && p in w.projects && w'.ops == w.ops - {p} && id in w'.rows
    && var q, all := w'.rows[id].port, w.rows.Keys;
       && LowestFree(w.ports, q) && w'.routes == w.routes[w.projects[p] := Upstream(q)]
       && w'.rows == DrainedRows(w.rows, p, id, all)[id := w'.rows[id]]
       && w'.rows[id] == dep.(status := Running, container := true, port := q, image := Some(img))
       && w'.ports == w.ports[q := Some(id)] - DrainedPorts(w.rows, p, id, all)
       && w'.containers == (w.containers + {id}) - DrainedContainers(w.rows, p, id, all, removed)
  }

  /** The row itself does not count among those drained. */
  lemma LiveFromBefore(w: World, w1: World, w': World, p: nat, id: nat, dep: Row, img: nat, removed: nat -> bool)
    requires WentLive(w1, w', p, id, dep, img, removed) && id !in w.rows
    requires w1.projects == w.projects && w1.ports == w.ports && w1.containers == w.containers && w1.routes == w.routes
    requires id in w1.rows && w1.rows == w.rows[id := w1.rows[id]] && w1.ops - {p} == w.ops - {p}
    ensures WentLive(w, w', p, id, dep, img, removed)
  {
    var all, all1 := w.rows.Keys, w1.rows.Keys;
    assert forall x :: ToDrain(w1.rows, p, id, x) <==> ToDrain(w.rows, p, id, x);
    assert DrainedRows(w1.rows, p, id, all1)[id := w'.rows[id]] == DrainedRows(w.rows, p, id, all)[id := w'.rows[id]];
    assert DrainedPorts(w1.rows, p, id, all1) == DrainedPorts(w.rows, p, id, all);
    assert DrainedContainers(w1.rows, p, id, all1, removed) == DrainedContainers(w.rows, p, id, all, removed);
  }

  /** A static site that was saved is what the route serves now; nothing else changed. */
  ghost predicate WentStatic(w: World, w': World, p: nat, id: nat, dep: Row)
  {
    && p in w.projects && w'.projects == w.projects && w'.ops == w.ops - {p}
    && w'.routes == w.routes[w.projects[p] := Static] && w'.ports == w.ports && w'.containers == w.containers
    && w'.rows == w.rows[id := dep.(status := Running)]
  }

  /** A deployment of project `p` at its beginning, with the commit that was synced. */
  function Fetched(p: nat, o: Answers): Row
  {
    Row(p, Building, None, false, 0, if o.synced then o.commit else "")
  }

  /** How a failed deployment leaves its row: with the image if one was built, and
      whatever it was given after that. */
  ghost predicate Fell(w: World, w': World, id: nat, dep: Row, o: Answers)
  {
    if o.synced && !o.isStatic && o.built then Gave(w, w', id, dep.(image := Some(id)), id, o)
    else Untouched(w, w', id, dep)
  }

  /** The outcome of a deployment with row `dep`: live, static, or failed with
      everything else left alone. */
  ghost predicate Deployed(w: World, w': World, p: nat, id: nat, dep: Row, ok: bool, o: Answers)
  {
    && (ok && !o.isStatic ==> WentLive(w, w', p, id, dep, id, o.removed))
    && (ok && o.isStatic ==> WentStatic(w, w', p, id, dep))
    && (!ok ==> LeftAlone(w, w', p, id) && Fell(w, w', id, dep, o))
  }

  lemma DeployedFromBefore(w: World, w1: World, w': World, p: nat, id: nat, dep: Row, ok: bool, o: Answers)
    requires Deployed(w1, w', p, id, dep, ok, o) && id !in w.rows
    requires w1.projects == w.projects && w1.ports == w.ports && w1.containers == w.containers && w1.routes == w.routes
    requires id in w1.rows && w1.rows == w.rows[id := w1.rows[id]] && w1.ops - {p} == w.ops - {p}
    ensures Deployed(w, w', p, id, dep, ok, o)
  {
    if ok && !o.isStatic {
      LiveFromBefore(w, w1, w', p, id, dep, id, o.removed);
    }
  }

  /** The outcome of a rollback: the image and the commit of the target, live under
      a new row, or failed with everything else left alone. */
  ghost predicate RolledBack(w: World, w': World, p: nat, target: nat, id: nat, ok: bool, o: Answers)
  {
    && target in w.rows && w.rows[target].image.Some?
    && var dep, img := Row(p, Building, None, false, 0, w.rows[target].commit), w.rows[target].image.value;
       && (ok ==> WentLive(w, w', p, id, dep, img, o.removed))
       && (!ok ==> LeftAlone(w, w', p, id) && Gave(w, w', id, dep, img, o))
  }

  lemma {:induction false} FromKeeps(w: World, events: seq<Event>)
    requires Inv(w)
    ensures Inv(From(w, events))
  {
    if events != [] {
      FromKeeps(w, events[..|events| - 1]);
      NextKeeps(From(w, events[..|events| - 1]), events[|events| - 1]);
    }
  }

  /** What the drain has done after the rows it has seen. */
  ghost predicate Drained(w: World, w': World, p: nat, keep: nat, seen: set<nat>, removed: nat -> bool)
  {
    && w'.rows == DrainedRows(w.rows, p, keep, seen)
    && w'.containers == w.containers - DrainedContainers(w.rows, p, keep, seen, removed)
    && w'.ports == w.ports - DrainedPorts(w.rows, p, keep, seen)
  }

  /** What it does with one row. */
  ghost predicate DrainedOne(w: World, w': World, p: nat, keep: nat, x: nat, removed: bool)
  {
    && x in w.rows
    && var taken := ToDrain(w.rows, p, keep, x);
       && w'.rows == (if taken then w.rows[x := w.rows[x].(status := Stopped)] else w.rows)
       && w'.containers == w.containers - (if taken && removed then {x} else {})
       && w'.ports == w.ports - (if taken && w.rows[x].port != 0 then {w.rows[x].port} else {})
  }

  lemma PassedOver(w: World, w': World, p: nat, keep: nat, x: nat, removed: bool)
    requires Of(w, x, p) && !ToDrain(w.rows, p, keep, x)
    requires w'.rows == w.rows && w'.containers == w.containers && w'.ports == w.ports
    ensures DrainedOne(w, w', p, keep, x, removed)
  {
  }

  lemma TakenDown(w: World, w': World, p: nat, keep: nat, x: nat, removed: bool)
    requires ToDrain(w.rows, p, keep, x) && w'.rows == w.rows[x := w.rows[x].(status := Stopped)]
    requires w'.containers == if removed then w.containers - {x} else w.containers
    requires w'.ports == if w.rows[x].port != 0 then w.ports - {w.rows[x].port} else w.ports
    ensures DrainedOne(w, w', p, keep, x, removed)
  {
  }

  lemma DrainedNone(w: World, p: nat, keep: nat, removed: nat -> bool)
    ensures Drained(w, w, p, keep, {}, removed)
  {
  }

  lemma DrainedMore(w: World, w1: World, w2: World, p: nat, keep: nat, seen: set<nat>, x: nat, removed: nat -> bool)
    requires Drained(w, w1, p, keep, seen, removed) && DrainedOne(w1, w2, p, keep, x, removed(x)) && x in w.rows
    ensures Drained(w, w2, p, keep, seen + {x}, removed)
  {
    var more := seen + {x};
    assert w1.rows[x].port == w.rows[x].port;
    assert ToDrain(w1.rows, p, keep, x) <==> ToDrain(w.rows, p, keep, x) && x !in seen;
    assert w2.rows == DrainedRows(w.rows, p, keep, more);
    assert w2.containers == w.containers - DrainedContainers(w.rows, p, keep, more, removed);
    assert w2.ports == w.ports - DrainedPorts(w.rows, p, keep, more);
  }

  function Firsts(todo: seq<nat>, n: nat): (r: set<nat>)
    requires n <= |todo|
  {
    set x | x in todo[..n]
  }

  lemma OneFurther(w: World, w1: World, w2: World, p: nat, keep: nat, todo: seq<nat>, n: nat, removed: nat -> bool)
    requires n < |todo| && todo[n] in w.rows
    requires Drained(w, w1, p, keep, Firsts(todo, n), removed) && DrainedOne(w1, w2, p, keep, todo[n], removed(todo[n]))
    ensures Drained(w, w2, p, keep, Firsts(todo, n + 1), removed)
  {
    assert todo[..n + 1] == todo[..n] + [todo[n]];
    assert Firsts(todo, n + 1) == Firsts(todo, n) + {todo[n]};
    DrainedMore(w, w1, w2, p, keep, Firsts(todo, n), todo[n], removed);
  }

  lemma SameOwners(w: World, w': World, p: nat, keep: nat, seen: set<nat>, removed: nat -> bool, x: nat)
    requires Drained(w, w', p, keep, seen, removed) && Of(w, x, p)
    ensures Of(w', x, p)
  {
  }

  /** The drain after `n` rows of its list. */
  ghost predicate Midway(w: World, w': World, p: nat, keep: nat, todo: seq<nat>, n: nat, op: Op, removed: nat -> bool)
  {
    && n <= |todo| && op.Job? && Drained(w, w', p, keep, Firsts(todo, n), removed)
    && w'.ops == w.ops[p := op.(stage := Draining(todo[n..], ToRemove))]
  }

  lemma MidwayFirst(w: World, p: nat, keep: nat, todo: seq<nat>, op: Op, removed: nat -> bool)
    requires At(w, p, op) && op.stage == Draining(todo, ToRemove)
    ensures Midway(w, w, p, keep, todo, 0, op, removed)
  {
    DrainedNone(w, p, keep, removed);
    assert todo[0..] == todo && Firsts(todo, 0) == {};
  }

  lemma MidwayLast(w: World, w': World, p: nat, keep: nat, todo: seq<nat>, op: Op, removed: nat -> bool)
    requires Midway(w, w', p, keep, todo, |todo|, op, removed)
    ensures Drained(w, w', p, keep, Firsts(todo, |todo|), removed)
    ensures w'.ops == w.ops[p := op.(stage := Draining([], ToRemove))]
  {
    assert todo[|todo|..] == [];
  }

  /** It is enough to have seen the project's own rows. */
  lemma SeenEnough(rows: map<nat, Row>, p: nat, keep: nat, seen: set<nat>, removed: nat -> bool)
    requires forall x :: x in rows && rows[x].project == p ==> x in seen
    ensures DrainedRows(rows, p, keep, seen) == DrainedRows(rows, p, keep, rows.Keys)
    ensures DrainedContainers(rows, p, keep, seen, removed) == DrainedContainers(rows, p, keep, rows.Keys, removed)
    ensures DrainedPorts(rows, p, keep, seen) == DrainedPorts(rows, p, keep, rows.Keys)
  {
  }

  /** The project's newest deployment. */
  predicate Newest(rows: map<nat, Row>, p: nat, x: nat)
  {
    x in rows && rows[x].project == p && forall y :: y in rows && rows[y].project == p ==> y <= x
  }

  /** A stop marks the newest row and changes nothing else; its container must have
      stopped, if it has one. */
  ghost predicate Halted(w: World, w': World, p: nat, agentOK: bool)
  {
    exists x: nat :: Newest(w.rows, p, x) && (w.rows[x].container ==> agentOK)
      && w' == w.(rows := w.rows[x := w.rows[x].(status := Stopped)])
  }

  /** What can be taken away with a project: the newest container if the agent
      removes it, the newest row's port, every row, and the route if the site file
      can be deleted. A port recorded for another row of the project stays, with no
      owner. */
  ghost predicate Dismantled(w: World, w': World, p: nat, agentOK: bool, deleted: bool)
  {
    && p in w.projects && w'.projects == w.projects - {p} && w'.nextId == w.nextId && w'.ops == w.ops - {p}
    && w'.rows == (map x | x in w.rows && w.rows[x].project != p :: w.rows[x])
    && w'.routes == (if deleted then w.routes - {w.projects[p]} else w.routes)
    && (forall x :: x in w'.containers <==>
          x in w.containers && !(Newest(w.rows, p, x) && w.rows[x].container && agentOK))
    && (forall q :: q in w'.ports <==> q in w.ports && !NewestHas(w.rows, p, q))
    && (forall q :: q in w'.ports ==> w'.ports[q] == if HeldFor(w, p, q) then None else w.ports[q])
  }

  ghost predicate NewestHas(rows: map<nat, Row>, p: nat, q: nat)
  {
    q != 0 && exists x :: Newest(rows, p, x) && rows[x].port == q
  }

  ghost predicate HeldFor(w: World, p: nat, q: nat)
    requires q in w.ports
  {
    w.ports[q].Some? && Of(w, w.ports[q].value, p)
  }

  /** The head of the list is the newest row, and there is one if there is any. */
  lemma LatestIsNewest(w: World, p: nat)
    requires Inv(w)
    ensures forall x: nat :: LatestDeployment(w, p) == Some(x) <==> Newest(w.rows, p, x)
    ensures LatestDeployment(w, p).None? ==> forall x :: x in w.rows ==> w.rows[x].project != p
  {
    ListIsComplete(w.rows, p, w.nextId);
    if LatestDeployment(w, p).Some? {
      LatestIsLatest(w, p, LatestDeployment(w, p).value);
    }
  }

  /** The first half, in terms of the newest row. */
  lemma ScrappedSo(w: World, p: nat, agentOK: bool)
    requires Inv(w) && Idle(w, p)
    ensures var w1 := BeginTeardown(w, p, w.projects[p], agentOK);
            && w1.ops == w.ops[p := Teardown] && w1.nextId == w.nextId
            && w1.projects == w.projects && w1.rows == w.rows && w1.routes == w.routes
            && (forall x :: x in w1.containers <==>
                  x in w.containers && !(Newest(w.rows, p, x) && w.rows[x].container && agentOK))
            && (forall q :: q in w1.ports <==> q in w.ports && !NewestHas(w.rows, p, q))
            && (forall q :: q in w1.ports ==> w1.ports[q] == w.ports[q])
  {
    LatestIsNewest(w, p);
    var w1 := BeginTeardown(w, p, w.projects[p], agentOK);
    match LatestDeployment(w, p)
    case None =>
    case Some(x) =>
      assert Newest(w.rows, p, x);
      assert forall y :: Newest(w.rows, p, y) ==> y == x;
  }

  lemma DismantledSo(w: World, w1: World, p: nat, agentOK: bool, deleted: bool)
    requires Inv(w) && Idle(w, p) && w1 == BeginTeardown(w, p, w.projects[p], agentOK)
    ensures Dismantled(w, FinishTeardown(w1, p, w.projects[p], deleted), p, agentOK, deleted)
  {
    ScrappedSo(w, p, agentOK);
  }

  class Manager {
    var projects: map<nat, string>
    var rows: map<nat, Row>
    var nextId: nat
    var ports: map<nat, Option<nat>>
    var containers: set<nat>
    var routes: map<string, Route>
    ghost var ops: map<nat, Op>
    ghost var built: map<nat, (nat, string)>
    ghost var exposed: set<string>

    ghost function W(): World
      reads this
    {
      World(projects, rows, nextId, ports, containers, routes, ops, built, exposed)
    }

    /** Reserves the lowest free port of the range for deployment `id`. */
    method AllocatePort(p: nat, id: nat, ghost op: Op, ghost w0: World, ghost before: seq<Event>)
      returns (port: Option<nat>, ghost events: seq<Event>)
      requires Leads(w0, before, W()) && At(W(), p, op) && op.id == id && op.stage == Selecting(PORT_LO)
      modifies this`ports, this`ops
      ensures Leads(w0, events, W())
      ensures port.None? ==> forall q :: PORT_LO <= q <= PORT_HI ==> q in old(ports)
      ensures port.None? ==> W() == SetOp(old(W()), p, op.(stage := Selecting(PORT_HI + 1)))
      ensures port.Some? ==> PORT_LO <= port.value <= PORT_HI && port.value !in old(ports)
      ensures port.Some? ==> forall q :: PORT_LO <= q < port.value ==> q in old(ports)
      ensures port.Some? ==> W() == InsertPort(old(W()), p, op, port.value)
    {
      events := before;
      var q := PORT_LO;
      while q <= PORT_HI
        invariant PORT_LO <= q <= PORT_HI + 1
        invariant forall r :: PORT_LO <= r < q ==> r in ports
        invariant W() == SetOp(old(W()), p, op.(stage := Selecting(q)))
        invariant Leads(w0, events, W())
      {
        Selected(w0, events, W(), p, op.(stage := Selecting(q)), q);
        events := events + [Advance(p, YES)];
        if q !in ports {
          ops := ops[p := op.(stage := Inserting(q))];
          events := Insert(p, id, q, op.(stage := Inserting(q)), w0, events);
          return Some(q), events;
        }
        ops := ops[p := op.(stage := Selecting(q + 1))];
        q := q + 1;
      }
      port := None;
    }

    method Insert(p: nat, id: nat, q: nat, ghost op: Op, ghost w0: World, ghost before: seq<Event>)
      returns (ghost events: seq<Event>)
      requires Leads(w0, before, W()) && At(W(), p, op) && op.id == id && op.stage == Inserting(q) && q !in ports
      modifies this`ports, this`ops
      ensures Leads(w0, events, W()) && W() == InsertPort(old(W()), p, op, q)
    {
      Inserted(w0, before, W(), p, op, q);
      events := before + [Advance(p, YES)];
      ports := ports[q := Some(id)];
      ops := ops[p := op.(port := q, stage := Starting)];
    }

    method ReleasePort(port: nat)
      modifies this`ports
      ensures ports == old(ports) - {port}
    {
      ports := ports - {port};
    }

    /** Writes the record back as failed and ends the operation. */
    method Fail(p: nat, id: nat, dep: Row, ghost op: Op, ghost w0: World, ghost before: seq<Event>)
      returns (ghost events: seq<Event>)
      requires Leads(w0, before, W()) && At(W(), p, op) && op.id == id && op.rec == dep && op.stage.Failing?
      modifies this`rows, this`ops
      ensures Leads(w0, events, W()) && W() == EndJob(old(W()), p, op, Failed)
    {
      FailedAtLast(w0, before, W(), p, op);
      rows := rows[id := dep.(status := Failed)];
      ops := ops - {p};
      events := before + [Advance(p, YES)];
    }

    /** Gives up at a stage where nothing needs to be undone. */
    method Abort(p: nat, id: nat, dep: Row, ghost op: Op, ghost w0: World, ghost before: seq<Event>)
      returns (ghost events: seq<Event>)
      requires Leads(w0, before, W()) && At(W(), p, op) && op.id == id && op.rec == dep && Breakable(op)
      modifies this`rows, this`ops
      ensures Leads(w0, events, W())
      ensures rows == old(rows)[id := dep.(status := Failed)] && ops == old(ops) - {p}
    {
      Broke(w0, before, W(), p, op);
      ops := ops[p := op.(stage := Failing)];
      events := Fail(p, id, dep, op.(stage := Failing), w0, before + [Advance(p, NO)]);
      assert ops == old(ops) - {p};
    }

    /** Writes the record back as running and ends the operation. */
    method Succeed(p: nat, id: nat, dep: Row, ghost op: Op, ghost w0: World, ghost before: seq<Event>)
      returns (ghost events: seq<Event>)
      requires Leads(w0, before, W()) && At(W(), p, op) && op.id == id && op.rec == dep && op.stage.Finishing?
      modifies this`rows, this`ops
      ensures Leads(w0, events, W()) && W() == EndJob(old(W()), p, op, Running)
    {
      Succeeded(w0, before, W(), p, op);
      rows := rows[id := dep.(status := Running)];
      ops := ops - {p};
      events := before + [Advance(p, YES)];
    }

    /** The container of one row goes, if the agent manages. */
    method DrainContainer(p: nat, x: nat, removed: bool, ghost op: Op, ghost w0: World, ghost before: seq<Event>)
      returns (ghost events: seq<Event>)
      requires Leads(w0, before, W()) && At(W(), p, op) && op.stage.Draining? && op.stage.at == ToRemove
      requires op.stage.todo != [] && op.stage.todo[0] == x && !Skips(W(), op.id, x)
      modifies this`containers, this`ops
      ensures Leads(w0, events, W())
      ensures containers == if removed then old(containers) - {x} else old(containers)
      ensures ops == old(ops)[p := op.(stage := Draining(op.stage.todo, ToRelease))]
    {
      DrainRemoved(w0, before, W(), p, op, removed);
      events := before + [Advance(p, Env(removed, false, ""))];
      if removed {
        containers := containers - {x};
      }
      ops := ops[p := op.(stage := Draining(op.stage.todo, ToRelease))];
    }

    /** Then its port is freed. */
    method DrainPort(p: nat, x: nat, ghost op: Op, ghost w0: World, ghost before: seq<Event>)
      returns (ghost events: seq<Event>)
      requires Leads(w0, before, W()) && At(W(), p, op) && op.stage.Draining? && op.stage.at == ToRelease
      requires op.stage.todo != [] && op.stage.todo[0] == x && x in rows
      modifies this`ports, this`ops
      ensures Leads(w0, events, W())
      ensures ports == if rows[x].port != 0 then old(ports) - {rows[x].port} else old(ports)
      ensures ops == old(ops)[p := op.(stage := Draining(op.stage.todo, ToMark))]
    {
      DrainReleased(w0, before, W(), p, op);
      events := before + [Advance(p, YES)];
      if rows[x].port != 0 {
        ReleasePort(rows[x].port);
      }
      ops := ops[p := op.(stage := Draining(op.stage.todo, ToMark))];
    }

    /** One row: the container goes, if the agent manages, then the port, then the
        row is marked. */
    method DrainRow(p: nat, x: nat, removed: bool, ghost op: Op, ghost w0: World, ghost before: seq<Event>)
      returns (ghost events: seq<Event>)
      requires Leads(w0, before, W()) && At(W(), p, op) && op.stage.Draining? && op.stage.at == ToRemove
      requires op.stage.todo != [] && op.stage.todo[0] == x && !Skips(W(), op.id, x)
      modifies this`rows, this`ports, this`containers, this`ops
      ensures Leads(w0, events, W())
      ensures rows == old(rows)[x := old(rows)[x].(status := Stopped)]
      ensures ports == if old(rows)[x].port != 0 then old(ports) - {old(rows)[x].port} else old(ports)
      ensures containers == if removed then old(containers) - {x} else old(containers)
      ensures ops == old(ops)[p := op.(stage := Draining(op.stage.todo[1..], ToRemove))]
    {
      ghost var todo := op.stage.todo;
      events := DrainContainer(p, x, removed, op, w0, before);
      events := DrainPort(p, x, op.(stage := Draining(todo, ToRelease)), w0, events);
      DrainMarked(w0, events, W(), p, op.(stage := Draining(todo, ToMark)));
      events := events + [Advance(p, YES)];
      rows := rows[x := rows[x].(status := Stopped)];
      ops := ops[p := op.(stage := Draining(todo[1..], ToRemove))];
    }

    /** One turn of the drain loop: pass over the row or drain it. */
    method DrainTurn(p: nat, keep: nat, x: nat, removed: bool, ghost op: Op, ghost w0: World, ghost before: seq<Event>)
      returns (ghost events: seq<Event>)
      requires Leads(w0, before, W()) && At(W(), p, op) && op.id == keep
      requires op.stage.Draining? && op.stage.at == ToRemove
      requires op.stage.todo != [] && op.stage.todo[0] == x && Of(W(), x, p)
      modifies this`rows, this`ports, this`containers, this`ops
      ensures Leads(w0, events, W())
      ensures DrainedOne(old(W()), W(), p, keep, x, removed)
      ensures ops == old(ops)[p := op.(stage := Draining(op.stage.todo[1..], ToRemove))]
    {
      ghost var w1 := W();
      if x == keep || !rows[x].container || rows[x].status == Stopped {
        DrainSkipped(w0, before, W(), p, op);
        events := before + [Advance(p, YES)];
        ops := ops[p := op.(stage := Draining(op.stage.todo[1..], ToRemove))];
        PassedOver(w1, W(), p, keep, x, removed);
      } else {
        events := DrainRow(p, x, removed, op, w0, before);
        TakenDown(w1, W(), p, keep, x, removed);
      }
    }

    method DrainList(p: nat, keep: nat, todo: seq<nat>, removed: nat -> bool, ghost op: Op, ghost w0: World,
                     ghost before: seq<Event>)
      returns (ghost events: seq<Event>)
      requires Leads(w0, before, W()) && At(W(), p, op) && op.id == keep && op.stage == Draining(todo, ToRemove)
      requires forall x :: x in todo ==> Of(W(), x, p)
      modifies this`rows, this`ports, this`containers, this`ops
      ensures Leads(w0, events, W())
      ensures ops == old(ops)[p := op.(stage := Draining([], ToRemove))]
      ensures Drained(old(W()), W(), p, keep, Firsts(todo, |todo|), removed)
    {
      events := before;
      var i := 0;
      ghost var w := W();
      MidwayFirst(w, p, keep, todo, op, removed);
      while i < |todo|
        invariant 0 <= i <= |todo| && Midway(w, W(), p, keep, todo, i, op, removed)
        invariant Leads(w0, events, W())
      {
        events := DrainNth(p, keep, todo, i, removed, w, op, w0, events);
        i := i + 1;
      }
      MidwayLast(w, W(), p, keep, todo, op, removed);
    }

    /** The row at position `i` of the list; `w` is the state the list was read in. */
    method DrainNth(p: nat, keep: nat, todo: seq<nat>, i: nat, removed: nat -> bool, ghost w: World, ghost op: Op,
                    ghost w0: World, ghost before: seq<Event>)
      returns (ghost events: seq<Event>)
      requires i < |todo| && Of(w, todo[i], p) && At(w, p, op) && op.id == keep && projects == w.projects
      requires Leads(w0, before, W()) && Midway(w, W(), p, keep, todo, i, op, removed)
      modifies this`rows, this`ports, this`containers, this`ops
      ensures Leads(w0, events, W()) && Midway(w, W(), p, keep, todo, i + 1, op, removed)
    {
      ghost var w1, at := W(), op.(stage := Draining(todo[i..], ToRemove));
      SameOwners(w, w1, p, keep, Firsts(todo, i), removed, todo[i]);
      events := DrainTurn(p, keep, todo[i], removed(todo[i]), at, w0, before);
      OneFurther(w, w1, W(), p, keep, todo, i, removed);
      assert todo[i..][1..] == todo[i + 1..];
    }

    /** Removes, frees and marks every other deployment of the project that has a
        container and is not stopped, newest first. */
    method DrainOld(p: nat, keep: nat, removed: nat -> bool, ghost op: Op, ghost w0: World, ghost before: seq<Event>)
      returns (ghost events: seq<Event>)
      requires Leads(w0, before, W()) && At(W(), p, op) && op.id == keep
      requires op.stage == Draining(ListBelow(rows, p, nextId), ToRemove) && forall x :: x in rows ==> x < nextId
      modifies this`rows, this`ports, this`containers, this`ops
      ensures Leads(w0, events, W())
      ensures ops == old(ops)[p := op.(stage := Finishing)]
      ensures var all := old(rows).Keys;
              && rows == DrainedRows(old(rows), p, keep, all)
              && containers == old(containers) - DrainedContainers(old(rows), p, keep, all, removed)
              && ports == old(ports) - DrainedPorts(old(rows), p, keep, all)
    {
      var todo := ListBelow(rows, p, nextId);
      ListIsComplete(rows, p, nextId);
      SeenEnough(rows, p, keep, Firsts(todo, |todo|), removed);
      events := DrainList(p, keep, todo, removed, op, w0, before);
      DrainDone(w0, events, W(), p, op.(stage := Draining([], ToRemove)));
      events := events + [Advance(p, YES)];
      ops := ops[p := op.(stage := Finishing)];
    }

    /** The image would not start: its port is freed and the deployment fails. */
    method Unlaunch(p: nat, id: nat, dep: Row, port: nat, ghost op: Op, ghost w0: World, ghost before: seq<Event>)
      returns (ghost events: seq<Event>)
      requires Leads(w0, before, W()) && At(W(), p, op) && op.id == id
      requires op.rec == dep && op.port == port && op.stage.Starting?
      modifies this`rows, this`ports, this`ops
      ensures Leads(w0, events, W())
      ensures rows == old(rows)[id := dep.(status := Failed)] && ports == old(ports) - {port} && ops == old(ops) - {p}
    {
      NotStarted(w0, before, W(), p, op);
      ops := ops[p := op.(stage := Unwinding)];
      Unwound(w0, before + [Advance(p, NO)], W(), p, op.(stage := Unwinding));
      ReleasePort(port);
      ghost var at := op.(port := 0, stage := Failing);
      ops := ops[p := at];
      events := Fail(p, id, dep, at, w0, before + [Advance(p, NO)] + [Advance(p, YES)]);
      assert ops == old(ops) - {p};
    }

    /** Allocates a port, starts the image on it and waits for it to answer. */
    method Launch(p: nat, id: nat, dep: Row, img: nat, o: Answers, ghost op: Op, ghost w0: World,
                  ghost before: seq<Event>)
      returns (live: Option<Row>, ghost events: seq<Event>)
      requires Leads(w0, before, W()) && At(W(), p, op) && op == Job(id, dep, img, 0, Selecting(PORT_LO)) && id in rows
      modifies this`rows, this`ports, this`containers, this`ops
      ensures Leads(w0, events, W())
      ensures live.Some? <==> Room(old(ports)) && o.started && o.healthy
      ensures live.None? ==> LeftAlone(old(W()), W(), p, id)
      ensures live.None? ==> Gave(old(W()), W(), id, dep, img, o)
      ensures live.Some? ==>
                && LowestFree(old(ports), live.value.port)
                && live.value == dep.(container := true, port := live.value.port, image := Some(img))
                && rows == old(rows) && ports == old(ports)[live.value.port := Some(id)] &&
                    containers == old(containers) + {id}
                && ops == old(ops)[p := Job(id, live.value, img, live.value.port, Flipping)]
    {
      var port;
      port, events := AllocatePort(p, id, op, w0, before);
      if port.None? {
        events := Abort(p, id, dep, op.(stage := Selecting(PORT_HI + 1)), w0, events);
        return None, events;
      }
      ghost var at := op.(port := port.value, stage := Starting);
      assert ports == old(ports)[port.value := Some(id)];
      live, events := StartAndProbe(p, id, dep, img, port.value, o, at, w0, events);
      if live.None? {
        FailedAlone(old(W()), W(), p, id);
      }
    }

    /** Starts the image on the port and waits for it to answer. */
    method StartAndProbe(p: nat, id: nat, dep: Row, img: nat, port: nat, o: Answers, ghost op: Op, ghost w0: World,
                         ghost before: seq<Event>)
      returns (live: Option<Row>, ghost events: seq<Event>)
      requires Leads(w0, before, W()) && At(W(), p, op) && op == Job(id, dep, img, port, Starting) && id in rows
      modifies this`rows, this`ports, this`containers, this`ops
      ensures Leads(w0, events, W())
      ensures var run := dep.(container := true, port := port, image := Some(img));
              && (live == if o.started && o.healthy then Some(run) else None)
              && ports == (if o.started then old(ports) else old(ports) - {port})
              && containers == (if o.started then old(containers) + {id} else old(containers))
              && (live.Some? ==> rows == old(rows) && ops == old(ops)[p := Job(id, run, img, port, Flipping)])
              && (live.None? ==>
                    && rows == old(rows)[id := (if o.started then run else dep).(status := Failed)]
                    && ops == old(ops) - {p})
    {
      if !o.started {
        events := Unlaunch(p, id, dep, port, op, w0, before);
        return None, events;
      }
      Started(w0, before, W(), p, op);
      events := before + [Advance(p, YES)];
      containers := containers + {id};
      var run := dep.(container := true, port := port, image := Some(img));
      ghost var at := op.(rec := run, stage := Probing);
      ops := ops[p := at];
      if !o.healthy {
        events := Abort(p, id, run, at, w0, events);
        return None, events;
      }
      Probed(w0, events, W(), p, at);
      events := events + [Advance(p, YES)];
      ops := ops[p := at.(stage := Flipping)];
      live := Some(run);
    }

    /** Rewrites the site file and reloads the router. */
    method Flip(p: nat, ghost op: Op, port: nat, ghost w0: World, ghost before: seq<Event>)
      returns (ghost events: seq<Event>)
      requires Leads(w0, before, W()) && At(W(), p, op) && op.stage.Flipping? && op.port == port
      modifies this`routes, this`exposed, this`ops
      ensures Leads(w0, events, W())
      ensures routes == old(routes)[projects[p] := Upstream(port)]
      ensures ops == old(ops)[p := op.(stage := Draining(ListBelow(rows, p, nextId), ToRemove))]
    {
      Flipped(w0, before, W(), p, op);
      events := before + [Advance(p, YES)];
      routes := routes[projects[p] := Upstream(port)];
      exposed := exposed - {projects[p]};
      ops := ops[p := op.(stage := Draining(ListBelow(rows, p, nextId), ToRemove))];
    }

    /** The new container gets the route before any older one loses its port. */
    method GoLive(p: nat, id: nat, dep: Row, removed: nat -> bool, ghost op: Op, ghost w0: World,
                  ghost before: seq<Event>)
      returns (ghost events: seq<Event>)
      requires Leads(w0, before, W()) && At(W(), p, op) && op.id == id
      requires op.rec == dep && op.stage.Flipping? && op.port == dep.port
      requires Of(W(), id, p) && forall x :: x in rows ==> x < nextId
      modifies this`rows, this`ports, this`containers, this`routes, this`exposed, this`ops
      ensures Leads(w0, events, W()) && ops == old(ops) - {p}
      ensures routes == old(routes)[projects[p] := Upstream(dep.port)]
      ensures var all := old(rows).Keys;
              && rows == DrainedRows(old(rows), p, id, all)[id := dep.(status := Running)]
              && containers == old(containers) - DrainedContainers(old(rows), p, id, all, removed)
              && ports == old(ports) - DrainedPorts(old(rows), p, id, all)
    {
      events := Flip(p, op, dep.port, w0, before);
      events := DrainOld(p, id, removed, op.(stage := Draining(ListBelow(rows, p, nextId), ToRemove)), w0, events);
      events := Succeed(p, id, dep, op.(stage := Finishing), w0, events);
      assert ops == old(ops) - {p};
    }

    /** Shared by deploy and rollback: from an image to a live container. */
    method RunImage(p: nat, id: nat, dep: Row, img: nat, o: Answers, ghost op: Op, ghost w0: World,
                    ghost before: seq<Event>)
      returns (ok: bool, ghost events: seq<Event>)
      requires Leads(w0, before, W()) && At(W(), p, op) && op == Job(id, dep, img, 0, Selecting(PORT_LO))
      requires Of(W(), id, p) && forall x :: x in rows ==> x < nextId
      modifies this`rows, this`ports, this`containers, this`routes, this`exposed, this`ops
      ensures Leads(w0, events, W())
      ensures ok <==> Runs(old(ports), o)
      ensures ok ==> WentLive(old(W()), W(), p, id, dep, img, o.removed)
      ensures !ok ==> LeftAlone(old(W()), W(), p, id) && Gave(old(W()), W(), id, dep, img, o)
    {
      var live;
      live, events := Launch(p, id, dep, img, o, op, w0, before);
      if live.None? {
        return false, events;
      }
      ghost var at := Job(id, live.value, img, live.value.port, Flipping);
      if !o.saved {
        events := Abort(p, id, live.value, at, w0, events);
        return false, events;
      }
      events := GoLive(p, id, live.value, o.removed, at, w0, events);
      ok := true;
    }

    /** CreateDeployment: a new row under the next id. */
    method Create(p: nat, ghost w0: World, ghost before: seq<Event>)
      returns (id: nat, dep: Row, ghost events: seq<Event>)
      requires Leads(w0, before, W()) && Idle(W(), p)
      modifies this`rows, this`nextId, this`ops
      ensures Leads(w0, events, W()) && id == old(nextId) && dep == Row(p, Building, None, false, 0, "")
      ensures rows == old(rows)[id := dep] && nextId == id + 1 && ops == old(ops)[p := Job(id, dep, 0, 0, Syncing)]
    {
      BegunDeploy(w0, before, W(), p);
      events := before + [BeginDeploy(p)];
      id, dep := nextId, Row(p, Building, None, false, 0, "");
      rows, nextId := rows[id := dep], nextId + 1;
      ops := ops[p := Job(id, dep, 0, 0, Syncing)];
    }

    /** Deploys a project: a fresh row, the source, then a static root or a new
        container. A project that does not exist is refused; a project runs one
        operation at a time. */
    method Deploy(p: nat, o: Answers) returns (ok: bool, ghost events: seq<Event>)
      requires Inv(W()) && p !in ops
      modifies this
      ensures Inv(W()) && Leads(old(W()), events, W()) && ops == old(ops)
      ensures ok <==> p in old(projects) && Succeeds(old(ports), o)
      ensures p !in projects ==> !ok && W() == old(W())
      ensures p in projects ==> Deployed(old(W()), W(), p, old(nextId), Fetched(p, o), ok, o)
    {
      if p !in projects {
        events := [];
        return false, events;
      }
      ok, events := DeployKnown(p, o);
      FromKeeps(old(W()), events);
      assert ops == old(ops);
    }

    /** Puts the latest source live. A static project is only refreshed; any other
        is deployed in full, and detected anew if it never was. */
    method Update(p: nat, knownStatic: bool, o: Answers) returns (ok: bool, ghost events: seq<Event>)
      requires Inv(W()) && p !in ops
      modifies this
      ensures Inv(W()) && Leads(old(W()), events, W()) && ops == old(ops)
      ensures ok <==> p in old(projects) && Succeeds(old(ports), if knownStatic then o.(isStatic := true) else o)
      ensures p !in projects ==> !ok && W() == old(W())
      ensures p in projects ==>
                var o' := if knownStatic then o.(isStatic := true) else o;
                Deployed(old(W()), W(), p, old(nextId), Fetched(p, o'), ok, o')
    {
      ok, events := Deploy(p, if knownStatic then o.(isStatic := true) else o);
    }

    method DeployKnown(p: nat, o: Answers) returns (ok: bool, ghost events: seq<Event>)
      requires Idle(W(), p) && forall x :: x in rows ==> x < nextId
      modifies this
      ensures Leads(old(W()), events, W()) && ops == old(ops) - {p}
      ensures ok <==> Succeeds(old(ports), o)
      ensures Deployed(old(W()), W(), p, old(nextId), Fetched(p, o), ok, o)
    {
      ghost var w0 := W();
      var id, dep;
      id, dep, events := Create(p, w0, []);
      ghost var w1 := W();
      ok, events := BuildAndServe(p, id, dep, o, Job(id, dep, 0, 0, Syncing), w0, events);
      DeployedFromBefore(w0, w1, W(), p, id, Fetched(p, o), ok, o);
    }

    /** Everything after the row was created: fetch the source, then serve it. */
    method BuildAndServe(p: nat, id: nat, dep: Row, o: Answers, ghost op: Op, ghost w0: World, ghost before: seq<Event>)
      returns (ok: bool, ghost events: seq<Event>)
      requires Leads(w0, before, W()) && At(W(), p, op) && op == Job(id, dep, 0, 0, Syncing)
      requires dep == Row(p, Building, None, false, 0, "") && Of(W(), id, p) && forall x :: x in rows ==> x < nextId
      modifies this`rows, this`ports, this`containers, this`routes, this`exposed, this`ops, this`built
      ensures Leads(w0, events, W())
      ensures ok <==> Succeeds(old(ports), o)
      ensures Deployed(old(W()), W(), p, id, Fetched(p, o), ok, o)
    {
      if !o.synced {
        events := Abort(p, id, dep, op, w0, before);
        return false, events;
      }
      Synced(w0, before, W(), p, op, o.isStatic, o.commit);
      events := before + [Advance(p, Env(true, o.isStatic, o.commit))];
      var at := dep.(commit := o.commit);
      ghost var next := op.(rec := at, stage := if o.isStatic then SavingStatic else Compiling);
      ops := ops[p := next];
      if o.isStatic {
        ok, events := FinishStatic(p, id, at, o.saved, next, w0, events);
      } else {
        ok, events := FinishContainer(p, id, at, o, next, w0, events);
      }
    }

    method FinishStatic(p: nat, id: nat, dep: Row, saved: bool, ghost op: Op, ghost w0: World, ghost before: seq<Event>)
      returns (ok: bool, ghost events: seq<Event>)
      requires Leads(w0, before, W()) && At(W(), p, op) && op.id == id
      requires op.rec == dep && op.stage.SavingStatic? && id in rows
      modifies this`rows, this`routes, this`exposed, this`ops
      ensures Leads(w0, events, W()) && ops == old(ops) - {p}
      ensures ok <==> saved
      ensures !ok ==> LeftAlone(old(W()), W(), p, id) && Untouched(old(W()), W(), id, dep)
      ensures ok ==> routes == old(routes)[projects[p] := Static] && rows == old(rows)[id := dep.(status := Running)]
    {
      if !saved {
        events := Abort(p, id, dep, op, w0, before);
        return false, events;
      }
      SavedStatic(w0, before, W(), p, op);
      events := before + [Advance(p, YES)];
      routes := routes[projects[p] := Static];
      exposed := exposed - {projects[p]};
      ops := ops[p := op.(stage := Finishing)];
      events := Succeed(p, id, dep, op.(stage := Finishing), w0, events);
      ok := true;
    }

    method FinishContainer(p: nat, id: nat, dep: Row, o: Answers, ghost op: Op, ghost w0: World,
                           ghost before: seq<Event>)
      returns (ok: bool, ghost events: seq<Event>)
      requires Leads(w0, before, W()) && At(W(), p, op) && op == Job(id, dep, 0, 0, Compiling)
      requires Of(W(), id, p) && forall x :: x in rows ==> x < nextId
      modifies this`rows, this`ports, this`containers, this`routes, this`exposed, this`ops, this`built
      ensures Leads(w0, events, W())
      ensures ok <==> o.built && Runs(old(ports), o)
      ensures ok ==> WentLive(old(W()), W(), p, id, dep, id, o.removed)
      ensures !ok ==> LeftAlone(old(W()), W(), p, id)
      ensures !ok && o.built ==> Gave(old(W()), W(), id, dep.(image := Some(id)), id, o)
      ensures !ok && !o.built ==> Untouched(old(W()), W(), id, dep)
    {
      if !o.built {
        events := Abort(p, id, dep, op, w0, before);
        return false, events;
      }
      Compiled(w0, before, W(), p, op);
      events := before + [Advance(p, YES)];
      built := built[id := (p, dep.commit)];
      var imaged := dep.(image := Some(id));
      ghost var at := Job(id, imaged, id, 0, Selecting(PORT_LO));
      ops := ops[p := at];
      ok, events := RunImage(p, id, imaged, id, o, at, w0, events);
    }

    /** Runs the image of an earlier deployment of the project again. */
    method Rollback(p: nat, target: nat, o: Answers) returns (ok: bool, ghost events: seq<Event>)
      requires Inv(W()) && p !in ops
      modifies this
      ensures Inv(W()) && Leads(old(W()), events, W()) && ops == old(ops)
      ensures ok <==>
                && p in old(projects) && Of(old(W()), target, p) && old(rows)[target].image.Some?
                && Runs(old(ports), o)
      ensures p !in projects || !Of(old(W()), target, p) || old(rows)[target].image.None? ==> !ok && W() == old(W())
      ensures p in projects && Of(old(W()), target, p) && old(rows)[target].image.Some? ==>
                RolledBack(old(W()), W(), p, target, old(nextId), ok, o)
    {
      if p !in projects || target !in rows || rows[target].project != p || rows[target].image.None? {
        events := [];
        return false, events;
      }
      ok, events := RollbackKnown(p, target, o);
      FromKeeps(old(W()), events);
      assert ops == old(ops);
    }

    method RollbackKnown(p: nat, target: nat, o: Answers) returns (ok: bool, ghost events: seq<Event>)
      requires Idle(W(), p) && Of(W(), target, p) && rows[target].image.Some? && forall x :: x in rows ==> x < nextId
      modifies this
      ensures Leads(old(W()), events, W()) && ops == old(ops) - {p}
      ensures ok <==> Runs(old(ports), o)
      ensures RolledBack(old(W()), W(), p, target, old(nextId), ok, o)
    {
      ghost var w0 := W();
      BegunRollback(w0, [], W(), p, target);
      events := [BeginRollback(p, target)];
      var id, dep, img := nextId, Row(p, Building, None, false, 0, rows[target].commit), rows[target].image.value;
      rows, nextId := rows[id := dep], nextId + 1;
      ghost var op := Job(id, dep, img, 0, Selecting(PORT_LO));
      ops := ops[p := op];
      ghost var w1 := W();
      ok, events := RunImage(p, id, dep, img, o, op, w0, events);
      if ok {
        LiveFromBefore(w0, w1, W(), p, id, dep, img, o.removed);
      }
    }

    /** LatestDeployment: the project's newest row. */
    method Latest(p: nat) returns (x: Option<nat>)
      ensures x == LatestDeployment(W(), p)
    {
      var all := ListBelow(rows, p, nextId);
      x := if all == [] then None else Some(all[0]);
    }

    /** Stops the latest container. The route and the port stay as they are. */
    method Stop(p: nat, agentOK: bool) returns (ok: bool, ghost events: seq<Event>)
      requires Inv(W()) && p !in ops
      modifies this`rows
      ensures Inv(W()) && Leads(old(W()), events, W())
      ensures ok ==> Halted(old(W()), W(), p, agentOK)
      ensures !ok ==> W() == old(W()) && forall x :: Newest(rows, p, x) ==> rows[x].container && !agentOK
    {
      events := [];
      var x := Latest(p);
      LatestIsNewest(W(), p);
      if x.None? {
        return false, events;
      }
      StoppedOnce(W(), p, agentOK);
      events := [Event.Stop(p, agentOK)];
      if rows[x.value].container && !agentOK {
        NextKeeps(W(), Event.Stop(p, agentOK));
        return false, events;
      }
      NextKeeps(W(), Event.Stop(p, agentOK));
      rows := rows[x.value := rows[x.value].(status := Stopped)];
      ok := true;
    }

    /** First half of Remove: the latest container and its port go. */
    method Scrap(p: nat, agentOK: bool)
      requires Inv(W()) && Idle(W(), p)
      modifies this`ports, this`containers, this`exposed, this`ops
      ensures W() == BeginTeardown(old(W()), p, projects[p], agentOK)
    {
      var domain := projects[p];
      var x := Latest(p);
      if x.Some? {
        LatestIsLatest(W(), p, x.value);
        var row := rows[x.value];
        if row.container && agentOK {
          containers := containers - {x.value};
        }
        if domain in routes && routes[domain] == Upstream(row.port) {
          exposed := exposed + {domain};
        }
        if row.port != 0 {
          ReleasePort(row.port);
        }
      }
      ops := ops[p := Teardown];
    }

    /** Second half: the site file, if it can be deleted, then the project with its
        rows; a port still recorded under one of them loses its owner. */
    method Clear(p: nat, deleted: bool)
      requires p in projects
      modifies this`projects, this`rows, this`ports, this`routes, this`exposed, this`ops
      ensures W() == FinishTeardown(old(W()), p, old(projects)[p], deleted)
    {
      var domain := projects[p];
      if deleted {
        routes := routes - {domain};
      }
      exposed := if deleted then exposed - {domain} else exposed + {domain};
      projects := projects - {p};
      var orphaned := map q | q in ports ::
        if ports[q].Some? && ports[q].value in rows && rows[ports[q].value].project == p then None else ports[q];
      rows := map y | y in rows && rows[y].project != p :: rows[y];
      ports := orphaned;
      ops := ops - {p};
    }

    /** Tears the project down: the latest container and its port first, then the
        site file, the rows and the project. */
    method Remove(p: nat, agentOK: bool, deleted: bool) returns (ok: bool, ghost events: seq<Event>)
      requires Inv(W()) && p !in ops
      modifies this
      ensures Inv(W()) && Leads(old(W()), events, W())
      ensures !ok <==> p !in old(projects)
      ensures !ok ==> W() == old(W())
      ensures ok ==> Dismantled(old(W()), W(), p, agentOK, deleted)
    {
      events := [];
      if p !in projects {
        return false, events;
      }
      RemovedInTwo(W(), p, agentOK, deleted);
      DismantledSo(W(), BeginTeardown(W(), p, projects[p], agentOK), p, agentOK, deleted);
      events := [BeginRemove(p, agentOK), Advance(p, Env(deleted, false, ""))];
      Scrap(p, agentOK);
      TornDown(old(W()), p, agentOK);
      Clear(p, deleted);
      FromKeeps(old(W()), events);
      ok := true;
    }
  }

  lemma StoppedOnce(w: World, p: nat, ok: bool)
    requires Idle(w, p)
    ensures Leads(w, [Event.Stop(p, ok)], StopLatest(w, p, ok))
  {
    Onward(w, [], w, Event.Stop(p, ok));
    assert [] + [Event.Stop(p, ok)] == [Event.Stop(p, ok)];
  }

  lemma TornDown(w: World, p: nat, ok: bool)
    requires Idle(w, p)
    ensures var w' := BeginTeardown(w, p, w.projects[p], ok);
            w'.ops == w.ops[p := Teardown] && w'.projects == w.projects && w'.rows == w.rows && w'.nextId == w.nextId
  {
    match LatestDeployment(w, p)
    case None =>
    case Some(x) => assert x in w.rows ==> ScrapRow(w, w.projects[p], x, ok).rows == w.rows;
  }

  lemma ScrapBegun(w: World, p: nat, ok: bool)
    requires Idle(w, p)
    ensures Leads(w, [BeginRemove(p, ok)], BeginTeardown(w, p, w.projects[p], ok))
  {
    Onward(w, [], w, BeginRemove(p, ok));
    assert [] + [BeginRemove(p, ok)] == [BeginRemove(p, ok)];
  }

  lemma TeardownDone(w: World, events: seq<Event>, w1: World, p: nat, deleted: bool)
    requires Leads(w, events, w1) && p in w1.ops && w1.ops[p].Teardown? && p in w1.projects
    ensures Leads(w, events + [Advance(p, Env(deleted, false, ""))], FinishTeardown(w1, p, w1.projects[p], deleted))
  {
    Onward(w, events, w1, Advance(p, Env(deleted, false, "")));
  }

  lemma RemovedInTwo(w: World, p: nat, ok: bool, deleted: bool)
    requires Idle(w, p)
    ensures Leads(w, [BeginRemove(p, ok), Advance(p, Env(deleted, false, ""))],
                  FinishTeardown(BeginTeardown(w, p, w.projects[p], ok), p, w.projects[p], deleted))
  {
    ScrapBegun(w, p, ok);
    TornDown(w, p, ok);
    TeardownDone(w, [BeginRemove(p, ok)], BeginTeardown(w, p, w.projects[p], ok), p, deleted);
    assert [BeginRemove(p, ok)] + [Advance(p, Env(deleted, false, ""))] ==
           [BeginRemove(p, ok), Advance(p, Env(deleted, false, ""))];
  }
}
