/** The deploy engine and its port table as one step machine over many projects.

    The steps of an operation are its database statements, agent calls and
    site-file writes, so operations of different projects interleave freely; a few
    neighbours are one step: each half of Remove, and the flip with the listing
    that follows it. A project runs one operation at a time. Builds, container starts, health
    checks, site writes and container removals fail whenever the environment
    says so. */
module ControlPlane {
  import opened Options

  const PORT_LO := 8300
  const PORT_HI := 8999

  datatype Status = Building | Running | Failed | Stopped

  /** A deployment row. `image` names the deployment whose build produced the
      image, `container` says whether a container id is recorded, port 0 is none. */
  datatype Row = Row(project: nat, status: Status, image: Option<nat>, container: bool, port: nat, commit: string)

  datatype Route = Static | Upstream(port: nat)

  /** What drainOld does to one row: remove the container, free the port, mark it. */
  datatype Drain = ToRemove | ToRelease | ToMark

  datatype Stage =
    | Syncing
    | SavingStatic
    | Compiling
    | Selecting(candidate: nat)
    | Inserting(candidate: nat)
    | Starting
    | Unwinding
    | Probing
    | Flipping
    | Draining(todo: seq<nat>, at: Drain)
    | Finishing
    | Failing

  /** An operation under way: the id of its row, the record it holds in memory and
      has yet to write back, the image it runs, the port it holds. */
  datatype Op =
    | Job(id: nat, rec: Row, img: nat, port: nat, stage: Stage)
    | Teardown

  /** `containers` are those started and not removed, named by their deployment.
      Two parts exist for the statements only: `built` records each successful
      build with its project and commit, `exposed` the domains whose project was
      torn down under a route that is still there. */
  datatype World = World(
    projects: map<nat, string>,
    rows: map<nat, Row>,
    nextId: nat,
    ports: map<nat, Option<nat>>,
    containers: set<nat>,
    routes: map<string, Route>,
    ops: map<nat, Op>,
    built: map<nat, (nat, string)>,
    exposed: set<string>)

  /** What the outside world answers: success, detected strategy, synced commit. */
  datatype Env = Env(ok: bool, isStatic: bool, commit: string)

  datatype Event =
    | Create(project: nat, domain: string)
    | BeginDeploy(project: nat)
    | BeginRollback(project: nat, target: nat)
    | Stop(project: nat, ok: bool)
    | BeginRemove(project: nat, ok: bool)
    | Advance(project: nat, env: Env)

  // ---- queries ----

  /** The project's deployments below `n`, newest first. */
  function ListBelow(rows: map<nat, Row>, project: nat, n: nat): seq<nat>
  {
    if n == 0 then []
    else (if n - 1 in rows && rows[n - 1].project == project then [n - 1] else []) + ListBelow(rows, project, n - 1)
  }

  function ListDeployments(w: World, project: nat): seq<nat>
  {
    ListBelow(w.rows, project, w.nextId)
  }

  predicate IsLatest(w: World, x: nat)
    requires x in w.rows
  {
    forall y :: y in w.rows && w.rows[y].project == w.rows[x].project ==> y <= x
  }

  function LatestDeployment(w: World, project: nat): Option<nat>
  {
    var all := ListDeployments(w, project);
    if all == [] then None else Some(all[0])
  }

  ghost predicate Descending(s: seq<nat>)
  {
    forall i, j :: 0 <= i < j < |s| ==> s[i] > s[j]
  }

  lemma PrependDescends(x: nat, s: seq<nat>)
    requires Descending(s) && forall y :: y in s ==> y < x
    ensures Descending([x] + s)
  {
    assert forall i :: 0 <= i < |s| ==> s[i] in s;
  }

  lemma {:induction false} ListHolds(rows: map<nat, Row>, project: nat, n: nat)
    ensures forall x :: x in ListBelow(rows, project, n) <==> x < n && x in rows && rows[x].project == project
  {
    if n > 0 {
      ListHolds(rows, project, n - 1);
    }
  }

  lemma {:induction false} ListDescends(rows: map<nat, Row>, project: nat, n: nat)
    ensures Descending(ListBelow(rows, project, n))
  {
    if n > 0 {
      var rest := ListBelow(rows, project, n - 1);
      ListDescends(rows, project, n - 1);
      ListHolds(rows, project, n - 1);
      PrependDescends(n - 1, rest);
      assert ListBelow(rows, project, n) == rest || ListBelow(rows, project, n) == [n - 1] + rest;
    }
  }

  /** The list holds exactly the project's rows below `n`, each once, newest first. */
  lemma ListIsComplete(rows: map<nat, Row>, project: nat, n: nat)
    ensures forall x :: x in ListBelow(rows, project, n) <==> x < n && x in rows && rows[x].project == project
    ensures Descending(ListBelow(rows, project, n))
  {
    ListHolds(rows, project, n);
    ListDescends(rows, project, n);
  }

  // ---- steps ----

  function SetOp(w: World, p: nat, op: Op): World
  {
    w.(ops := w.ops[p := op])
  }

  /** Whether drainOld passes over row `x`. */
  predicate Skips(w: World, keep: nat, x: nat)
  {
    x == keep || x !in w.rows || !w.rows[x].container || w.rows[x].status == Stopped
  }

  function DrainRemove(w: World, p: nat, op: Op, x: nat, ok: bool): World
    requires op.Job? && op.stage.Draining?
  {
    SetOp(w.(containers := if ok then w.containers - {x} else w.containers), p,
        op.(stage := Draining(op.stage.todo, ToRelease)))
  }

  function DrainRelease(w: World, p: nat, op: Op, x: nat): World
    requires op.Job? && op.stage.Draining? && x in w.rows
  {
    SetOp(w.(ports := if w.rows[x].port != 0 then w.ports - {w.rows[x].port} else w.ports), p,
          op.(stage := Draining(op.stage.todo, ToMark)))
  }

  function DrainMark(w: World, p: nat, op: Op, x: nat): World
    requires op.Job? && op.stage.Draining? && op.stage.todo != [] && x in w.rows
  {
    SetOp(w.(rows := w.rows[x := w.rows[x].(status := Stopped)]), p,
        op.(stage := Draining(op.stage.todo[1..], ToRemove)))
  }

  function AdvanceDrain(w: World, p: nat, op: Op, env: Env): World
    requires op.Job? && op.stage.Draining?
  {
    var todo := op.stage.todo;
    if todo == [] then SetOp(w, p, op.(stage := Finishing))
    else if todo[0] !in w.rows || (op.stage.at == ToRemove && Skips(w, op.id, todo[0])) then
      SetOp(w, p, op.(stage := Draining(todo[1..], ToRemove)))
    else
      match op.stage.at
      case ToRemove => DrainRemove(w, p, op, todo[0], env.ok)
      case ToRelease => DrainRelease(w, p, op, todo[0])
      case ToMark => DrainMark(w, p, op, todo[0])
  }

  /** A build that succeeded leaves an image named after its deployment. */
  function Compile(w: World, p: nat, op: Op): World
    requires op.Job?
  {
    SetOp(w.(built := w.built[op.id := (p, op.rec.commit)]), p,
          op.(rec := op.rec.(image := Some(op.id)), img := op.id, stage := Selecting(PORT_LO)))
  }

  /** The primary key of the port table arbitrates: a second insert fails. */
  function InsertPort(w: World, p: nat, op: Op, q: nat): World
    requires op.Job?
  {
    if q in w.ports then SetOp(w, p, op.(stage := Failing))
    else SetOp(w.(ports := w.ports[q := Some(op.id)]), p, op.(port := q, stage := Starting))
  }

  function StartContainer(w: World, p: nat, op: Op): World
    requires op.Job?
  {
    SetOp(w.(containers := w.containers + {op.id}), p,
          op.(rec := op.rec.(container := true, port := op.port, image := Some(op.img)), stage := Probing))
  }

  function Unwind(w: World, p: nat, op: Op): World
    requires op.Job?
  {
    SetOp(w.(ports := w.ports - {op.port}), p, op.(port := 0, stage := Failing))
  }

  /** The site file is rewritten and the router reloaded. */
  function FlipRoute(w: World, p: nat, op: Op, domain: string, route: Route, stage: Stage): World
    requires op.Job?
  {
    SetOp(w.(routes := w.routes[domain := route], exposed := w.exposed - {domain}), p, op.(stage := stage))
  }

  /** The record is written back and the operation is over. */
  function EndJob(w: World, p: nat, op: Op, status: Status): World
    requires op.Job?
  {
    w.(rows := w.rows[op.id := op.rec.(status := status)], ops := w.ops - {p})
  }

  function AdvanceJob(w: World, p: nat, op: Op, domain: string, env: Env): World
    requires op.Job?
  {
    var failing := SetOp(w, p, op.(stage := Failing));
    match op.stage
    case Syncing =>
      if !env.ok then failing
      else
        var stage := if env.isStatic then SavingStatic else Compiling;
        SetOp(w, p, op.(rec := op.rec.(commit := env.commit), stage := stage))
    case SavingStatic =>
      if !env.ok then failing else FlipRoute(w, p, op, domain, Static, Finishing)
    case Compiling =>
      if !env.ok then failing else Compile(w, p, op)
    case Selecting(q) =>
      if q > PORT_HI then failing
      else SetOp(w, p, op.(stage := if q in w.ports then Selecting(q + 1) else Inserting(q)))
    case Inserting(q) => InsertPort(w, p, op, q)
    case Starting => if !env.ok then SetOp(w, p, op.(stage := Unwinding)) else StartContainer(w, p, op)
    case Unwinding => Unwind(w, p, op)
    case Probing => if !env.ok then failing else SetOp(w, p, op.(stage := Flipping))
    case Flipping =>
      if !env.ok then failing
      else FlipRoute(w, p, op, domain, Upstream(op.port), Draining(ListDeployments(w, p), ToRemove))
    case Draining(_, _) => AdvanceDrain(w, p, op, env)
    case Finishing => EndJob(w, p, op, Running)
    case Failing => EndJob(w, p, op, Failed)
  }

  function Begin(w: World, p: nat, commit: string, img: nat, stage: Stage): World
  {
    var row := Row(p, Building, None, false, 0, commit);
    SetOp(w.(rows := w.rows[w.nextId := row], nextId := w.nextId + 1), p, Job(w.nextId, row, img, 0, stage))
  }

  /** Remove, first half: the latest container and its port go. */
  function BeginTeardown(w: World, p: nat, domain: string, ok: bool): World
  {
    match LatestDeployment(w, p)
    case Some(x) => SetOp(if x in w.rows then ScrapRow(w, domain, x, ok) else w, p, Teardown)
    case None => SetOp(w, p, Teardown)
  }

  function ScrapRow(w: World, domain: string, x: nat, ok: bool): World
    requires x in w.rows
  {
    var row := w.rows[x];
    w.(containers := if row.container && ok then w.containers - {x} else w.containers,
       ports := if row.port != 0 then w.ports - {row.port} else w.ports,
       exposed := if domain in w.routes && w.routes[domain] == Upstream(row.port)
                  then w.exposed + {domain} else w.exposed)
  }

  /** Remove, second half: the site file and the project go; the rows go with the
      project and leave the ports they still held without an owner. */
  function FinishTeardown(w: World, p: nat, domain: string, ok: bool): World
  {
    w.(projects := w.projects - {p},
       rows := map x | x in w.rows && w.rows[x].project != p :: w.rows[x],
       ports := map q | q in w.ports ::
                  if w.ports[q].Some? && w.ports[q].value in w.rows && w.rows[w.ports[q].value].project == p
                  then None else w.ports[q],
       routes := if ok then w.routes - {domain} else w.routes,
       exposed := if ok then w.exposed - {domain} else w.exposed + {domain},
       ops := w.ops - {p})
  }

  function StopLatest(w: World, p: nat, ok: bool): World
  {
    match LatestDeployment(w, p)
    case Some(x) => if x !in w.rows || (w.rows[x].container && !ok) then w else StopRow(w, x)
    case None => w
  }

  function StopRow(w: World, x: nat): World
    requires x in w.rows
  {
    w.(rows := w.rows[x := w.rows[x].(status := Stopped)])
  }

  predicate Idle(w: World, p: nat)
  {
    p in w.projects && p !in w.ops
  }

  function Next(w: World, e: Event): World
  {
    match e
    case Create(p, d) => if p in w.projects then w else w.(projects := w.projects[p := d])
    case BeginDeploy(p) => if Idle(w, p) then Begin(w, p, "", 0, Syncing) else w
    case BeginRollback(p, t) =>
      if Idle(w, p) && t in w.rows && w.rows[t].project == p && w.rows[t].image.Some?
      then Begin(w, p, w.rows[t].commit, w.rows[t].image.value, Selecting(PORT_LO)) else w
    case Stop(p, ok) => if Idle(w, p) then StopLatest(w, p, ok) else w
    case BeginRemove(p, ok) => if Idle(w, p) then BeginTeardown(w, p, w.projects[p], ok) else w
    case Advance(p, env) =>
      if p !in w.ops || p !in w.projects then w
      else if w.ops[p].Teardown? then FinishTeardown(w, p, w.projects[p], env.ok)
      else AdvanceJob(w, p, w.ops[p], w.projects[p], env)
  }

  const Empty := World(map[], map[], 1, map[], {}, map[], map[], map[], {})

  function From(w: World, events: seq<Event>): World
  {
    if events == [] then w else Next(From(w, events[..|events| - 1]), events[|events| - 1])
  }

  function Run(events: seq<Event>): World
  {
    From(Empty, events)
  }
}
