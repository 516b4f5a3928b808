# Verification of the orxies control plane

orxies is a small self-hosted platform: an edge proxy, a deploy manager, and an
admin UI, in one process. This project models six of its state-keeping parts and
proves what each of them promises over every run. Operations the program performs
step by step on fields, maps and buffers are classes with methods here; each method
is proved against functions of the old state, and the results about whole runs are
lemmas about those functions.

`dafny verify dfyconfig.toml` checks everything.

## Parts

**Site limiter** (`TokenBucket`, `Limiter`, `SiteLimiter`, `InFlight`). Token buckets
per source address in a map that is swept every 30 seconds and capped at 50,000 keys,
behind one site-wide bucket, and a gate of in-flight slots. The reference meaning of a
bucket is a law about windows of time that mentions no tokens: a request is admitted
exactly if no closed window ending now would hold more than burst + rps · length
admissions. The limiter is proved to decide by that law on every run, sweeping is
proved invisible, and the gate's counter is proved to be the number of handles out.

**Deploy engine** (`ControlPlane`, `ControlPlaneSafety`, `ControlPlaneResults`,
`ControlPlaneLoss`, `DeployManager`). A step machine over any number of projects, whose steps are the SQL
statements, agent calls and site-file writes of an operation, a few neighbours taken
together (see "Left out"), so that operations of different projects interleave freely;
`SELECT` and `INSERT` of the port table are two steps with the primary key as the
arbiter. Builds, container starts, health checks and
site writes fail at will. One invariant (`ControlPlaneSafety.Inv`) is kept by every
step. `DeployManager.Manager` is the object with its tables updated in place; each of
its methods is proved to be a run of the step machine.

**Metrics ring** (`MetricsRing`). Sixty one-second buckets and 1024 latencies, proved to
agree with the complete history of requests, which the object carries as ghost state.

**Login** (`Throttle`, `Tokens`, `Login`). The throttle over runs of attempts, the two
kinds of signed token down to their text, and the login handler over both. The keyed
signature, its transport encoding, password hashing and one-time codes are functions
given from outside.

**Routing and security page** (`Routing`, `SecurityMonitor`, `SecurityPage`,
`SecurityFacts`, `Sorting`). The domain index and the runtime table against plain scans of
the site list; per-address counts, rankings and alerts against the parsed log events, and
in the end as numbers of log lines.

**Environment text and directory swap** (`EnvText`, `SwapDir`). Reading and rendering of
KEY=VALUE lines, and the rename protocol that puts a fresh checkout in place, with every
file system it passes through kept as a possible crash.

## Where the code does less than its comments say

- `internal/auth/throttle.go:12-14` says a flood of addresses cannot exhaust memory.
  Pruning drops nothing active within a quarter of an hour, so any number of keys
  failing at once is kept (`Throttle.FloodIsKept`). Exactly: right after a failure the
  table holds more than n keys, for any n from 4096 on, if and only if more than n keys
  failed within the last quarter of an hour (`Throttle.FloodExactly`).
- `internal/gitsource/gitsource.go:141-143` and `:191-193` say the directory is never
  missing. It is, between the two renames, exactly if it was there and could be renamed
  aside, whether or not the swap then works (`SwapDir.Disk.Swap`); the old tree is then
  intact beside it.
- Ports leak. In a reachable state an allocated port can never be freed again, whatever
  is done, exactly if one of three things can be seen (`ControlPlaneLoss.LostExactly`).
  It is stranded: recorded for nobody, or for a stopped row that is not its project's
  latest. Or its owner's project is being removed. Or its row is neither stopped nor the
  latest, so that only a drain could free it, and no drain can be had: no port is free,
  its own project has no container started or draining, and no other project that stays
  could give a port back by being removed.
  `ControlPlaneResults.StrandsExactly` and `ControlPlaneResults.StrandedExactly` say
  exactly which steps strand a port; `ControlPlaneResults.APortIsLost` is a short run that
  does. The third case needs no Stop and no Remove: seven hundred deploys whose container
  does not answer, and the beginning of one more, lose every port for good
  (`ControlPlaneLoss.EveryPortIsLost`).
- `Remove` frees the port before it deletes the site file; in between the route leads
  nowhere safe exactly when it named the latest deployment
  (`ControlPlaneResults.RemoveGap`). If the file cannot be deleted the route stays, and is
  safe only if it names no port or another project's (`ControlPlaneResults.UndeletedRoute`).
- Without distinct names a site's requests can be served by another site's runtime: the
  store indexes names in lower case, the router lists them as written and looks up the
  primary domain (`Routing.AliasIsTakenOver`; exactly when:
  `Routing.AgreementExactly`).
- A session token of a user called `2fa.x` is, letter for letter, a pending token of
  `x` (`Tokens.SessionAsPending`). Every session is earned on every honest run exactly if
  no account with a second factor is shadowed like that by one without
  (`Login.TwoFactorExactly`).

## Model

| member | source | states |
|---|---|---|
| TokenBucket.TakeIsWindowLaw | internal/proxy/ratelimit.go:174-185 | A bucket whose level is the least slack of any window ending at its last visit admits exactly when every window ending now has room for one more, and its level is again the least slack afterwards. |
| TokenBucket.FirstVisit | internal/proxy/ratelimit.go:159-172 | A missing key whose past is earned back is admitted by the window law, and the bucket created for it is the one it would have had. |
| TokenBucket.RefilledIsIdle | internal/proxy/ratelimit.go:188-201 | A bucket refilled to capacity belongs to a history that an absent bucket represents as well. |
| TokenBucket.LawfulCeiling | internal/proxy/ratelimit.go:149-186 | If each admission obeyed the window law when it was made, every closed window holds at most burst + rps · length of them. |
| Limiter.ExactAdmission | internal/proxy/ratelimit.go:117-186 | After any run on a clock that does not run back: the site refuses exactly when its window law does, a missing key at the cap is refused, and any other request is admitted exactly if no window of its own key ending now would exceed burst + rps · length. |
| Limiter.ExactAtRequests | internal/proxy/ratelimit.go:149-186 | The same verdict from the windows that begin at any set of earlier instants containing the key's admissions, its request instants for one, and from the window that is now. |
| TokenBucket.InstantsDecide | internal/proxy/ratelimit.go:174-185 | Of all windows ending now only those that begin at an admission, or now, need to be looked at. |
| Limiter.RunCeilings | internal/proxy/ratelimit.go:117-201 | Every reachable state tracks at most 50,000 keys, every key's admissions in any closed window are at most burst + rps · length, and all keys together at most globalBurst + globalRPS · length. |
| Limiter.SweepIsInvisible | internal/proxy/ratelimit.go:154-172 | On every run that meets no missing key at the cap, the limiter with eviction gives each request the answer of one that never evicts and never refuses to track. |
| Limiter.CapMeansCrowd | internal/proxy/ratelimit.go:154-168 | A newcomer is refused at the cap only if 50,000 other addresses each have an admission that had not been earned back one sweep interval ago. |
| SiteLimiter.SiteLimiter.NewLimiter | internal/proxy/ratelimit.go:75-88 | No limiter for a non-positive rate; otherwise an empty one with capacity rps + burst, a negative burst counting as none. |
| SiteLimiter.SiteLimiter.WithGlobal | internal/proxy/ratelimit.go:92-103 | A positive rate adds a full site-wide bucket as of its own reading of the clock and leaves the addresses alone; any other changes nothing. A fresh limiter stays a start of runs. |
| SiteLimiter.SiteLimiter.Allow | internal/proxy/ratelimit.go:117-127 | State and answer are those of one step of the limiter the run theorems are about. |
| SiteLimiter.SiteLimiter.AllowGlobal | internal/proxy/ratelimit.go:129-147 | The site-wide half of that step; the per-key map is untouched. |
| SiteLimiter.SiteLimiter.AllowPerIP | internal/proxy/ratelimit.go:149-186 | The per-key half: due sweep, cap, new bucket, refill and take. |
| SiteLimiter.SiteLimiter.Sweep | internal/proxy/ratelimit.go:194-201 | Exactly the buckets that have refilled are gone, in whatever order the map is walked. |
| InFlight.NeverOverbooked | internal/proxy/ratelimit.go:208-230 | Under any interleaving of requests and repeated releases no more than maxInFlight slots are out. |
| InFlight.BackWhenCalled | internal/proxy/ratelimit.go:220-229 | A slot is back exactly if its release was called after it was granted, however often. |
| InFlight.Gate.Acquire | internal/proxy/ratelimit.go:208-219 | Refuses exactly when capped and full; the counter stays the number of handles out. |
| InFlight.Gate.Release | internal/proxy/ratelimit.go:220-229 | The first call gives the slot back, every later one changes nothing. |
| ControlPlaneSafety.NextKeeps | internal/deploy/deploy.go:146-458 | Every step of every operation keeps the invariant, leaves the other projects' rows, ports and containers and every other domain's route alone, and exposes no route unless it is part of a removal. |
| ControlPlaneSafety.LatestIsLatest | internal/store/deployments.go:90-94 | The deployment the query returns belongs to the project and has the largest id of its rows. |
| ControlPlane.ListIsComplete | internal/store/deployments.go:97-113 | The list holds exactly the project's deployments, each once, newest first. |
| ControlPlaneResults.RouteSafety | internal/deploy/deploy.go:302-351 | In every reachable state a route that names a port names one that is allocated, to a deployment of the project with that domain, whose container has not been removed, unless the project was torn down under it. |
| ControlPlaneResults.NoRemoveNoExposure | internal/deploy/deploy.go:395-413 | Without Remove that exception never arises. |
| ControlPlaneResults.DrainSparesRoutes | internal/deploy/deploy.go:427-445 | No deployment still to be drained is the one a route leads to. |
| ControlPlaneResults.RemoveGap | internal/deploy/deploy.go:400-411 | Once Remove has freed its port, the project's route is unsafe exactly if it named the latest deployment. |
| ControlPlaneResults.UndeletedRoute | internal/deploy/deploy.go:408-412 | After a removal whose site file could not be deleted the route is as it was, and safe exactly if it names no port or was safe and led to a deployment of another project. |
| ControlPlaneResults.PortOwnership | internal/store/ports.go:21-43 | With SELECT and INSERT interleaved: each port of a row that is not stopped is recorded under it, except between the freeing of its port and its marking in a drain, or in the removal of the project if it is the latest; so is each port a running operation holds; and no port has two holders. |
| ControlPlaneResults.AtAnyMoment | internal/store/ports.go:21-43 | In every reachable state, whatever is under way, a port is allocated exactly if a row owns it, a running operation holds it, a row of a project under removal still has it, or it is stranded. |
| ControlPlaneResults.ProjectAtRest | internal/deploy/deploy.go:302-351 | A project without a running operation has exactly the ports of its rows that are not stopped, of its latest, and those stranded under it, whatever the other projects are at. |
| ControlPlaneResults.ExactAtAnyMoment | internal/deploy/deploy.go:302-351 | In runs without Stop and Remove, at any moment, the allocated ports are those of rows that are not stopped, but for one just drained, and those running operations hold. |
| ControlPlaneResults.ExactAtRest | internal/deploy/deploy.go:302-351 | And without Stop and Remove, between operations: a row that is not stopped has it. |
| ControlPlaneResults.AtRest | internal/deploy/deploy.go:302-351 | The same for all projects together between operations: a row that is not stopped or is its project's latest has it, or it is stranded. |
| ControlPlaneResults.SuccessLeavesOnePort | internal/deploy/deploy.go:349-351 | In runs without Stop and Remove, a container deploy or rollback that succeeds leaves its project holding the port of its new row and no other. |
| ControlPlaneResults.SuccessLeaves | internal/deploy/deploy.go:349-351 | In every run it leaves the project holding the port of its new row and otherwise only ports that are stranded. |
| ControlPlaneResults.StrandsExactly | internal/deploy/deploy.go:379-413 | In every state that keeps the invariant, a step strands a port exactly if it begins an operation over a stopped latest deployment that has it, or ends the removal of a project one of whose rows holds it. |
| ControlPlaneResults.StrandedExactly | internal/deploy/deploy.go:379-445 | A port is stranded at the end of a run exactly if some step of the run stranded it. |
| ControlPlaneResults.APortIsLost | internal/deploy/deploy.go:332-391 | A run from the empty state that strands port 8300: a container that does not answer, a Stop, another deploy. |
| ControlPlaneResults.StopThenDeployStrands | internal/deploy/deploy.go:379-391 | Stopping a container and deploying again strands its port: stopped, not the latest, and still recorded. |
| ControlPlaneResults.RemoveStrands | internal/deploy/deploy.go:400-412 | Remove strands every port of the project but that of its latest deployment. |
| ControlPlaneResults.StrandedForever | internal/deploy/deploy.go:427-445 | A stranded port stays allocated whatever any project does afterwards. |
| ControlPlaneLoss.LostExactly | internal/deploy/deploy.go:302-445 | In every reachable state a port is allocated now and after every continuation exactly if it is stranded, or its owner's project is being removed, or only a drain could free it and none can be had. |
| ControlPlaneLoss.DoomedForever | internal/deploy/deploy.go:302-445 | Whatever is done, a port in one of these three conditions stays in one of them. |
| ControlPlaneLoss.OthersFree | internal/deploy/deploy.go:302-445 | Every other port is freed by some continuation. |
| ControlPlaneLoss.EveryPortIsLost | internal/deploy/deploy.go:332-351 | A run from the empty state, without Stop and Remove, after which no port is stranded and none can ever be freed. |
| ControlPlaneResults.RollbackProvenance | internal/deploy/deploy.go:355-376 | Over any run of deploys and repeated rollbacks every image of a row comes from a successful build of the same project, by this or an earlier deployment, and rows that share an image share their commit. |
| DeployManager.Manager.AllocatePort | internal/store/ports.go:21-37 | Reserves the lowest port of the range that is free, or none if all are taken; nothing else changes. |
| DeployManager.Manager.ReleasePort | internal/store/ports.go:40-43 | The port is free again. |
| DeployManager.Manager.Create | internal/store/deployments.go:54-69 | A new row under the next id, in status building. |
| DeployManager.Manager.Deploy | internal/deploy/deploy.go:150-182 | Succeeds exactly if the project exists, the source can be fetched, and a static source can be saved, or an image can be built, a port is free, the container starts and answers and the site file is saved. It is a run of the step machine that keeps the invariant. A success has the commit that was fetched and the image that was built, runs it on the lowest free port and routes the domain there; every other row of the project with a container that was not stopped is, its port is free, and its container is gone if the agent could remove it; nothing else changes. A failure leaves every route, container and held port alone, and its row has the commit, and the image, port and container it got to. |
| DeployManager.Manager.Update | internal/deploy/deploy.go:189-213 | The same, with a project known to be static refreshed and any other deployed. |
| DeployManager.Manager.Rollback | internal/deploy/deploy.go:355-376 | The same with the image and the commit of the target under a new row, whether or not it goes live; a target of another project, or without an image, is refused and changes nothing. |
| DeployManager.Manager.BuildAndServe | internal/deploy/deploy.go:160-182 | What happens after the row was created, with the same condition of success and the same outcomes: a failed sync fails the deployment, a static source is saved as the root, any other is built and run. |
| DeployManager.Manager.FinishStatic | internal/deploy/deploy.go:270-281 | Succeeds, and the route serves the checkout, exactly if the site file could be written; otherwise only the row, as it was given, says failed. |
| DeployManager.Manager.FinishContainer | internal/deploy/deploy.go:283-297 | Succeeds exactly if the build does and the image goes live under the deployment's own id; a failure leaves everything else alone, and the row has the image if it was built. |
| DeployManager.Manager.RunImage | internal/deploy/deploy.go:302-351 | The image given goes live, with the commit given, exactly if a port is free, the container starts and answers and the site file is saved; otherwise everything else is as it was, and the row tells of the port and the container it kept. |
| DeployManager.Manager.Launch | internal/deploy/deploy.go:303-335 | A container on the lowest free port, exactly if one is free, it starts and it answers. Without a port, or a start, ports and containers are as before; one that does not answer keeps port and container, and its row tells of both. |
| DeployManager.Manager.GoLive | internal/deploy/deploy.go:337-351 | The route names the new container's port, and then the older ones are drained: rows, containers and ports are given exactly. |
| DeployManager.Manager.DrainOld | internal/deploy/deploy.go:427-445 | Every other row of the project that has a container and is not stopped is marked stopped, its port is free, and its container is gone if the agent can remove it; no other row, port or container changes. |
| DeployManager.Manager.DrainRow | internal/deploy/deploy.go:436-443 | Container, port and status of one row, in that order; a container the agent cannot remove stays while its port is freed all the same. |
| DeployManager.Manager.Stop | internal/deploy/deploy.go:379-391 | The row with the project's largest id is marked stopped and nothing else changes, exactly if there is one and its container, if it has one, could be stopped; otherwise nothing changes at all. |
| DeployManager.Manager.Remove | internal/deploy/deploy.go:395-413 | The project and exactly its rows are gone; of the containers only that of its newest row goes, if the agent removes it; of the ports only the newest row's, and those recorded for its other rows stay without an owner; the route goes if its file could be deleted. |
| MetricsRing.Millis | internal/metrics/metrics.go:75-78 | The whole milliseconds, rounded down, of every latency that fits, and one for a latency between none and one. |
| MetricsRing.Site.constructor | internal/metrics/metrics.go:59-61 | Agrees with the empty history. |
| MetricsRing.Site.Record | internal/metrics/metrics.go:64-107 | The rings, totals and histogram agree with the history and this request added to it. |
| MetricsRing.Site.RecordBucket | internal/metrics/metrics.go:80-95 | Each slot again holds the newest second of its residue with that second's exact counts. |
| MetricsRing.Site.RecordLatency | internal/metrics/metrics.go:97-102 | Each of the last 1024 latencies is again in the slot of its number modulo 1024. |
| MetricsRing.Site.Snapshot | internal/metrics/metrics.go:127-173 | All that a snapshot says is true of the history: lifetime totals, sums over the last 60 seconds, each second's count, a series that adds up to the requests of the minute, percentiles in order, and the histogram. |
| MetricsRing.ReadingExactly | internal/metrics/metrics.go:127-147 | In a snapshot the lifetime and the last minute have as many requests and errors (status 500 and above, or 0) as the history has in all and in the 60 seconds up to now, and the bytes of those requests. |
| MetricsRing.ChartExactly | internal/metrics/metrics.go:149-172 | Its series has the number of requests of each of the 60 seconds, its histogram exactly the status codes that occur, with how often. |
| MetricsRing.Site.LastMinute | internal/metrics/metrics.go:138-147 | Requests, bytes and errors summed over the slots equal the exact counts of the last 60 seconds. |
| MetricsRing.Site.Series | internal/metrics/metrics.go:149-157 | Entry i is the count of second now - 59 + i, and the entries add up to the count of the minute. |
| MetricsRing.Site.Percentiles | internal/metrics/metrics.go:159-167 | The three percentiles of the last min(n, 1024) observations, in ascending order; all zero before the first. |
| MetricsRing.RingIsWindow | internal/metrics/metrics.go:97-102 | The ring holds exactly the last min(n, 1024) observations as a multiset. |
| MetricsRing.PctOfSorted | internal/metrics/metrics.go:175-184 | The value picked is one of the observations, with at most p percent below it and more than p percent at or below it. |
| MetricsRing.PercentileIsUnique | internal/metrics/metrics.go:159-184 | No other value has that property, so the order in the ring does not matter. |
| Throttle.BruteForceBound | internal/auth/throttle.go:44-97 | Over every run, with lockouts, idle resets and pruning, any closed quarter of an hour holds at most five admitted failures of a key since its last success. |
| Throttle.LockedExactly | internal/auth/throttle.go:44-76 | After any timed run, with or without pruning, a key is locked exactly if its admitted failures since its last success end in the fifth of a stretch at most a quarter of an hour ago; a stretch begins with the first failure, after a gap of more than a quarter of an hour, and after a lock. |
| Throttle.PruningIsInvisible | internal/auth/throttle.go:85-97 | The throttle that prunes answers every attempt as one that never does. |
| Throttle.BigTableIsRecent | internal/auth/throttle.go:12-14 | Beyond 4096 keys all of them last failed within a quarter of an hour. |
| Throttle.FloodIsKept | internal/auth/throttle.go:12-14 | Any number of keys failing at one instant is kept, so no fixed bound holds. |
| Throttle.FloodExactly | internal/auth/throttle.go:57-97 | Right after a failure, for every n from 4096 on, the table holds more than n keys exactly if more than n keys had an admitted failure within the window and no success since. |
| Throttle.Throttle.Blocked | internal/auth/throttle.go:44-53 | Locked up to and including lockUntil, with the time that remains. |
| Throttle.Throttle.Fail | internal/auth/throttle.go:57-76 | The table is pruned and the key's record moved on as in one step of the runs that `Throttle.LockedExactly` is about: counted, restarted after a quiet window, or locked at the fifth. |
| Throttle.Throttle.Reset | internal/auth/throttle.go:79-83 | The key's record is gone, the others stay. |
| Throttle.Throttle.Prune | internal/auth/throttle.go:88-97 | At 4096 keys or more exactly the keys that are locked or were active within the window survive. |
| Tokens.SessionRoundTrip | internal/auth/auth.go:138-199 | A session token stands for the account it was issued to until it expires, exactly if the name has no dot. |
| Tokens.PendingRoundTrip | internal/auth/auth.go:274-304 | So does a pending token, for five minutes. |
| Tokens.PendingIsNoSession | internal/auth/auth.go:172-199 | No pending token is ever accepted as a session, whatever the user name. |
| Tokens.SessionAsPending | internal/auth/auth.go:282-304 | A session token is accepted as a pending one for u exactly if it was issued to the name 2fa.u, u has no dot and is an account, and it is unexpired. |
| Tokens.SessionPasses | internal/auth/auth.go:177-198 | Acceptance in terms of the text: a token passes for a user exactly if it is name, expiry and the signature over both, unexpired, and the user is an account. |
| Tokens.PendingPasses | internal/auth/auth.go:283-303 | The same for pending tokens. |
| Tokens.NewAdmins | internal/auth/auth.go:54-67 | Refused without accounts or with a blank one; otherwise a name, in lower case, finds the last account that bears it in any case. |
| Strings.DecimalRoundTrip | internal/auth/auth.go:140-186 | An expiry that was printed is read back if it fits 64 bits, and refused otherwise. |
| Login.TwoFactor | internal/ui/ui.go:282-318 | On every honest run every session of a user with a second factor follows that user's right password in a request less than five minutes earlier and comes with a right code, and every other session comes with the right password, unless an account with a second factor and no dot in its name is shadowed by an account 2fa.name without one. |
| Login.TwoFactorExactly | internal/ui/ui.go:282-318 | That holds of all honest runs exactly if no account is shadowed so. |
| Login.ShadowGetsIn | internal/auth/auth.go:282-304 | For every account shadowed so there is an honest run that signs it in without its password, whenever the password and code given are right. |
| Login.CodeCompletes | internal/ui/ui.go:283-300 | What becomes of an answer with the token that was handed out, from an address not locked out: expired if it is late or the name has a dot, else signed in with a right code and refused with a wrong one. |
| Login.LoginIsThrottled | internal/ui/ui.go:273-317 | Over every run of requests the throttle is that of the attempts they make, and the refusals are its admitted failures. |
| Login.GuessesAreBounded | internal/ui/ui.go:273-309 | At most five wrong passwords and codes together are looked at from an address in any quarter of an hour since its last sign-in. |
| Login.RunAnswers | internal/ui/ui.go:253-319 | Every request of every run is answered by what it carries and by whether its address is locked by the refusals it was given before: the CSRF check first, then the lock, then the code of a pending login or the password, with a code wanted exactly for a right password of an account with a second factor. Only the session or pending token of that answer gets signed. |
| Login.LockoutHolds | internal/ui/ui.go:273-280 | A request that passes the CSRF check, from an address locked by its refusals, is answered as locked, right or wrong, and changes nothing. |
| Login.SignedHasOrigin | internal/auth/auth.go:136-153 | Whatever the server signed is the session text of an account or the pending text of a request that passed the password step. |
| Login.Server.HandleLogin | internal/ui/ui.go:253-319 | Throttle, signatures and answer after a request are those of one step of the login machine, whose answers `Login.RunAnswers` gives. |
| EnvText.ParseEnvText | internal/ui/projects.go:280-292 | The loop over the lines computes the map of which `EnvText.ParseExactly` says what it holds. |
| EnvText.ReadsExactly | internal/ui/projects.go:283-289 | A line reads as key and value exactly if it is the two, trimmed, around an equals sign, with space anywhere around them, and the key is not empty, has no equals sign and does not begin with '#'. |
| EnvText.LinesAreTheText | internal/ui/projects.go:282-282 | The lines, joined by line feeds, are the text, and none has a line feed. |
| EnvText.ParseExactly | internal/ui/projects.go:280-292 | A key has a value exactly if some line says so and no later line says anything of that key. |
| EnvText.EnvText | internal/ui/projects.go:307-316 | The text is the keys in ascending order, a line each, however the map was walked. |
| EnvText.RenderExactly | internal/ui/projects.go:307-316 | Without line feeds in keys and values, the lines of the text are the entries in the order of the keys, one each, and the empty line after the last. |
| EnvText.RenderingIsUnique | internal/ui/projects.go:307-316 | There is only one such text. |
| EnvText.ParseIsClean | internal/ui/projects.go:280-292 | What comes out of reading has keys and values that a line can carry: trimmed, without line feeds, keys not empty, without '=' and not starting with '#'. |
| EnvText.RoundTrip | internal/ui/projects.go:280-316 | A map comes back from its text exactly if it is of that kind. |
| EnvText.ViewAndSave | internal/ui/projects.go:280-316 | For every input text, rendering what was read and reading it again gives the same map. |
| Routing.Store.Replace | internal/config/config.go:450-464 | The index maps a name in lower case to the last enabled site that bears it, and has no other entries. |
| Routing.Store.Lookup | internal/config/config.go:467-477 | A lookup is a scan for the last enabled site bearing the header, cut at its last colon and in lower case. |
| Routing.PortIsStripped | internal/config/config.go:468-472 | A header of a host, and a port if there is one, gives the host exactly if there is a port or no colon in the host; a bare IPv6 address loses its last part. |
| Routing.Router.Reload | internal/proxy/router.go:107-142 | A name as written leads to the last enabled site that lists it and whose handler could be built. |
| Routing.Router.Route | internal/proxy/router.go:222-253 | Not found, unavailable, or the runtime the primary domain of the found site leads to. |
| Routing.Router.Guarded | internal/proxy/router.go:255-277 | 429 exactly if the limiter refuses, 503 exactly if it admits and the gate is full, and after any request as many slots are free as before it. |
| Routing.AgreementExactly | internal/proxy/router.go:222-253 | A header is served by the runtime of the very site it names, or by none if that could not be built, exactly if no other built site, later or in place of an unbuilt one, lists that site's domain. |
| Routing.DistinctNamesAgree | internal/proxy/router.go:222-253 | Names pairwise distinct ignoring case are enough for every header. |
| Routing.AliasIsTakenOver | internal/proxy/router.go:134-137 | Two sites for which it fails: requests for one's alias are served by the other. |
| SecurityMonitor.AggregateAuth | internal/secmon/secmon.go:281-304 | The counts of each address and each user name, the totals and the list of successes equal those of the events. |
| SecurityMonitor.AggregateBans | internal/secmon/secmon.go:307-319 | Bans of each address, their total, and each address's last action equal those of the ban log. |
| SecurityMonitor.MarkBanned | internal/secmon/secmon.go:320-327 | Held are exactly the addresses whose last action is a ban, and active bans is their number. |
| SecurityPage.Top | internal/secmon/secmon.go:337-369 | The first entries of the ranking by count and then by name, from a map walked in any order. |
| SecurityPage.RankingIsUnique | internal/secmon/secmon.go:344-366 | There is only one ranking, so the order of the walk does not show. |
| SecurityPage.ShownIsBest | internal/secmon/secmon.go:351-369 | Whoever is cut off has a lower count than anyone who is shown, or the same and a later name. |
| SecurityPage.ClassifyHijacks | internal/secmon/secmon.go:410-475 | One row for each address, user and method with a flagged login, with its exact count, latest time and severity, the high ones first and then the most recent. |
| SecurityPage.RowsPartitionFlagged | internal/secmon/secmon.go:410-475 | The rows' counts add up to exactly the flagged logins, no row comes before a high one unless it is high, and among the rest the more recent come first. |
| SecurityPage.Build | internal/secmon/secmon.go:261-382 | Counts, bans, rankings, alerts, newest events and hourly chart in terms of the two logs. |
| SecurityFacts.AddressExactly | internal/secmon/secmon.go:281-327 | What the page knows of an address: failures, unknown names, logins and bans are the numbers of lines of those kinds that name it, and it is held exactly if the last line of the ban log that names it is a ban. |
| SecurityFacts.AttackersExactly | internal/secmon/secmon.go:337-349 | An address is listed exactly if some line says that it failed, and ranked by all its failures and logins together. |
| SecurityFacts.NamesExactly | internal/secmon/secmon.go:281-304 | A user name is listed exactly if it is not blank and some line says that it failed, and ranked by how many do. |
| SecurityFacts.LoginsExactly | internal/secmon/secmon.go:410-475 | An address, user and method has an alert exactly if it logged in and did so by password or from an address with twenty failures; the alert counts all its logins, has the time of the latest, and is high exactly with twenty failures. |
| SecurityFacts.ListsExactly | internal/secmon/secmon.go:498-512 | The three lists show the newest failures, bans and logins, newest first, all of them or as many as allowed. |
| SecurityFacts.TotalsExactly | internal/secmon/secmon.go:281-319 | The totals are numbers of lines of the two logs that name an address. |
| SecurityFacts.HoursExactly | internal/secmon/secmon.go:478-495 | Entry i of the chart is the number of dated lines with a failed password or unknown user in the i-th of the 24 whole hours that end with the current one. |
| SecurityPage.PageAddsUp | internal/secmon/secmon.go:281-319 | Failures, invalid users, successes and bans summed over the addresses equal the page's totals, the alerts add up to the flagged logins and the hours to the failures of the window. |
| SecurityPage.PageIsDetermined | internal/secmon/secmon.go:320-371 | Two pages made from the same logs are equal, up to the order of alerts of equal severity and time. |
| SecurityPage.TailFailures | internal/secmon/secmon.go:498-506 | The newest failures first, as many as allowed. |
| SecurityPage.Reverse | internal/secmon/secmon.go:508-512 | The events in place, back to front. |
| SecurityPage.HourlyFailures | internal/secmon/secmon.go:478-495 | Entry i counts the failed passwords and invalid users of the i-th hour of the window; events for too many tries, which the totals include, are not in it. |
| SecurityPage.HoursAddUp | internal/secmon/secmon.go:478-495 | The hours add up to the failures of the whole window. |
| SecurityPage.WindowCoversNow | internal/secmon/secmon.go:481-481 | The window is the current hour and the 23 before it. |
| SecurityPage.Itoa | internal/secmon/secmon.go:604-624 | The decimal text, within a buffer of twenty, except that the least 64-bit integer comes out as a bare sign. |
| SecurityPage.ItoaRoundTrip | internal/secmon/secmon.go:604-624 | The text is read back as the number for every 64-bit integer but the least. |
| SwapDir.Disk.Swap | internal/gitsource/gitsource.go:194-214 | At every crash point and rename failure the old tree is intact, in place or set aside, until the new one is in place; success leaves the new tree, failure leaves everything as it was unless the restoring rename fails too; a directory that was there is absent at some point exactly if it could be renamed aside. |
| SwapDir.Disk.CloneSwap | internal/gitsource/gitsource.go:144-189 | The same from an empty temporary directory on: a clone that fails or is cut short never touches the live tree, and the temporary directory is swept. |
| SwapDir.NeverHalfWritten | internal/gitsource/gitsource.go:141-143 | No crash finds a half-written tree in the live place; it finds the old one there or aside, the new one, or no directory. |

## Left out

- Token counts and times of the limiter are real numbers, not `float64`; a request reads the clock once, and no request is served with a clock reading older than the one before it, although the code reads the clock before it takes the lock.
- The limiter object is split in two here: the rate half is `SiteLimiter.SiteLimiter`, the in-flight half `InFlight.Gate`; no method of either half touches the other's fields.
- Taken as one step each: Remove's removal of the container with the freeing of its port, and its deletion of the site file with the reload and the deletion of the project; the writing of a site file with the reload, and in a container deploy with the listing of the older deployments.
- A restart of the process keeps the signing secret and forgets the throttle: `Login.Run` begins with nothing signed and nobody counted, so a pending token from before a restart is outside `Login.TwoFactor`.
- One operation per project at a time is assumed of the deploy engine. `internal/ui/projects.go:391-398` checks and sets its flag under two separate lock acquisitions, and Stop and Remove do not look at it, so it is not proved.
- Loading, replacing and reloading the site list is one step; a write to the database always succeeds; a crash of the process in the middle of an operation is not modelled; a missing agent is a build that fails.
- An image and a container are named by the id of their deployment, and stopping one is no step of its own: a stopped container counts as not removed. Site files edited by hand, options such as TLS or headers kept in them, and projects without a domain are not part of this model.
- `DeployManager.Manager` runs one method at a time, so its port search cannot lose the race for a port; that branch, and every other interleaving, is in the step machine.
- Which containers stay behind for good, after a drain or a removal that could not remove them, is not stated as it is for ports.
- Routes are keyed by domain as written; `SiteFilename` folding and replacing characters is not part of this model.
- A blocked-or-not test and the failure that follows it are one step of the throttle, and the clock does not run back; concurrent requests between the two are not modelled.
- Login.TwoFactor: assumes that a signature is only ever right over a text the server signed, and that no account is shadowed, which `Login.TwoFactorExactly` proves necessary; the CSRF check, the audit log and page rendering are one yes-or-no input.
- Upper and lower case are ASCII only; texts are sequences of Unicode scalar values, so invalid UTF-8 is not modelled.
- Counters of the metrics do not wrap, atomic totals and the fields under the lock change together, and a snapshot is taken at second 59 or later; before that the code would index a slot below zero.
- The library sort is modelled by a sort of our own; alerts of equal severity and time may come out in any order there.
- Times first and last seen of an address, alert reasons, the size and window of the parsed log tail, log parsing and the snapshot cache of the security page.
- EnvText.EnvText: encryption and JSON between saving and viewing are taken to be the identity.
- Trees left aside by a crash are never picked up again by the program, so no recovery is stated.
- Upstream round robin, header maps, exploit filtering, HTTPS redirects and shutdown in `ServeHTTP`; HTTP handlers and templates; Docker, git, TLS and SQLite themselves.
