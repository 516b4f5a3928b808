/** The two-stage login handler, driving the throttle and the tokens, as a step
    machine over requests. */
module Login {
  import opened Options
  import opened Strings
  import opened Tokens
  import T = Throttle

  /** One request. `checked` is a POST whose form was read and whose CSRF token was
      right; an absent form field reads as "". */
  datatype Request = Request(at: nat, ip: string, checked: bool, username: string, password: string,
                             pending: string, otp: string)

  datatype Outcome =
    | Ignored
    | Locked
    | Expired
    | Refused
    | CodeWanted(user: string, token: string)
    | SignedIn(user: string, token: string)

  /** The throttle and, for the statements only, everything signed so far. */
  datatype State = State(throttle: T.Table, signed: set<string>)

  function Punish(s: State, r: Request): State
  {
    s.(throttle := T.Failed(T.Pruned(s.throttle, r.at), r.ip, r.at))
  }

  function SignIn(c: Crypto, s: State, r: Request, username: string): (State, Outcome)
  {
    (State(s.throttle - {r.ip}, s.signed + {SessionPayload(username, Unix(r.at) + SESSION_AGE)}),
     SignedIn(Lower(username), IssueCookie(c, username, r.at)))
  }

  function AskCode(c: Crypto, s: State, r: Request): (State, Outcome)
  {
    (s.(signed := s.signed + {PendingPayload(r.username, Unix(r.at) + PENDING_AGE)}),
     CodeWanted(Lower(r.username), IssuePending(c, r.username, r.at)))
  }

  function SecondStage(c: Crypto, admins: Admins, s: State, r: Request): (State, Outcome)
  {
    match VerifyPending(c, admins, r.pending, r.at)
    case None => (s, Expired)
    case Some(user) =>
      if CodeOK(c, admins, user, r.otp, r.at) then SignIn(c, s, r, user) else (Punish(s, r), Refused)
  }

  function FirstStage(c: Crypto, admins: Admins, s: State, r: Request): (State, Outcome)
  {
    if !PasswordOK(c, admins, r.username, r.password) then (Punish(s, r), Refused)
    else if TOTPEnabled(admins, r.username) then AskCode(c, s, r)
    else SignIn(c, s, r, r.username)
  }

  function Step(c: Crypto, admins: Admins, s: State, r: Request): (State, Outcome)
  {
    if !r.checked then (s, Ignored)
    else if T.IsBlocked(s.throttle, r.ip, r.at) then (s, Locked)
    else if r.pending != "" then SecondStage(c, admins, s, r)
    else FirstStage(c, admins, s, r)
  }

  function Run(c: Crypto, admins: Admins, rs: seq<Request>): (State, seq<Outcome>)
  {
    if rs == [] then (State(map[], {}), [])
    else
      var (s, log) := Run(c, admins, rs[..|rs| - 1]);
      var (s', out) := Step(c, admins, s, rs[|rs| - 1]);
      (s', log + [out])
  }

  ghost predicate Timed(rs: seq<Request>)
  {
    && (forall i :: 0 <= i < |rs| ==> 0 < rs[i].at)
    && (forall i, j :: 0 <= i <= j < |rs| ==> rs[i].at <= rs[j].at)
  }

  // ---- the throttle over requests ----

  /** The attempt the throttle sees in a request: a wrong credential, or the last
      right one. A right password of a user with a second factor is neither. */
  function AttemptOf(c: Crypto, admins: Admins, r: Request): seq<T.Attempt>
  {
    if !r.checked then []
    else if r.pending != "" then
      match VerifyPending(c, admins, r.pending, r.at)
      case None => []
      case Some(user) => [T.Attempt(r.ip, r.at, CodeOK(c, admins, user, r.otp, r.at))]
    else if !PasswordOK(c, admins, r.username, r.password) then [T.Attempt(r.ip, r.at, false)]
    else if TOTPEnabled(admins, r.username) then []
    else [T.Attempt(r.ip, r.at, true)]
  }

  function Attempts(c: Crypto, admins: Admins, rs: seq<Request>): seq<T.Attempt>
  {
    if rs == [] then [] else Attempts(c, admins, rs[..|rs| - 1]) + AttemptOf(c, admins, rs[|rs| - 1])
  }

  /** When a request from `ip` was refused for a wrong credential, since the last
      sign-in from there. */
  function Refusals(rs: seq<Request>, log: seq<Outcome>, ip: string): seq<int>
    requires |log| == |rs|
  {
    if rs == [] then []
    else
      var n := |rs| - 1;
      var rest := Refusals(rs[..n], log[..n], ip);
      RefusalsThen(rest, rs[n], log[n], ip)
  }

  /** What a request did to the throttle and how it ended, in terms of the attempt
      it made, if any. */
  ghost predicate Matches(m: T.Table, m': T.Table, out: Outcome, r: Request, a: seq<T.Attempt>)
  {
    if a == [] then m' == m && !out.Refused? && !out.SignedIn?
    else
      && |a| == 1 && a[0].key == r.ip && a[0].at == r.at && m' == T.Try(m, a[0], true).0
      && (out.Refused? <==> T.Try(m, a[0], true).1 && !a[0].right)
      && (out.SignedIn? <==> T.Try(m, a[0], true).1 && a[0].right)
  }

  lemma StepIsTry(c: Crypto, admins: Admins, s: State, r: Request)
    ensures var (s', out) := Step(c, admins, s, r); Matches(s.throttle, s'.throttle, out, r, AttemptOf(c, admins, r))
  {
    if r.checked && !T.IsBlocked(s.throttle, r.ip, r.at) {
      if r.pending != "" {
        SecondStageIsTry(c, admins, s, r);
      } else {
        FirstStageIsTry(c, admins, s, r);
      }
    }
  }

  lemma FirstStageIsTry(c: Crypto, admins: Admins, s: State, r: Request)
    requires r.checked && r.pending == "" && !T.IsBlocked(s.throttle, r.ip, r.at)
    ensures var (s', out) := FirstStage(c, admins, s, r);
            Matches(s.throttle, s'.throttle, out, r, AttemptOf(c, admins, r))
  {
  }

  lemma SecondStageIsTry(c: Crypto, admins: Admins, s: State, r: Request)
    requires r.checked && r.pending != "" && !T.IsBlocked(s.throttle, r.ip, r.at)
    ensures var (s', out) := SecondStage(c, admins, s, r);
            Matches(s.throttle, s'.throttle, out, r, AttemptOf(c, admins, r))
  {
  }

  function RefusalsThen(refusals: seq<int>, r: Request, out: Outcome, ip: string): seq<int>
  {
    if r.ip != ip then refusals
    else if out.Refused? then refusals + [r.at]
    else if out.SignedIn? then []
    else refusals
  }

  lemma MatchedStep(before: seq<T.Attempt>, a: seq<T.Attempt>, m': T.Table, out: Outcome, r: Request, ip: string)
    requires Matches(T.Run(before, true).0, m', out, r, a)
    ensures T.Run(before + a, true).0 == m'
    ensures T.Failures(T.Run(before + a, true).1, ip) == RefusalsThen(T.Failures(T.Run(before, true).1, ip), r, out, ip)
  {
    if a == [] {
      assert before + a == before;
    } else {
      var (m, tried) := T.Run(before, true);
      var ok := T.Try(m, a[0], true).1;
      assert (before + a)[..|before|] == before && (before + a)[|before|] == a[0];
      assert (tried + [T.Entry(a[0], ok)])[..|tried|] == tried;
    }
  }

  /** The login's throttle is the throttle of its attempts, and refuses as it does. */
  lemma {:induction false} LoginIsThrottled(c: Crypto, admins: Admins, rs: seq<Request>, ip: string)
    ensures var (s, log) := Run(c, admins, rs);
            && |log| == |rs|
            && s.throttle == T.Run(Attempts(c, admins, rs), true).0
            && Refusals(rs, log, ip) == T.Failures(T.Run(Attempts(c, admins, rs), true).1, ip)
  {
    if rs != [] {
      var n := |rs| - 1;
      LoginIsThrottled(c, admins, rs[..n], ip);
      var (s, log) := Run(c, admins, rs[..n]);
      var (s', out) := Step(c, admins, s, rs[n]);
      StepIsTry(c, admins, s, rs[n]);
      MatchedStep(Attempts(c, admins, rs[..n]), AttemptOf(c, admins, rs[n]), s'.throttle, out, rs[n], ip);
      assert (log + [out])[..n] == log;
    }
  }

  ghost predicate Until(attempts: seq<T.Attempt>, clock: int)
  {
    T.Timed(attempts) && forall i :: 0 <= i < |attempts| ==> attempts[i].at <= clock
  }

  lemma UntilGrows(attempts: seq<T.Attempt>, clock: int, more: seq<T.Attempt>, now: int)
    requires Until(attempts, clock) && clock <= now && 0 < now && |more| <= 1 && (more != [] ==> more[0].at == now)
    ensures Until(attempts + more, now)
  {
  }

  lemma {:induction false} AttemptsAreTimed(c: Crypto, admins: Admins, rs: seq<Request>)
    requires Timed(rs)
    ensures Until(Attempts(c, admins, rs), if rs == [] then 0 else rs[|rs| - 1].at)
  {
    if rs != [] {
      var n := |rs| - 1;
      AttemptsAreTimed(c, admins, rs[..n]);
      StepIsTry(c, admins, State(map[], {}), rs[n]);
      var clock := if n == 0 then 0 else rs[n - 1].at;
      UntilGrows(Attempts(c, admins, rs[..n]), clock, AttemptOf(c, admins, rs[n]), rs[n].at);
    }
  }

  /** At most five wrong credentials from one address are looked at in any quarter
      of an hour since its last sign-in, whichever stage they were for. */
  lemma GuessesAreBounded(c: Crypto, admins: Admins, rs: seq<Request>, ip: string, s: int, t: int)
    requires Timed(rs) && s <= t <= s + T.WINDOW
    ensures |Run(c, admins, rs).1| == |rs|
    ensures T.Within(Refusals(rs, Run(c, admins, rs).1, ip), s, t) <= T.MAX_FAILS
  {
    LoginIsThrottled(c, admins, rs, ip);
    AttemptsAreTimed(c, admins, rs);
    T.BruteForceBound(Attempts(c, admins, rs), ip, s, t);
  }

  // ---- what a run answers ----

  /** The address is locked out, by the refusals the run has given it. */
  ghost predicate LockedBy(c: Crypto, admins: Admins, rs: seq<Request>, r: Request)
  {
    && |Run(c, admins, rs).1| == |rs|
    && T.LockedOut(Refusals(rs, Run(c, admins, rs).1, r.ip), r.at)
  }

  /** The user a request's pending token stands for, if it comes with one. */
  function Pending(c: Crypto, admins: Admins, r: Request): Option<string>
  {
    if r.pending == "" then None else VerifyPending(c, admins, r.pending, r.at)
  }

  /** How a request is answered: ignored unless checked; locked out before anything
      else is looked at; with a token, expired, refused or signed in by the code;
      without one, refused, asked for a code or signed in by the password. */
  ghost predicate Answered(c: Crypto, admins: Admins, locked: bool, r: Request, out: Outcome)
  {
    var password := PasswordOK(c, admins, r.username, r.password);
    var user := Pending(c, admins, r);
    var heard := r.checked && !locked;
    && (out.Ignored? <==> !r.checked)
    && (out.Locked? <==> r.checked && locked)
    && (out.Expired? <==> heard && r.pending != "" && user.None?)
    && (out.CodeWanted? <==> heard && r.pending == "" && password && TOTPEnabled(admins, r.username))
    && (out.Refused? <==>
          heard && if r.pending == "" then !password else user.Some? && !CodeOK(c, admins, user.value, r.otp, r.at))
    && (out.SignedIn? <==>
          heard && if r.pending == "" then password && !TOTPEnabled(admins, r.username)
                   else user.Some? && CodeOK(c, admins, user.value, r.otp, r.at))
  }

  /** For whom a token is handed out, and what was signed for it. */
  ghost predicate HandsOut(c: Crypto, r: Request, who: string, out: Outcome, was: set<string>, signed: set<string>)
  {
    match out
    case SignedIn(user, token) =>
      && user == Lower(who) && token == IssueCookie(c, who, r.at)
      && signed == was + {SessionPayload(who, Unix(r.at) + SESSION_AGE)}
    case CodeWanted(user, token) =>
      && user == Lower(who) && token == IssuePending(c, who, r.at)
      && signed == was + {PendingPayload(who, Unix(r.at) + PENDING_AGE)}
    case _ => signed == was
  }

  lemma StepAnswers(c: Crypto, admins: Admins, s: State, r: Request)
    ensures var (s', out) := Step(c, admins, s, r);
            && Answered(c, admins, T.IsBlocked(s.throttle, r.ip, r.at), r, out)
            && HandsOut(c, r, if Pending(c, admins, r).Some? then Pending(c, admins, r).value else r.username, out,
                        s.signed, s'.signed)
  {
  }

  lemma LockIsKnown(c: Crypto, admins: Admins, rs: seq<Request>, r: Request)
    requires Timed(rs + [r])
    ensures T.IsBlocked(Run(c, admins, rs).0.throttle, r.ip, r.at) <==> LockedBy(c, admins, rs, r)
  {
    LoginIsThrottled(c, admins, rs, r.ip);
    assert forall i :: 0 <= i < |rs| ==> rs[i] == (rs + [r])[i];
    assert r == (rs + [r])[|rs|];
    AttemptsAreTimed(c, admins, rs);
    T.LockedExactly(Attempts(c, admins, rs), true, r.ip, r.at);
  }

  /** Every request of every run is answered by what it carries and by the refusals
      its address was given before, and by nothing else; only a session or a pending
      token that is handed out gets signed. */
  lemma RunAnswers(c: Crypto, admins: Admins, rs: seq<Request>, r: Request)
    requires Timed(rs + [r])
    ensures var (s, log) := Run(c, admins, rs + [r]);
            && |log| == |rs| + 1 && log[..|rs|] == Run(c, admins, rs).1
            && Answered(c, admins, LockedBy(c, admins, rs, r), r, log[|rs|])
            && HandsOut(c, r, if Pending(c, admins, r).Some? then Pending(c, admins, r).value else r.username,
                        log[|rs|],
                        Run(c, admins, rs).0.signed, s.signed)
  {
    assert (rs + [r])[..|rs|] == rs;
    RunsOn(c, admins, rs + [r]);
    LockIsKnown(c, admins, rs, r);
    StepAnswers(c, admins, Run(c, admins, rs).0, r);
  }

  /** A locked address gets nowhere: no right password, code or token is told from a
      wrong one, nothing is signed, and the lock stays as it is. */
  lemma LockoutHolds(c: Crypto, admins: Admins, rs: seq<Request>, r: Request)
    requires Timed(rs + [r]) && r.checked && LockedBy(c, admins, rs, r)
    ensures var (s, log) := Run(c, admins, rs + [r]);
            |log| == |rs| + 1 && log[|rs|] == Locked && s == Run(c, admins, rs).0
  {
    RunAnswers(c, admins, rs, r);
    assert (rs + [r])[..|rs|] == rs;
    RunsOn(c, admins, rs + [r]);
    LockIsKnown(c, admins, rs, r);
  }

  // ---- the second factor ----

  /** Nobody but the server signs: a pending token whose signature is right was
      signed over something the server signed before, or over something CSRF. */
  ghost predicate Honest(c: Crypto, admins: Admins, rs: seq<Request>)
  {
    forall i, p :: 0 <= i < |rs| && c.decode(rs[i].pending) == Some(Signed(c, p)) ==>
      p in Run(c, admins, rs[..i]).0.signed || (p != "" && p[0] == 'c')
  }

  /** Accounts are kept under their names in lower case. */
  ghost predicate AllLower(admins: Admins)
  {
    forall u :: u in admins ==> Lower(u) == u
  }

  /** Account "2fa.u" has no second factor while account u, without a dot, has one. */
  predicate Shadowed(admins: Admins, u: string)
  {
    u in admins && admins[u].totp != "" && '.' !in u && Dot("2fa", u) in admins && admins[Dot("2fa", u)].totp == ""
  }

  ghost predicate NoShadows(admins: Admins)
  {
    forall u :: !Shadowed(admins, u)
  }

  /** Request `j` passed the password step of `user`. */
  ghost predicate PasswordStep(c: Crypto, admins: Admins, rs: seq<Request>, log: seq<Outcome>, j: nat, user: string)
  {
    && j < |rs| && j < |log| && log[j].CodeWanted? && log[j].user == user
    && rs[j].checked && Lower(rs[j].username) == user && PasswordOK(c, admins, rs[j].username, rs[j].password)
  }

  /** A session is issued without a second factor, or to a name without a dot. */
  ghost predicate FromSession(admins: Admins, p: string, user: string, exp: nat)
  {
    user in admins && (admins[user].totp == "" || '.' !in user) && p == Dot(user, Decimal(exp))
  }

  ghost predicate FromPassword(c: Crypto, admins: Admins, rs: seq<Request>, log: seq<Outcome>, p: string, j: nat,
                               user: string)
  {
    PasswordStep(c, admins, rs, log, j, user) && p == Dot(Dot("2fa", user), Decimal(Unix(rs[j].at) + PENDING_AGE))
  }

  /** Where a signed text came from. */
  ghost predicate Origin(c: Crypto, admins: Admins, rs: seq<Request>, log: seq<Outcome>, p: string)
  {
    || (exists user, exp: nat :: FromSession(admins, p, user, exp))
    || (exists user, j: nat :: FromPassword(c, admins, rs, log, p, j, user))
  }

  lemma OriginLasts(c: Crypto, admins: Admins, rs: seq<Request>, log: seq<Outcome>, r: Request, out: Outcome, p: string)
    requires |rs| == |log| && Origin(c, admins, rs, log, p)
    ensures Origin(c, admins, rs + [r], log + [out], p)
  {
    if j: nat, user :| FromPassword(c, admins, rs, log, p, j, user) {
      assert FromPassword(c, admins, rs + [r], log + [out], p, j, user);
    }
  }

  /** What a request that ended in `out` had signed. */
  ghost predicate Signs(c: Crypto, admins: Admins, r: Request, out: Outcome, p: string)
  {
    match out
    case SignedIn(user, _) => FromSession(admins, p, user, Unix(r.at) + SESSION_AGE)
    case CodeWanted(user, _) => FromPassword(c, admins, [r], [out], p, 0, user)
    case _ => false
  }

  lemma FirstStageSigns(c: Crypto, admins: Admins, s: State, r: Request, p: string)
    requires p in FirstStage(c, admins, s, r).0.signed && p !in s.signed && r.checked
    ensures Signs(c, admins, r, FirstStage(c, admins, s, r).1, p)
  {
    if TOTPEnabled(admins, r.username) {
      AskCodeSigns(c, admins, s, r, p);
    }
  }

  lemma AskCodeSigns(c: Crypto, admins: Admins, s: State, r: Request, p: string)
    requires p in AskCode(c, s, r).0.signed && p !in s.signed
    requires r.checked && PasswordOK(c, admins, r.username, r.password)
    ensures Signs(c, admins, r, AskCode(c, s, r).1, p)
  {
  }

  lemma SecondStageSigns(c: Crypto, admins: Admins, s: State, r: Request, p: string)
    requires p in SecondStage(c, admins, s, r).0.signed && p !in s.signed && AllLower(admins)
    ensures Signs(c, admins, r, SecondStage(c, admins, s, r).1, p)
  {
    PendingPasses(c, admins, r.pending, VerifyPending(c, admins, r.pending, r.at).value, r.at);
  }

  lemma StepSigns(c: Crypto, admins: Admins, s: State, r: Request, p: string)
    requires p in Step(c, admins, s, r).0.signed && p !in s.signed && AllLower(admins)
    ensures Signs(c, admins, r, Step(c, admins, s, r).1, p)
  {
    if r.pending != "" {
      SecondStageSigns(c, admins, s, r, p);
    } else {
      FirstStageSigns(c, admins, s, r, p);
    }
  }

  lemma SignsIsOrigin(c: Crypto, admins: Admins, rs: seq<Request>, log: seq<Outcome>, r: Request, out: Outcome,
                      p: string)
    requires |rs| == |log| && Signs(c, admins, r, out, p)
    ensures Origin(c, admins, rs + [r], log + [out], p)
  {
    match out {
      case SignedIn(user, _) =>
      case CodeWanted(user, _) => assert FromPassword(c, admins, rs + [r], log + [out], p, |rs|, user);
    }
  }

  /** The last step of a run. */
  lemma RunsOn(c: Crypto, admins: Admins, rs: seq<Request>)
    requires rs != []
    ensures var before := rs[..|rs| - 1];
            var r := rs[|rs| - 1];
            var (s, log) := Run(c, admins, before);
            && |log| == |before| && |Run(c, admins, rs).1| == |rs|
            && Run(c, admins, rs).1 == log + [Step(c, admins, s, r).1] &&
                Run(c, admins, rs).0 == Step(c, admins, s, r).0
            && rs == before + [r]
  {
    LoginIsThrottled(c, admins, rs[..|rs| - 1], "");
  }

  lemma {:induction false} SignedHasOrigin(c: Crypto, admins: Admins, rs: seq<Request>, p: string)
    requires AllLower(admins) && p in Run(c, admins, rs).0.signed
    ensures |Run(c, admins, rs).1| == |rs|
    ensures Origin(c, admins, rs, Run(c, admins, rs).1, p)
  {
    if rs != [] {
      RunsOn(c, admins, rs);
      var before, r := rs[..|rs| - 1], rs[|rs| - 1];
      var (s, log) := Run(c, admins, before);
      if p in s.signed {
        SignedHasOrigin(c, admins, before, p);
        OriginLasts(c, admins, before, log, r, Step(c, admins, s, r).1, p);
      } else {
        StepSigns(c, admins, s, r, p);
        SignsIsOrigin(c, admins, before, log, r, Step(c, admins, s, r).1, p);
      }
    }
  }

  lemma {:induction false} OutcomeAt(c: Crypto, admins: Admins, rs: seq<Request>, i: nat)
    requires i < |rs|
    ensures |Run(c, admins, rs).1| == |rs| && |Run(c, admins, rs[..i]).1| == i
    ensures Run(c, admins, rs).1[i] == Step(c, admins, Run(c, admins, rs[..i]).0, rs[i]).1
    ensures Run(c, admins, rs).1[..i] == Run(c, admins, rs[..i]).1
  {
    RunsOn(c, admins, rs);
    var before := rs[..|rs| - 1];
    if i < |before| {
      OutcomeAt(c, admins, before, i);
      assert before[..i] == rs[..i] && Run(c, admins, rs).1[..i] == Run(c, admins, before).1[..i];
    }
  }

  lemma StartsWith2(user: string, expiry: string)
    ensures var p := Dot(Dot("2fa", user), expiry); p != "" && p[0] == '2'
  {
    assert Dot("2fa", user)[0] == '2';
  }

  /** Without shadows only the password step signs over a pending text. */
  lemma OriginIsPassword(c: Crypto, admins: Admins, rs: seq<Request>, log: seq<Outcome>, user: string, expiry: string)
    returns (j: nat)
    requires Origin(c, admins, rs, log, Dot(Dot("2fa", user), expiry)) && NoShadows(admins)
    requires user in admins && admins[user].totp != "" && '.' !in user && '.' !in expiry
    ensures PasswordStep(c, admins, rs, log, j, user) && expiry == Decimal(Unix(rs[j].at) + PENDING_AGE)
  {
    var p := Dot(Dot("2fa", user), expiry);
    assert !Shadowed(admins, user);
    forall w, exp: nat ensures !FromSession(admins, p, w, exp) {
      if FromSession(admins, p, w, exp) {
        SameTail(w, Decimal(exp), Dot("2fa", user), expiry);
        DotIsIn("2fa", user);
      }
    }
    var u: string, k: nat :| FromPassword(c, admins, rs, log, p, k, u);
    SameTail(Dot("2fa", u), Decimal(Unix(rs[k].at) + PENDING_AGE), Dot("2fa", user), expiry);
    SameUser(u, user);
    j := k;
  }

  /** A pending token that passes was issued for its user's password, less than
      five minutes ago. */
  lemma PendingHasPassword(c: Crypto, admins: Admins, rs: seq<Request>, i: nat)
    returns (j: nat)
    requires Lawful(c) && AllLower(admins) && NoShadows(admins) && Honest(c, admins, rs) && i < |rs|
    requires var u := VerifyPending(c, admins, rs[i].pending, rs[i].at);
             u.Some? && u.value in admins && admins[u.value].totp != ""
    ensures |Run(c, admins, rs[..i]).1| == i
    ensures PasswordStep(c, admins, rs[..i], Run(c, admins, rs[..i]).1, j,
            VerifyPending(c, admins, rs[i].pending, rs[i].at).value)
    ensures Unix(rs[i].at) < Unix(rs[j].at) + PENDING_AGE
  {
    OutcomeAt(c, admins, rs, i);
    var token, now, log := rs[i].pending, rs[i].at, Run(c, admins, rs[..i]).1;
    var user := VerifyPending(c, admins, token, now).value;
    PendingPasses(c, admins, token, user, now);
    var expiry :| Carries(c, token, "2fa", user, expiry) && Live(expiry, now);
    StartsWith2(user, expiry);
    SignedHasOrigin(c, admins, rs[..i], Dot(Dot("2fa", user), expiry));
    j := OriginIsPassword(c, admins, rs[..i], log, user, expiry);
    assert rs[..i][j] == rs[j];
    DecimalRoundTrip(Unix(rs[j].at) + PENDING_AGE);
  }

  /** An honest run whose `i`-th request was signed in. */
  ghost predicate Granted(c: Crypto, admins: Admins, rs: seq<Request>, i: nat)
  {
    && Lawful(c) && Honest(c, admins, rs) && Timed(rs)
    && i < |rs| && i < |Run(c, admins, rs).1| && Run(c, admins, rs).1[i].SignedIn?
  }

  /** The session was earned: with a right code and the right password less than
      five minutes earlier if the user has a second factor, with the right password
      otherwise. */
  ghost predicate Deserved(c: Crypto, admins: Admins, rs: seq<Request>, i: nat)
    requires Granted(c, admins, rs, i)
  {
    var log := Run(c, admins, rs).1;
    var user := log[i].user;
    && user in admins && rs[i].checked && log[i].token == IssueCookie(c, user, rs[i].at)
    && (admins[user].totp == "" ==>
          Lower(rs[i].username) == user && PasswordOK(c, admins, rs[i].username, rs[i].password))
    && (admins[user].totp != "" ==>
          && c.code(admins[user].totp, rs[i].otp, rs[i].at)
          && exists j: nat :: && PasswordStep(c, admins, rs, log, j, user) && j < i
                              && rs[j].at <= rs[i].at < rs[j].at + PENDING_AGE * SECOND)
  }

  lemma TwoFactor(c: Crypto, admins: Admins, rs: seq<Request>, i: nat)
    requires AllLower(admins) && NoShadows(admins) && Granted(c, admins, rs, i)
    ensures Deserved(c, admins, rs, i)
  {
    OutcomeAt(c, admins, rs, i);
    var r, log := rs[i], Run(c, admins, rs).1;
    if r.pending != "" {
      var user := VerifyPending(c, admins, r.pending, r.at).value;
      var j := PendingHasPassword(c, admins, rs, i);
      assert log[..i][j] == log[j] && rs[..i][j] == rs[j];
      assert PasswordStep(c, admins, rs, log, j, user);
    } else {
      LowerTwice(r.username);
    }
  }

  // ---- the condition is exact ----

  /** Account "2fa.u" signs in with its password and hands its session in as u's
      pending token, with a right code. */
  function ShadowRun(c: Crypto, u: string, password: string, otp: string): seq<Request>
  {
    [Request(1, "", true, Dot("2fa", u), password, "", ""),
     Request(1, "", true, "", "", IssueCookie(c, Dot("2fa", u), 1), otp)]
  }

  lemma ShadowSignsIn(c: Crypto, admins: Admins, u: string, password: string, otp: string)
    requires Lawful(c) && AllLower(admins) && Shadowed(admins, u) && c.matches(admins[Dot("2fa", u)].hash, password)
    ensures var w, (s, log) := Dot("2fa", u), Run(c, admins, ShadowRun(c, u, password, otp)[..1]);
            && s.throttle == map[] && SessionPayload(w, Unix(1) + SESSION_AGE) in s.signed
            && |log| == 1 && log[0].SignedIn?
  {
    var rs, w := ShadowRun(c, u, password, otp), Dot("2fa", u);
    var one, start := rs[..1], State(map[], {});
    assert one[..0] == [] && one[0] == rs[0];
    assert Run(c, admins, one[..0]) == (start, []);
    assert Lower(w) == w;
    assert Step(c, admins, start, rs[0]) == SignIn(c, start, rs[0], w);
    RunsOn(c, admins, one);
  }

  lemma ShadowIsHonest(c: Crypto, admins: Admins, u: string, password: string, otp: string)
    requires Lawful(c) && AllLower(admins) && Shadowed(admins, u) && c.matches(admins[Dot("2fa", u)].hash, password)
    ensures Honest(c, admins, ShadowRun(c, u, password, otp))
  {
    var rs := ShadowRun(c, u, password, otp);
    var payload := SessionPayload(Dot("2fa", u), Unix(1) + SESSION_AGE);
    ShadowSignsIn(c, admins, u, password, otp);
    forall i, p | 0 <= i < |rs| && c.decode(rs[i].pending) == Some(Signed(c, p))
           ensures p in Run(c, admins, rs[..i]).0.signed {
      DotIsIn(p, c.sign(p));
      if i == 1 {
        SameTail(p, c.sign(p), payload, c.sign(payload));
      }
    }
  }

  lemma ShadowPasses(c: Crypto, admins: Admins, s: State, u: string, otp: string)
    requires Lawful(c) && AllLower(admins) && Shadowed(admins, u)
    requires s.throttle == map[] && c.code(admins[u].totp, otp, 1)
    ensures Step(c, admins, s, ShadowRun(c, u, "", otp)[1]).1 == SignedIn(u, IssueCookie(c, u, 1))
  {
    var r := ShadowRun(c, u, "", otp)[1];
    SessionAsPending(c, admins, Dot("2fa", u), 1, u, 1);
    SomethingIssued(c, SessionPayload(Dot("2fa", u), Unix(1) + SESSION_AGE));
    assert Step(c, admins, s, r) == SecondStage(c, admins, s, r);
  }

  lemma ShadowOutcomes(c: Crypto, admins: Admins, u: string, password: string, otp: string)
    requires Lawful(c) && AllLower(admins) && Shadowed(admins, u)
    requires c.matches(admins[Dot("2fa", u)].hash, password) && c.code(admins[u].totp, otp, 1)
    ensures var log := Run(c, admins, ShadowRun(c, u, password, otp)).1;
            |log| == 2 && log[0].SignedIn? && log[1].SignedIn? && log[1].user == u
  {
    var rs := ShadowRun(c, u, password, otp);
    ShadowSignsIn(c, admins, u, password, otp);
    OutcomeAt(c, admins, rs, 1);
    ShadowPasses(c, admins, Run(c, admins, rs[..1]).0, u, otp);
    assert rs[1] == ShadowRun(c, u, "", otp)[1];
    assert Run(c, admins, rs).1[0] == Run(c, admins, rs).1[..1][0];
  }

  lemma ShadowGranted(c: Crypto, admins: Admins, u: string, password: string, otp: string)
    requires Lawful(c) && AllLower(admins) && Shadowed(admins, u)
    requires c.matches(admins[Dot("2fa", u)].hash, password) && c.code(admins[u].totp, otp, 1)
    ensures Granted(c, admins, ShadowRun(c, u, password, otp), 1)
  {
    ShadowIsHonest(c, admins, u, password, otp);
    ShadowOutcomes(c, admins, u, password, otp);
  }

  /** Whenever the password and the code are right, that run signs u in without
      anybody having given u's password. */
  lemma ShadowGetsIn(c: Crypto, admins: Admins, u: string, password: string, otp: string)
    requires Lawful(c) && AllLower(admins) && Shadowed(admins, u)
    requires c.matches(admins[Dot("2fa", u)].hash, password) && c.code(admins[u].totp, otp, 1)
    ensures Unearned(c, admins, ShadowRun(c, u, password, otp), 1, u)
  {
    ShadowGranted(c, admins, u, password, otp);
    ShadowOutcomes(c, admins, u, password, otp);
    NobodyAsked(c, admins, ShadowRun(c, u, password, otp), u);
  }

  /** User `u` was signed in by the `i`-th request, and should not have been. */
  ghost predicate Unearned(c: Crypto, admins: Admins, rs: seq<Request>, i: nat, u: string)
  {
    Granted(c, admins, rs, i) && Run(c, admins, rs).1[i].user == u && !Deserved(c, admins, rs, i)
  }

  /** A run in which nobody was asked for a code earns no session with one. */
  lemma NobodyAsked(c: Crypto, admins: Admins, rs: seq<Request>, u: string)
    requires Granted(c, admins, rs, 1) && u in admins && admins[u].totp != ""
    requires var log := Run(c, admins, rs).1; |log| == 2 && log[0].SignedIn? && log[1].SignedIn? && log[1].user == u
    ensures Unearned(c, admins, rs, 1, u)
  {
  }

  /** Signs everything alike, and takes every password and code for right. */
  const Obliging := Crypto(_ => "s", s => s, s => Some(s), (_, _) => true, (_, _, _) => true)

  /** Every session of every honest run is earned exactly if no account is shadowed
      like that: a user with a second factor by one without. */
  lemma TwoFactorExactly(admins: Admins)
    requires AllLower(admins)
    ensures (forall c, rs, i: nat :: Granted(c, admins, rs, i) ==> Deserved(c, admins, rs, i)) <==> NoShadows(admins)
  {
    if NoShadows(admins) {
      forall c, rs, i: nat | Granted(c, admins, rs, i) ensures Deserved(c, admins, rs, i) {
        TwoFactor(c, admins, rs, i);
      }
    } else {
      var u :| Shadowed(admins, u);
      ShadowGetsIn(Obliging, admins, u, "", "");
    }
  }

  /** What becomes of an answer to a question for a code, with the token that came
      with it, from an address that is not locked out: too late, or for a name with
      a dot, it has expired; otherwise the code decides. */
  lemma CodeCompletes(c: Crypto, admins: Admins, s: State, r: Request, s': State, answer: Request)
    requires Lawful(c) && AllLower(admins) && Step(c, admins, s, r).1.CodeWanted?
    requires answer.checked && answer.pending == Step(c, admins, s, r).1.token
    requires !T.IsBlocked(s'.throttle, answer.ip, answer.at) && Unix(r.at) + PENDING_AGE < 0x8000_0000_0000_0000
    ensures Step(c, admins, s', answer).1 ==
              if '.' in r.username || Unix(answer.at) >= Unix(r.at) + PENDING_AGE then Expired
              else if CodeOK(c, admins, r.username, answer.otp, answer.at)
              then SignedIn(Lower(r.username), IssueCookie(c, Lower(r.username), answer.at))
              else Refused
  {
    AskedFor(c, admins, s, r);
    AnswerDecides(c, admins, s', answer, r.username, r.at);
  }

  lemma AskedFor(c: Crypto, admins: Admins, s: State, r: Request)
    requires Step(c, admins, s, r).1.CodeWanted?
    ensures Step(c, admins, s, r).1.token == IssuePending(c, r.username, r.at) && Lower(r.username) in admins
  {
  }

  lemma LowerKeepsDots(s: string)
    ensures '.' in Lower(s) <==> '.' in s
  {
    if i :| 0 <= i < |s| && Lower(s)[i] == '.' {
      assert LowerChar(s[i]) == '.';
      assert s[i] == '.';
    }
    if i :| 0 <= i < |s| && s[i] == '.' {
      Member(Lower(s), i);
    }
  }

  lemma SomethingIssued(c: Crypto, payload: string)
    requires Lawful(c)
    ensures c.encode(Signed(c, payload)) != ""
  {
    assert c.decode(c.encode(Signed(c, payload))) == Some(Signed(c, payload));
    DotIsIn(payload, c.sign(payload));
  }

  lemma AnswerDecides(c: Crypto, admins: Admins, s: State, r: Request, username: string, issued: nat)
    requires Lawful(c) && AllLower(admins) && Lower(username) in admins
    requires r.checked && r.pending == IssuePending(c, username, issued)
    requires Unix(issued) + PENDING_AGE < 0x8000_0000_0000_0000
    requires !T.IsBlocked(s.throttle, r.ip, r.at)
    ensures Step(c, admins, s, r).1 ==
              if '.' in username || Unix(r.at) >= Unix(issued) + PENDING_AGE then Expired
              else if CodeOK(c, admins, username, r.otp, r.at)
                  then SignedIn(Lower(username), IssueCookie(c, Lower(username), r.at))
              else Refused
  {
    PendingRoundTrip(c, admins, username, issued, r.at);
    SomethingIssued(c, PendingPayload(username, Unix(issued) + PENDING_AGE));
    LowerKeepsDots(username);
    LowerTwice(username);
    assert Step(c, admins, s, r) == SecondStage(c, admins, s, r);
  }

  // ---- the handler ----

  class Server {
    const throttle: T.Throttle
    const admins: Admins
    const c: Crypto
    ghost var signed: set<string>

    constructor (c: Crypto, admins: Admins)
      ensures this.c == c && this.admins == admins
      ensures State(throttle.m, signed) == Run(c, admins, []).0 && fresh(throttle)
    {
      this.c, this.admins, signed := c, admins, {};
      throttle := new T.Throttle();
    }

    method HandleLogin(r: Request) returns (out: Outcome)
      modifies this`signed, throttle
      ensures (State(throttle.m, signed), out) == Step(c, admins, old(State(throttle.m, signed)), r)
    {
      if !r.checked {
        return Ignored;
      }
      var blocked, retry := throttle.Blocked(r.ip, r.at);
      if blocked {
        return Locked;
      }
      if r.pending != "" {
        out := HandleCode(r);
      } else {
        out := HandlePassword(r);
      }
    }

    /** The code, with the token that says the password was right. */
    method HandleCode(r: Request) returns (out: Outcome)
      modifies this`signed, throttle
      ensures (State(throttle.m, signed), out) == SecondStage(c, admins, old(State(throttle.m, signed)), r)
    {
      var user := VerifyPending(c, admins, r.pending, r.at);
      if user.None? {
        return Expired;
      }
      if !CodeOK(c, admins, user.value, r.otp, r.at) {
        throttle.Fail(r.ip, r.at);
        return Refused;
      }
      throttle.Reset(r.ip);
      signed := signed + {SessionPayload(user.value, Unix(r.at) + SESSION_AGE)};
      return SignedIn(Lower(user.value), IssueCookie(c, user.value, r.at));
    }

    method HandlePassword(r: Request) returns (out: Outcome)
      modifies this`signed, throttle
      ensures (State(throttle.m, signed), out) == FirstStage(c, admins, old(State(throttle.m, signed)), r)
    {
      if !PasswordOK(c, admins, r.username, r.password) {
        throttle.Fail(r.ip, r.at);
        return Refused;
      }
      if TOTPEnabled(admins, r.username) {
        signed := signed + {PendingPayload(r.username, Unix(r.at) + PENDING_AGE)};
        return CodeWanted(Lower(r.username), IssuePending(c, r.username, r.at));
      }
      throttle.Reset(r.ip);
      signed := signed + {SessionPayload(r.username, Unix(r.at) + SESSION_AGE)};
      return SignedIn(Lower(r.username), IssueCookie(c, r.username, r.at));
    }
  }
}
