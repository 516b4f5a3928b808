/** Signed login tokens: a session token carries a user name and an expiry, a
    pending token says that the password step was just passed. The signature, the
    transport encoding, the password hash and the one-time code are functions
    given from outside. */
module Tokens {
  import opened Options
  import opened Strings

  const SECOND := 1_000_000_000
  const SESSION_AGE := 24 * 60 * 60
  const PENDING_AGE := 5 * 60

  /** `sign` is the keyed signature, `encode` and `decode` the transport form,
      `matches` compares a password with a hash, `code` a one-time code with a
      secret at a time. */
  datatype Crypto = Crypto(
    sign: string -> string,
    encode: string -> string,
    decode: string -> Option<string>,
    matches: (string, string) -> bool,
    code: (string, string, int) -> bool)

  /** Signatures are written in an alphabet without '.', and decoding undoes
      encoding; nothing decodes to nothing. */
  ghost predicate Lawful(c: Crypto)
  {
    && (forall p :: '.' !in c.sign(p))
    && (forall s :: c.decode(c.encode(s)) == Some(s))
    && c.decode("") == Some("")
  }

  // ---- splitting ----

  /** Cut at '.' into at most `n` parts; the last one keeps the rest. */
  function SplitN(s: string, n: nat): (parts: seq<string>)
    requires n > 0
    ensures 1 <= |parts| <= n
    decreases n
  {
    var i := IndexOf(s, '.');
    if n == 1 || i == |s| then [s] else [s[..i]] + SplitN(s[i + 1..], n - 1)
  }

  /** Two parts with a dot between them. */
  function Dot(a: string, b: string): string
  {
    a + "." + b
  }

  lemma DotAssociates(a: string, b: string, d: string)
    ensures Dot(Dot(a, b), d) == Dot(a, Dot(b, d))
  {
  }

  lemma DotIsIn(a: string, b: string)
    ensures '.' in Dot(a, b)
  {
    Member(Dot(a, b), |a|);
  }

  /** A part without a dot is cut off. */
  lemma CutFirst(a: string, b: string, n: nat)
    requires '.' !in a && n > 1
    ensures SplitN(Dot(a, b), n) == [a] + SplitN(b, n - 1)
  {
    IndexOfFirst(a, '.', b);
    assert Dot(a, b)[..|a|] == a && Dot(a, b)[|a| + 1..] == b;
  }

  /** Cutting loses nothing: the first part has no dot, the others are what comes
      after it. */
  lemma CutIsSplit(s: string, n: nat) returns (rest: string)
    requires n > 1 && |SplitN(s, n)| > 1
    ensures s == Dot(SplitN(s, n)[0], rest) && '.' !in SplitN(s, n)[0]
    ensures SplitN(s, n)[1..] == SplitN(rest, n - 1)
  {
    var i := IndexOf(s, '.');
    rest := s[i + 1..];
    assert s == s[..i] + "." + rest;
  }

  /** Where the last dot of a string is does not depend on how one came to it. */
  lemma SameTail(a: string, x: string, b: string, y: string)
    requires Dot(a, x) == Dot(b, y) && '.' !in x && '.' !in y
    ensures a == b && x == y
  {
    var s, t := Dot(a, x), Dot(b, y);
    NoLongerHead(a, x, b, y);
    NoLongerHead(b, y, a, x);
    assert s[..|a|] == a && t[..|b|] == b;
    assert s[|a| + 1..] == x && t[|b| + 1..] == y;
  }

  lemma NoLongerHead(a: string, x: string, b: string, y: string)
    requires Dot(a, x) == Dot(b, y) && '.' !in x
    ensures |b| <= |a|
  {
    assert Dot(b, y)[|b|] == '.';
    if |a| < |b| {
      Member(x, |b| - |a| - 1);
    }
  }

  // ---- accounts ----

  datatype Admin = Admin(hash: string, totp: string)

  type Admins = map<string, Admin>

  predicate PasswordOK(c: Crypto, admins: Admins, username: string, password: string)
  {
    Lower(username) in admins && c.matches(admins[Lower(username)].hash, password)
  }

  predicate TOTPEnabled(admins: Admins, username: string)
  {
    Lower(username) in admins && admins[Lower(username)].totp != ""
  }

  predicate CodeOK(c: Crypto, admins: Admins, username: string, otp: string, now: int)
  {
    TOTPEnabled(admins, username) && c.code(admins[Lower(username)].totp, otp, now)
  }

  // ---- tokens ----

  function Unix(now: nat): nat
  {
    now / SECOND
  }

  function SessionPayload(username: string, exp: nat): string
  {
    Dot(Lower(username), Decimal(exp))
  }

  function PendingPayload(username: string, exp: nat): string
  {
    Dot(Dot("2fa", Lower(username)), Decimal(exp))
  }

  function Signed(c: Crypto, payload: string): string
  {
    Dot(payload, c.sign(payload))
  }

  function IssueCookie(c: Crypto, username: string, now: nat): string
  {
    c.encode(Signed(c, SessionPayload(username, Unix(now) + SESSION_AGE)))
  }

  function IssuePending(c: Crypto, username: string, now: nat): string
  {
    c.encode(Signed(c, PendingPayload(username, Unix(now) + PENDING_AGE)))
  }

  predicate Live(expiry: string, now: nat)
  {
    ParseInt(expiry).Some? && Unix(now) < ParseInt(expiry).value
  }

  /** The user a session token stands for. */
  function Authenticated(c: Crypto, admins: Admins, token: string, now: nat): Option<string>
  {
    match c.decode(token)
    case None => None
    case Some(raw) =>
      var p := SplitN(raw, 3);
      if |p| != 3 then None
      else if !Live(p[1], now) then None
      else if p[2] != c.sign(Dot(p[0], p[1])) then None
      else if p[0] !in admins then None
      else Some(p[0])
  }

  /** The user a pending token stands for. */
  function VerifyPending(c: Crypto, admins: Admins, token: string, now: nat): Option<string>
  {
    match c.decode(token)
    case None => None
    case Some(raw) =>
      var p := SplitN(raw, 4);
      if |p| != 4 || p[0] != "2fa" then None
      else if !Live(p[2], now) then None
      else if p[3] != c.sign(Dot(Dot("2fa", p[1]), p[2])) then None
      else if p[1] !in admins then None
      else Some(p[1])
  }

  // ---- what a token that passes looks like ----

  /** The token was signed over `head`.`user`.`expiry`, and can be cut that way. */
  ghost predicate Carries(c: Crypto, token: string, head: string, user: string, expiry: string)
  {
    '.' !in user && '.' !in expiry &&
        c.decode(token) == Some(Signed(c, Dot(if head == "" then user else Dot(head, user), expiry)))
  }

  lemma CutThree(a: string, b: string, d: string)
    requires '.' !in a && '.' !in b
    ensures SplitN(Dot(Dot(a, b), d), 3) == [a, b, d]
  {
    DotAssociates(a, b, d);
    CutFirst(a, Dot(b, d), 3);
    CutFirst(b, d, 2);
  }

  lemma CutFour(a: string, b: string, d: string, e: string)
    requires '.' !in a && '.' !in b && '.' !in d
    ensures SplitN(Dot(Dot(Dot(a, b), d), e), 4) == [a, b, d, e]
  {
    DotAssociates(a, b, d);
    DotAssociates(a, Dot(b, d), e);
    CutFirst(a, Dot(Dot(b, d), e), 4);
    CutThree(b, d, e);
  }

  lemma ThreeParts(s: string, n: nat)
    requires n == 3 && |SplitN(s, n)| == 3
    ensures var p := SplitN(s, n); s == Dot(Dot(p[0], p[1]), p[2]) && '.' !in p[0] && '.' !in p[1]
  {
    var p := SplitN(s, n);
    var rest := CutIsSplit(s, n);
    var last := CutIsSplit(rest, n - 1);
    assert p[1..][0] == p[1] && p[1..][1..] == [p[2]];
    assert SplitN(last, n - 2) == [last];
    DotAssociates(p[0], p[1], p[2]);
  }

  lemma FourParts(s: string, n: nat)
    requires n == 4 && |SplitN(s, n)| == 4
    ensures var p := SplitN(s, n); s == Dot(Dot(Dot(p[0], p[1]), p[2]), p[3]) && '.' !in p[1] && '.' !in p[2]
  {
    var p := SplitN(s, n);
    var rest := CutIsSplit(s, n);
    ThreeParts(rest, n - 1);
    assert p[1..][0] == p[1] && p[1..][1] == p[2] && p[1..][2] == p[3];
    DotAssociates(p[0], p[1], p[2]);
    DotAssociates(p[0], Dot(p[1], p[2]), p[3]);
  }

  lemma SessionPasses(c: Crypto, admins: Admins, token: string, user: string, now: nat)
    ensures Authenticated(c, admins, token, now) == Some(user) <==>
              user in admins && exists expiry :: Carries(c, token, "", user, expiry) && Live(expiry, now)
  {
    if Authenticated(c, admins, token, now) == Some(user) {
      var raw := c.decode(token).value;
      ThreeParts(raw, 3);
      assert Carries(c, token, "", user, SplitN(raw, 3)[1]);
    }
    if expiry :| Carries(c, token, "", user, expiry) && Live(expiry, now) && user in admins {
      CutThree(user, expiry, c.sign(Dot(user, expiry)));
    }
  }

  lemma PendingPasses(c: Crypto, admins: Admins, token: string, user: string, now: nat)
    ensures VerifyPending(c, admins, token, now) == Some(user) <==>
              user in admins && exists expiry :: Carries(c, token, "2fa", user, expiry) && Live(expiry, now)
  {
    if VerifyPending(c, admins, token, now) == Some(user) {
      var raw := c.decode(token).value;
      FourParts(raw, 4);
      assert Carries(c, token, "2fa", user, SplitN(raw, 4)[2]);
    }
    if expiry :| Carries(c, token, "2fa", user, expiry) && Live(expiry, now) && user in admins {
      CutFour("2fa", user, expiry, c.sign(Dot(Dot("2fa", user), expiry)));
    }
  }

  // ---- main results ----

  /** What a token was signed over can be told from it. */
  lemma OnePayload(c: Crypto, token: string, p: string, head: string, user: string, expiry: string)
    requires Lawful(c) && c.decode(token) == Some(Signed(c, p)) && Carries(c, token, head, user, expiry)
    ensures p == Dot(if head == "" then user else Dot(head, user), expiry)
  {
    var q := Dot(if head == "" then user else Dot(head, user), expiry);
    SameTail(p, c.sign(p), q, c.sign(q));
  }

  /** A session token stands for its user until it expires, exactly when the name
      has no dot. */
  lemma SessionRoundTrip(c: Crypto, admins: Admins, username: string, issued: nat, now: nat)
    requires Lawful(c) && Unix(issued) + SESSION_AGE < 0x8000_0000_0000_0000
    ensures var user := Lower(username);
            Authenticated(c, admins, IssueCookie(c, username, issued), now) ==
              if '.' !in user && user in admins && Unix(now) < Unix(issued) + SESSION_AGE then Some(user) else None
  {
    var user, exp, token := Lower(username), Unix(issued) + SESSION_AGE, IssueCookie(c, username, issued);
    DecimalRoundTrip(exp);
    if '.' !in user && user in admins && Unix(now) < exp {
      assert Carries(c, token, "", user, Decimal(exp)) && Live(Decimal(exp), now);
      SessionPasses(c, admins, token, user, now);
    } else if Authenticated(c, admins, token, now).Some? {
      var u := Authenticated(c, admins, token, now).value;
      SessionPasses(c, admins, token, u, now);
      var expiry :| Carries(c, token, "", u, expiry) && Live(expiry, now);
      OnePayload(c, token, SessionPayload(username, exp), "", u, expiry);
      SameTail(user, Decimal(exp), u, expiry);
    }
  }

  /** So does a pending token. */
  lemma PendingRoundTrip(c: Crypto, admins: Admins, username: string, issued: nat, now: nat)
    requires Lawful(c) && Unix(issued) + PENDING_AGE < 0x8000_0000_0000_0000
    ensures var user := Lower(username);
            VerifyPending(c, admins, IssuePending(c, username, issued), now) ==
              if '.' !in user && user in admins && Unix(now) < Unix(issued) + PENDING_AGE then Some(user) else None
  {
    var user, exp, token := Lower(username), Unix(issued) + PENDING_AGE, IssuePending(c, username, issued);
    DecimalRoundTrip(exp);
    if '.' !in user && user in admins && Unix(now) < exp {
      assert Carries(c, token, "2fa", user, Decimal(exp)) && Live(Decimal(exp), now);
      PendingPasses(c, admins, token, user, now);
    } else if VerifyPending(c, admins, token, now).Some? {
      var u := VerifyPending(c, admins, token, now).value;
      PendingPasses(c, admins, token, u, now);
      var expiry :| Carries(c, token, "2fa", u, expiry) && Live(expiry, now);
      OnePayload(c, token, PendingPayload(username, exp), "2fa", u, expiry);
      SameTail(Dot("2fa", user), Decimal(exp), Dot("2fa", u), expiry);
      SameUser(user, u);
    }
  }

  lemma SameUser(u: string, v: string)
    requires Dot("2fa", u) == Dot("2fa", v)
    ensures u == v
  {
    assert Dot("2fa", u)[4..] == u && Dot("2fa", v)[4..] == v;
  }

  lemma PendingCarriesNone(c: Crypto, token: string, username: string, exp: nat, u: string, expiry: string)
    requires Lawful(c) && c.decode(token) == Some(Signed(c, PendingPayload(username, exp)))
    ensures !Carries(c, token, "", u, expiry)
  {
    if Carries(c, token, "", u, expiry) {
      OnePayload(c, token, PendingPayload(username, exp), "", u, expiry);
      SameTail(Dot("2fa", Lower(username)), Decimal(exp), u, expiry);
      DotIsIn("2fa", Lower(username));
    }
  }

  /** A pending token is never a session. */
  lemma PendingIsNoSession(c: Crypto, admins: Admins, username: string, issued: nat, now: nat)
    requires Lawful(c)
    ensures Authenticated(c, admins, IssuePending(c, username, issued), now) == None
  {
    var token := IssuePending(c, username, issued);
    var session := Authenticated(c, admins, token, now);
    if session.Some? {
      SessionPasses(c, admins, token, session.value, now);
      var expiry :| Carries(c, token, "", session.value, expiry);
      PendingCarriesNone(c, token, username, Unix(issued) + PENDING_AGE, session.value, expiry);
    }
  }

  /** The name `u` behind "2fa." */
  predicate Shadows(user: string, u: string)
  {
    user == Dot("2fa", u) && '.' !in u
  }

  /** A session token passes for a pending one exactly when the name of its user
      is "2fa." followed by the name, without a dot, of another. */
  lemma SessionAsPending(c: Crypto, admins: Admins, username: string, issued: nat, u: string, now: nat)
    requires Lawful(c) && Unix(issued) + SESSION_AGE < 0x8000_0000_0000_0000
    ensures VerifyPending(c, admins, IssueCookie(c, username, issued), now) == Some(u) <==>
              Shadows(Lower(username), u) && u in admins && Unix(now) < Unix(issued) + SESSION_AGE
  {
    var user, exp, token := Lower(username), Unix(issued) + SESSION_AGE, IssueCookie(c, username, issued);
    DecimalRoundTrip(exp);
    PendingPasses(c, admins, token, u, now);
    if Shadows(user, u) {
      assert Carries(c, token, "2fa", u, Decimal(exp));
    }
    if expiry :| Carries(c, token, "2fa", u, expiry) && Live(expiry, now) {
      OnePayload(c, token, SessionPayload(username, exp), "2fa", u, expiry);
      SameTail(user, Decimal(exp), Dot("2fa", u), expiry);
    }
  }

  // ---- the account table ----

  datatype Account = Account(username: string, hash: string, totp: string)

  predicate Blank(a: Account)
  {
    a.username == "" || a.hash == ""
  }

  /** The last account bearing the name, whatever its case. */
  function LastNamed(accounts: seq<Account>, name: string): Option<Admin>
  {
    if accounts == [] then None
    else
      var a := accounts[|accounts| - 1];
      if Lower(a.username) == name then Some(Admin(a.hash, a.totp)) else LastNamed(accounts[..|accounts| - 1], name)
  }

  /** Builds the table the manager looks accounts up in; none at all, or one
      without a name or a hash, is refused. Secrets come trimmed. */
  method NewAdmins(accounts: seq<Account>) returns (admins: Option<Admins>)
    ensures admins.None? <==> accounts == [] || exists a :: a in accounts && Blank(a)
    ensures admins.Some? ==> forall name ::
              LastNamed(accounts, name) == if name in admins.value then Some(admins.value[name]) else None
    ensures admins.Some? ==> "" !in admins.value && forall name :: name in admins.value ==> Lower(name) == name
  {
    if accounts == [] {
      return None;
    }
    var table: Admins := map[];
    var i := 0;
    while i < |accounts|
      invariant 0 <= i <= |accounts|
      invariant forall a :: a in accounts[..i] ==> !Blank(a)
      invariant forall name :: LastNamed(accounts[..i], name) == if name in table then Some(table[name]) else None
      invariant "" !in table && forall name :: name in table ==> Lower(name) == name
    {
      var a := accounts[i];
      if a.username == "" || a.hash == "" {
        assert Blank(a);
        return None;
      }
      assert accounts[..i + 1] == accounts[..i] + [a];
      LowerTwice(a.username);
      table := table[Lower(a.username) := Admin(a.hash, a.totp)];
      i := i + 1;
    }
    assert accounts[..i] == accounts;
    return Some(table);
  }
}
