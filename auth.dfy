/** backend/routers/auth_router.py: the decisions of register, login, refresh,
    update_me and change_password. Password hashing and checking are parameters
    (`hash`, `verify`), and a token is the claims it carries. */
module Auth {
  import opened Models
  import Store

  /** `allowed_roles` of register. */
  const AllowedRoles: seq<string> := [FleetManager, Dispatcher, SafetyOfficer, FinancialAnalyst]

  /** The new password's minimum length in change_password. */
  const MinPasswordLength := 6

  /** The claims of a decoded token: `payload.get("type")` and `payload.get("sub")`
      may be missing; `role` and `email` are copied from the user. */
  datatype Claims = Claims(tokenType: Option<string>, sub: Option<Id>, role: string, email: string)

  /** schemas.TokenResponse, with each token represented by its claims. */
  datatype TokenResponse = TokenResponse(token: Claims, refreshToken: Claims, name: string, email: string,
                                         role: string, userId: Id)

  /** `token_data = {"sub": user.id, "role": user.role, "email": user.email}`, signed as
      an access and as a refresh token. */
  function TokensFor(u: User): (t: TokenResponse)
    ensures t.token.tokenType == Some("access") && t.refreshToken.tokenType == Some("refresh")
    ensures t.token.sub == Some(u.id) && t.refreshToken.sub == Some(u.id) && t.userId == u.id
  {
    TokenResponse(Claims(Some("access"), Some(u.id), u.role, u.email),
                  Claims(Some("refresh"), Some(u.id), u.role, u.email),
                  u.name, u.email, u.role, u.id)
  }

  /** The user table after a handler, and the handler's response. */
  datatype AuthOutcome<T> = AuthOutcome(users: seq<User>, response: Response<T>)

  function EmailIndex(us: seq<User>, email: string): (r: Option<nat>)
    ensures r.Some? ==> r.value < |us| && us[r.value].email == email
    ensures r.None? <==> forall j :: 0 <= j < |us| ==> us[j].email != email
  {
    FirstIndex(us, (u: User) => u.email == email)
  }

  // ---------------------------------------------------------------------------
  // register

  datatype RegisterRequest = RegisterRequest(name: string, email: string, password: string, role: string)

  function RegisterStep(us: seq<User>, req: RegisterRequest, hash: string -> string, newId: Id): (o: AuthOutcome<User>)
    ensures req.role !in AllowedRoles ==> o == AuthOutcome(us, Err(400, RoleInvalid))
    ensures req.role in AllowedRoles && EmailIndex(us, req.email).Some? ==> o == AuthOutcome(us, Err(400, EmailTaken))
    ensures o.response.Ok? <==> req.role in AllowedRoles && EmailIndex(us, req.email).None?
    ensures o.response.Ok? ==>
              && o.response.value == User(newId, req.name, req.email, hash(req.password), req.role, true)
              && o.users == us + [o.response.value]
  {
    if req.role !in AllowedRoles then AuthOutcome(us, Err(400, RoleInvalid))
    else if EmailIndex(us, req.email).Some? then AuthOutcome(us, Err(400, EmailTaken))
    else
      var u := User(newId, req.name, req.email, hash(req.password), req.role, true);
      AuthOutcome(us + [u], Ok(u))
  }

  predicate EmailsUnique(us: seq<User>) {
    forall i, j :: 0 <= i < j < |us| ==> us[i].email != us[j].email
  }

  /** register keeps emails unique, and every user it adds is active with one of the
      four roles. */
  lemma RegisterKeepsEmailsUnique(us: seq<User>, req: RegisterRequest, hash: string -> string, newId: Id)
    requires EmailsUnique(us)
    ensures var o := RegisterStep(us, req, hash, newId);
      && EmailsUnique(o.users)
      && (o.response.Ok? ==> o.response.value.isActive && o.response.value.role in AllowedRoles)
  {
  }

  method Register(db: Store.Session, req: RegisterRequest, hash: string -> string, newId: Id) returns (r: Response<User>)
    modifies db`users, db`outbox
    ensures var o := RegisterStep(old(db.users), req, hash, newId);
      r == o.response && db.users == o.users
    ensures db.outbox == old(db.outbox) + (if r.Ok? then [Commit] else [])
  {
    if req.role !in AllowedRoles {
      return Err(400, RoleInvalid);
    }
    if EmailIndex(db.users, req.email).Some? {
      return Err(400, EmailTaken);
    }
    var user := User(newId, req.name, req.email, hash(req.password), req.role, true);
    db.users := db.users + [user];
    db.Commit();
    return Ok(user);
  }

  // ---------------------------------------------------------------------------
  // login and refresh

  /** login. A wrong password is reported as 401 before the account's suspension. */
  function LoginStep(us: seq<User>, email: string, password: string, verify: (string, string) -> bool): (r: Response<TokenResponse>)
    ensures r.Ok? <==>
              EmailIndex(us, email).Some? &&
              verify(password, us[EmailIndex(us, email).value].hashedPassword) &&
              us[EmailIndex(us, email).value].isActive
    ensures r.Ok? ==> r.value == TokensFor(us[EmailIndex(us, email).value])
    ensures r == Err(403, AccountSuspended) ==>
              EmailIndex(us, email).Some? && verify(password, us[EmailIndex(us, email).value].hashedPassword)
    ensures r.Err? ==> r.reason in {InvalidCredentials, AccountSuspended} && r.code == (if r.reason == InvalidCredentials then 401 else 403)
  {
    match EmailIndex(us, email)
    case None => Err(401, InvalidCredentials)
    case Some(i) =>
      if !verify(password, us[i].hashedPassword) then Err(401, InvalidCredentials)
      else if !us[i].isActive then Err(403, AccountSuspended)
      else Ok(TokensFor(us[i]))
  }

  /** refresh_token. `decoded` is None when the token does not decode (bad signature or
      expired), which decode_token reports as 401. */
  function RefreshStep(us: seq<User>, decoded: Option<Claims>): (r: Response<TokenResponse>)
    ensures decoded.None? ==> r == Err(401, InvalidToken)
    ensures decoded.Some? && decoded.value.tokenType != Some("refresh") ==> r == Err(401, InvalidRefreshToken)
    ensures r.Err? ==> r.code == 401
    ensures r.Ok? <==>
              && decoded.Some? && decoded.value.tokenType == Some("refresh") && decoded.value.sub.Some?
              && UserIndex(us, decoded.value.sub.value).Some?
              && us[UserIndex(us, decoded.value.sub.value).value].isActive
    ensures r.Ok? ==> r.value == TokensFor(us[UserIndex(us, decoded.value.sub.value).value])
  {
    match decoded
    case None => Err(401, InvalidToken)
    case Some(c) =>
      if c.tokenType != Some("refresh") then Err(401, InvalidRefreshToken)
      else match c.sub
        case None => Err(401, UserMissingOrSuspended)
        case Some(id) =>
          match UserIndex(us, id)
          case None => Err(401, UserMissingOrSuspended)
          case Some(i) =>
            if !us[i].isActive then Err(401, UserMissingOrSuspended) else Ok(TokensFor(us[i]))
  }

  /** The refresh token of a login is accepted by refresh while the account stays
      active, and yields the same tokens again; the access token is refused. */
  lemma LoginThenRefresh(us: seq<User>, email: string, password: string, verify: (string, string) -> bool)
    requires LoginStep(us, email, password, verify).Ok?
    requires var i := EmailIndex(us, email).value; UserIndex(us, us[i].id) == Some(i)
    ensures var t := LoginStep(us, email, password, verify).value;
      && RefreshStep(us, Some(t.refreshToken)) == Ok(t)
      && RefreshStep(us, Some(t.token)) == Err(401, InvalidRefreshToken)
  {
  }

  /** Suspending an account blocks both login and refresh, but login says so only to
      a caller who knows the password. */
  lemma SuspendedAccountIsLockedOut(us: seq<User>, i: nat, password: string, c: Claims,
                                    verify: (string, string) -> bool)
    requires i < |us| && !us[i].isActive
    requires EmailIndex(us, us[i].email) == Some(i)
    requires c.sub == Some(us[i].id) && UserIndex(us, us[i].id) == Some(i)
    ensures LoginStep(us, us[i].email, password, verify) ==
              (if verify(password, us[i].hashedPassword) then Err(403, AccountSuspended) else Err(401, InvalidCredentials))
    ensures RefreshStep(us, Some(c)).Err?
  {
  }

  // ---------------------------------------------------------------------------
  // update_me

  /** The characters Python's `str.isspace()` accepts, which `str.strip()` removes. */
  predicate IsSpace(c: char) {
    || c == ' ' || '\t' <= c <= '\r' || '\U{1c}' <= c <= '\U{1f}' || c == '\U{85}' || c == '\U{a0}'
    || c == '\U{1680}' || '\U{2000}' <= c <= '\U{200a}' || c == '\U{2028}' || c == '\U{2029}'
    || c == '\U{202f}' || c == '\U{205f}' || c == '\U{3000}'
  }

  function TrimStart(s: string): (r: string)
    ensures |r| <= |s| && r == s[|s| - |r|..]
    ensures forall i :: 0 <= i < |s| - |r| ==> IsSpace(s[i])
    ensures r != [] ==> !IsSpace(r[0])
  {
    if s != [] && IsSpace(s[0]) then TrimStart(s[1..]) else s
  }

  function TrimEnd(s: string): (r: string)
    ensures |r| <= |s| && r == s[..|r|]
    ensures forall i :: |r| <= i < |s| ==> IsSpace(s[i])
    ensures r != [] ==> !IsSpace(r[|r| - 1])
  {
    if s != [] && IsSpace(s[|s| - 1]) then TrimEnd(s[..|s| - 1]) else s
  }

  lemma TrimBoth(s: string)
    ensures var r := TrimEnd(TrimStart(s));
      && (r != [] ==> !IsSpace(r[0]) && !IsSpace(r[|r| - 1]))
      && (r == [] <==> forall i :: 0 <= i < |s| ==> IsSpace(s[i]))
  {
    var t := TrimStart(s);
    if t != [] {
      assert !IsSpace(t[0]) && t[0] == s[|s| - |t|];
    }
  }

  /** Trimming both ends leaves the slice of `s` between its leading and trailing
      whitespace. */
  lemma TrimBothSlice(s: string)
    ensures StrippedSlice(s, TrimEnd(TrimStart(s)), |s| - |TrimStart(s)|, |s| - |TrimStart(s)| + |TrimEnd(TrimStart(s))|)
  {
    SuffixThenPrefix(s, TrimStart(s), TrimEnd(TrimStart(s)));
  }

  /** A prefix `r` of a suffix `t` of `s` is a slice of `s`, and what the two cuts drop
      keeps its whitespace. */
  lemma SuffixThenPrefix(s: string, t: string, r: string)
    requires |t| <= |s| && t == s[|s| - |t|..]
    requires |r| <= |t| && r == t[..|r|]
    requires forall i :: 0 <= i < |s| - |t| ==> IsSpace(s[i])
    requires forall i :: |r| <= i < |t| ==> IsSpace(t[i])
    ensures StrippedSlice(s, r, |s| - |t|, |s| - |t| + |r|)
  {
    var a := |s| - |t|;
    assert r == s[a..a + |r|];
    forall i | a + |r| <= i < |s|
      ensures IsSpace(s[i])
    {
      assert s[i] == t[i - a];
    }
  }

  /** `r` is `s[a..b]`, with only whitespace before `a` and from `b` on. */
  predicate StrippedSlice(s: string, r: string, a: int, b: int) {
    && 0 <= a <= b <= |s| && r == s[a..b]
    && (forall i :: 0 <= i < a ==> IsSpace(s[i]))
    && (forall i :: b <= i < |s| ==> IsSpace(s[i]))
  }

  /** `str.strip()`: the slice of `s` left once the whitespace at both ends is cut,
      starting and ending with a non-space, or empty when `s` is all whitespace. */
  function Strip(s: string): (r: string)
    ensures |r| <= |s|
    ensures exists a, b :: StrippedSlice(s, r, a, b)
    ensures r != [] ==> !IsSpace(r[0]) && !IsSpace(r[|r| - 1])
    ensures r == [] <==> forall i :: 0 <= i < |s| ==> IsSpace(s[i])
  {
    TrimBoth(s);
    TrimBothSlice(s);
    TrimEnd(TrimStart(s))
  }

  /** Strip's contract admits one result only: any `r` that is such a slice, does not
      start or end with whitespace, and is empty exactly for all-whitespace input, is
      `Strip(s)`. */
  lemma StripDetermined(s: string, r: string)
    requires exists a, b :: StrippedSlice(s, r, a, b)
    requires r != [] ==> !IsSpace(r[0]) && !IsSpace(r[|r| - 1])
    requires r == [] <==> forall i :: 0 <= i < |s| ==> IsSpace(s[i])
    ensures r == Strip(s)
  {
    var t := Strip(s);
    if r != [] {
      var a, b :| StrippedSlice(s, r, a, b);
      var a', b' :| StrippedSlice(s, t, a', b');
      SlicesAgree(s, r, t, a, b, a', b');
    }
  }

  /** Two nonempty slices of `s` with only whitespace around them and none at their ends
      are the same slice. */
  lemma SlicesAgree(s: string, r: string, t: string, a: int, b: int, a': int, b': int)
    requires StrippedSlice(s, r, a, b) && StrippedSlice(s, t, a', b')
    requires r != [] && !IsSpace(r[0]) && !IsSpace(r[|r| - 1])
    requires t != [] && !IsSpace(t[0]) && !IsSpace(t[|t| - 1])
    ensures r == t
  {
    assert s[a] == r[0] && s[b - 1] == r[|r| - 1];
    assert s[a'] == t[0] && s[b' - 1] == t[|t| - 1];
  }

  /** Stripping twice strips nothing more. */
  lemma StripIdempotent(s: string)
    ensures Strip(Strip(s)) == Strip(s)
  {
    var r := Strip(s);
    if r != [] {
      assert TrimStart(r) == r;
      assert TrimEnd(r) == r;
    }
  }

  /** update_me on the current user `me` (get_current_user has found it). A missing
      name changes nothing; a name that strips to nothing is refused. */
  function UpdateMeStep(us: seq<User>, me: nat, name: Option<string>): (o: AuthOutcome<User>)
    requires me < |us|
    ensures name.None? ==> o == AuthOutcome(us, Ok(us[me]))
    ensures name.Some? && Strip(name.value) == [] ==> o == AuthOutcome(us, Err(400, NameEmpty))
    ensures name.Some? && Strip(name.value) != [] ==>
              && o.response == Ok(us[me].(name := Strip(name.value)))
              && o.users == us[me := us[me].(name := Strip(name.value))]
    ensures o.response.Ok? ==> o.response.value.name != [] || name.None?
  {
    match name
    case None => AuthOutcome(us, Ok(us[me]))
    case Some(n) =>
      var stripped := Strip(n);
      if stripped == [] then AuthOutcome(us, Err(400, NameEmpty))
      else AuthOutcome(us[me := us[me].(name := stripped)], Ok(us[me].(name := stripped)))
  }

  /** A stored name never starts or ends with whitespace, and sending it back unchanged
      is a no-op. */
  lemma UpdateMeStable(us: seq<User>, me: nat, name: string)
    requires me < |us|
    requires UpdateMeStep(us, me, Some(name)).response.Ok?
    ensures var us' := UpdateMeStep(us, me, Some(name)).users;
      UpdateMeStep(us', me, Some(us'[me].name)).users == us'
  {
    var n := Strip(name);
    var us' := us[me := us[me].(name := n)];
    assert us'[me].name == n;
    StripIdempotent(name);
    assert Strip(n) == n != [];
    assert us'[me := us'[me].(name := n)] == us';
  }

  method UpdateMe(db: Store.Session, me: nat, name: Option<string>) returns (r: Response<User>)
    requires me < |db.users|
    modifies db`users, db`outbox
    ensures var o := UpdateMeStep(old(db.users), me, name);
      r == o.response && db.users == o.users
    ensures db.outbox == old(db.outbox) + (if r.Ok? then [Commit] else [])
  {
    if name.Some? {
      var stripped := Strip(name.value);
      if stripped == [] {
        return Err(400, NameEmpty);
      }
      db.users := db.users[me := db.users[me].(name := stripped)];
    }
    db.Commit();
    return Ok(db.users[me]);
  }

  // ---------------------------------------------------------------------------
  // change_password

  function ChangePasswordStep(us: seq<User>, me: nat, current: string, newPassword: string,
                              hash: string -> string, verify: (string, string) -> bool): (o: AuthOutcome<()>)
    requires me < |us|
    ensures !verify(current, us[me].hashedPassword) ==> o == AuthOutcome(us, Err(400, PasswordIncorrect))
    ensures verify(current, us[me].hashedPassword) && |newPassword| < MinPasswordLength ==>
              o == AuthOutcome(us, Err(400, PasswordTooShort))
    ensures o.response.Ok? <==> verify(current, us[me].hashedPassword) && |newPassword| >= MinPasswordLength
    ensures o.response.Ok? ==> o.users == us[me := us[me].(hashedPassword := hash(newPassword))]
  {
    if !verify(current, us[me].hashedPassword) then AuthOutcome(us, Err(400, PasswordIncorrect))
    else if |newPassword| < MinPasswordLength then AuthOutcome(us, Err(400, PasswordTooShort))
    else AuthOutcome(us[me := us[me].(hashedPassword := hash(newPassword))], Ok(()))
  }

  /** Whoever does not know the current password learns nothing about the new one's
      length, and the stored hash stays; the changed hash is the one login then checks. */
  lemma ChangePasswordGuards(us: seq<User>, me: nat, current: string, newPassword: string,
                             hash: string -> string, verify: (string, string) -> bool)
    requires me < |us|
    ensures var o := ChangePasswordStep(us, me, current, newPassword, hash, verify);
      && (o.response.Err? ==> o.users[me].hashedPassword == us[me].hashedPassword)
      && (!verify(current, us[me].hashedPassword) ==> o.response == Err(400, PasswordIncorrect))
      && |o.users| == |us|
      && (o.response.Ok? && EmailIndex(us, us[me].email) == Some(me) ==>
            (LoginStep(o.users, us[me].email, newPassword, verify).Ok? <==>
               verify(newPassword, hash(newPassword)) && us[me].isActive))
  {
    var o := ChangePasswordStep(us, me, current, newPassword, hash, verify);
    if o.response.Ok? && EmailIndex(us, us[me].email) == Some(me) {
      FirstIndexSameMask(us, o.users, (u: User) => u.email == us[me].email);
    }
  }

  method ChangePassword(db: Store.Session, me: nat, current: string, newPassword: string,
                        hash: string -> string, verify: (string, string) -> bool) returns (r: Response<()>)
    requires me < |db.users|
    modifies db`users, db`outbox
    ensures var o := ChangePasswordStep(old(db.users), me, current, newPassword, hash, verify);
      r == o.response && db.users == o.users
    ensures db.outbox == old(db.outbox) + (if r.Ok? then [Commit] else [])
  {
    if !verify(current, db.users[me].hashedPassword) {
      return Err(400, PasswordIncorrect);
    }
    if |newPassword| < MinPasswordLength {
      return Err(400, PasswordTooShort);
    }
    db.users := db.users[me := db.users[me].(hashedPassword := hash(newPassword))];
    db.Commit();
    return Ok(());
  }
}
