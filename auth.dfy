/** The authentication protocol of `AuthService`
    (backend/src/auth/auth.service.ts) as functions from the store and the
    request to the response and the store writes issued.

    Each operation is `Outcome(db, ...) : Step`, where the step holds the
    typed result (a response or the exception thrown) and the sequence of
    writes sent to the store, in order. The store afterwards is
    `Apply(db, writes)`. The class in service.dfy performs the same
    operations on its own fields and is proved against these functions. */
module Auth {
  import opened Common
  import Argon2
  import Totp
  import Jwt
  import opened Store
  import opened Dto

  /** The issuer name in the provisioning label `Verge (<email>)`. */
  const ProductName: string := "Verge"
  const EnrollmentKind: string := "totp"

  /** The `type` claim of a challenge token and of a refresh token. */
  const ChallengeTag: string := "2fa"
  const RefreshTag: string := "refresh"

  const EmailTaken: string := "Email is already registered"
  const InvalidCredentials: string := "Invalid credentials"
  const InvalidToken: string := "Invalid or expired token"
  const NotAChallenge: string := "Token is not a 2FA challenge"
  const NotConfigured: string := "User not found or 2FA not configured"
  const InvalidCode: string := "Invalid verification code"

  /** `ConflictException` (409) and `UnauthorizedException` (401) with their messages. */
  datatype AuthError = Conflict(message: string) | Unauthorized(message: string)

  /** `JWT_ACCESS_SECRET` (challenge and access tokens) and `JWT_REFRESH_SECRET`. */
  datatype Keys = Keys(accessSecret: string, refreshSecret: string)

  // ------------------------------------------------------------ store writes

  /** `prisma.firm.create`, `prisma.user.create`, `prisma.user.update`. */
  datatype Write =
    | CreateFirm(firm: Firm)
    | CreateUser(user: User)
    | UpdateTwoFactorStatus(userId: UserId, status: TwoFactorStatus)

  /** One write. Each write touches only its own table: a firm creation
      leaves the users and the e-mail index alone, and only a user creation
      extends the e-mail index. */
  function ApplyWrite(db: Db, w: Write): (r: Db)
    ensures !w.CreateUser? ==> r.emailIndex == db.emailIndex && r.nextUserId == db.nextUserId
    ensures !w.CreateFirm? ==> r.firms == db.firms && r.nextFirmId == db.nextFirmId
    ensures w.CreateFirm? ==> r.users == db.users
  {
    match w
    case CreateFirm(f) =>
      db.(firms := db.firms[f.id := f], nextFirmId := f.id + 1)
    case CreateUser(u) =>
      db.(users := db.users[u.id := u], emailIndex := db.emailIndex[u.email := u.id], nextUserId := u.id + 1)
    case UpdateTwoFactorStatus(id, status) =>
      if id in db.users then db.(users := db.users[id := db.users[id].(twoFactorStatus := status)]) else db
  }

  /** The store after the writes, applied in order. */
  function Apply(db: Db, ws: seq<Write>): (r: Db)
    ensures (forall i :: 0 <= i < |ws| ==> !ws[i].CreateFirm?) ==> r.firms == db.firms
    ensures (forall i :: 0 <= i < |ws| ==> !ws[i].CreateUser?) ==> r.emailIndex == db.emailIndex
    decreases |ws|
  {
    if ws == [] then db else Apply(ApplyWrite(db, ws[0]), ws[1..])
  }

  /** No sequence of writes removes a stored firm or user. */
  lemma {:induction false} ApplyKeepsRows(db: Db, ws: seq<Write>)
    ensures db.firms.Keys <= Apply(db, ws).firms.Keys
    ensures db.users.Keys <= Apply(db, ws).users.Keys
    decreases |ws|
  {
    if ws != [] {
      ApplyKeepsRows(ApplyWrite(db, ws[0]), ws[1..]);
    }
  }

  // --------------------------------------------------------------- responses

  datatype FirmSummary = FirmSummary(id: FirmId, name: string)

  /** The user as `signUp` selects it: no password hash, no TOTP secret. */
  datatype UserSummary = UserSummary(
    id: UserId, email: string, firstName: string, lastName: string, phone: Option<string>, role: Role)

  datatype Enrollment = Enrollment(kind: string, secret: string, provisioningUri: Totp.OtpAuthUri)

  datatype SignUpOk = SignUpOk(firm: FirmSummary, user: UserSummary, twoFactorEnrollment: Enrollment)

  /** The user as `signIn` and `verifyTwoFactor` return it. */
  datatype UserView = UserView(
    id: UserId, email: string, firstName: string, lastName: string, role: Role, twoFactorStatus: TwoFactorStatus)

  datatype FirmView = FirmView(id: FirmId, name: string, planTier: string)

  /** A sign-in response carries the challenge token and no session token. */
  datatype SignInOk = SignInOk(twoFactorRequired: bool, tempToken: Jwt.Token, user: UserView, firm: FirmView)

  datatype TokenPair = TokenPair(accessToken: Jwt.Token, refreshToken: Jwt.Token)

  datatype VerifyOk = VerifyOk(accessToken: Jwt.Token, refreshToken: Jwt.Token, user: UserView, firm: FirmView)

  /** What one call produced: its result and the writes it issued. */
  datatype Step<+R> = Step(result: Result<R, AuthError>, writes: seq<Write>)

  function ViewOfUser(u: User): UserView {
    UserView(u.id, u.email, u.firstName, u.lastName, u.role, u.twoFactorStatus)
  }

  function ViewOfFirm(f: Firm): FirmView {
    FirmView(f.id, f.name, f.planTier)
  }

  /** `user.twoFactorSecret` is truthy: present and not the empty string. */
  predicate Configured(secret: Option<string>): (ok: bool)
    ensures ok ==> secret.Some?
    ensures secret == Some("") ==> !ok
    ensures secret.Some? && Totp.IsGeneratedSecret(secret.value) ==> ok
  {
    secret.Some? && secret.value != ""
  }

  // ------------------------------------------------------------------ signUp

  /** The firm row, user row and response of a sign-up that succeeds; the
      two ids are the ones the store hands out. */
  ghost predicate Registered(db: Db, dto: SignUpDto, salt: string, secret: string, planTier: string, s: Step<SignUpOk>)
  {
    && s.result.Success?
    && var ok := s.result.value;
    && var email := Lower(dto.email);
    && var firm := Firm(ok.firm.id, dto.firmName, dto.address, dto.city, dto.state, dto.zip, planTier);
    && var user := User(ok.user.id, firm.id, email, Argon2.Hash(dto.password, salt),
                        dto.firstName, dto.lastName, dto.phone, Admin, Some(secret), Pending);
    && firm.id !in db.firms
    && user.id !in db.users
    && s.writes == [CreateFirm(firm), CreateUser(user)]
    && ok.firm == FirmSummary(firm.id, dto.firmName)
    && ok.user == UserSummary(user.id, email, dto.firstName, dto.lastName, dto.phone, Admin)
    && ok.twoFactorEnrollment ==
       Enrollment(EnrollmentKind, secret, Totp.OtpAuthUri(ProductName + " (" + email + ")", secret))
  }

  /** `signUp`: a conflict, with nothing written, when a user already has the
      lower-cased e-mail; otherwise one firm and then one admin user in
      `pending` state holding the secret returned for enrolment. The random
      salt and TOTP secret are inputs. */
  function SignUpOutcome(db: Db, dto: SignUpDto, salt: string, secret: string, planTier: string): (s: Step<SignUpOk>)
    requires db.Valid()
    ensures Apply(db, s.writes).Valid()
    ensures s.result.Failure? <==> exists id :: id in db.users && db.users[id].email == Lower(dto.email)
    ensures s.result.Failure? ==> s.result.error == Conflict(EmailTaken) && s.writes == []
    ensures s.result.Success? ==> Registered(db, dto, salt, secret, planTier, s)
  {
    var email := Lower(dto.email);
    if FindUserByEmail(db, email).Some? then
      Step(Failure(Conflict(EmailTaken)), [])
    else
      var passwordHash := Argon2.Hash(dto.password, salt);
      var uri := Totp.OtpAuthUri(ProductName + " (" + email + ")", secret);
      var firm := Firm(db.nextFirmId, dto.firmName, dto.address, dto.city, dto.state, dto.zip, planTier);
      var user := User(db.nextUserId, firm.id, email, passwordHash, dto.firstName, dto.lastName,
                       dto.phone, Admin, Some(secret), Pending);
      var s := Step(Success(SignUpOk(
                 FirmSummary(firm.id, firm.name),
                 UserSummary(user.id, user.email, user.firstName, user.lastName, user.phone, user.role),
                 Enrollment(EnrollmentKind, secret, uri))),
               [CreateFirm(firm), CreateUser(user)]);
      SignUpKeepsStoreValid(db, firm, user);
      s
  }

  /** Creating a fresh firm and then a fresh user of it with an unused,
      lower-case e-mail keeps the store consistent. */
  lemma SignUpKeepsStoreValid(db: Db, firm: Firm, user: User)
    requires db.Valid()
    requires firm.id == db.nextFirmId && user.id == db.nextUserId && user.firmId == firm.id
    requires IsLower(user.email) && user.email !in db.emailIndex
    ensures Apply(db, [CreateFirm(firm), CreateUser(user)]).Valid()
  {
    var db1 := ApplyWrite(db, CreateFirm(firm));
    var db2 := ApplyWrite(db1, CreateUser(user));
    assert Apply(db1, [CreateUser(user)]) == db2 by {
      assert [CreateUser(user)][1..] == [];
    }
    assert Apply(db, [CreateFirm(firm), CreateUser(user)]) == Apply(db1, [CreateUser(user)]) by {
      assert [CreateFirm(firm), CreateUser(user)][1..] == [CreateUser(user)];
    }
    forall id | id in db2.users ensures db2.UserRowOk(id) {
      if id != user.id {
        assert db.UserRowOk(id);
      }
    }
  }

  // ------------------------------------------------------------------ signIn

  /** `signIn`: the same 401 'Invalid credentials' whether no user has the
      lower-cased e-mail or the password does not verify; otherwise a
      5-minute challenge token tagged '2fa' under the access key, and no
      write. */
  function SignInOutcome(db: Db, keys: Keys, dto: SignInDto, now: nat): (r: Result<SignInOk, AuthError>)
    requires db.Valid()
    ensures r.Failure? ==> r.error == Unauthorized(InvalidCredentials)
    ensures r.Success? <==>
      exists id :: id in db.users && db.users[id].email == Lower(dto.email)
                   && Argon2.Verify(db.users[id].passwordHash, dto.password)
    ensures r.Success? ==>
      && r.value.user.id in db.users
      && var u := db.users[r.value.user.id];
      && u.email == Lower(dto.email)
      && r.value.twoFactorRequired
      && r.value.tempToken ==
         Jwt.Sign(Jwt.Claims(u.id, u.firmId, Some(ChallengeTag)), keys.accessSecret, Jwt.ChallengeTtl, now)
      && r.value.user == ViewOfUser(u)
      && r.value.firm == ViewOfFirm(db.firms[u.firmId])
  {
    var found := FindUserByEmail(db, Lower(dto.email));
    if found.None? then
      Failure(Unauthorized(InvalidCredentials))
    else
      var user := found.value;
      if !Argon2.Verify(user.passwordHash, dto.password) then
        assert forall id :: id in db.users && db.users[id].email == Lower(dto.email) ==> id == user.id by {
          forall id | id in db.users && db.users[id].email == Lower(dto.email) ensures id == user.id {
            EmailsUnique(db, id, user.id);
          }
        }
        Failure(Unauthorized(InvalidCredentials))
      else
        assert db.UserRowOk(user.id);
        var tempToken := Jwt.Sign(Jwt.Claims(user.id, user.firmId, Some(ChallengeTag)),
                                  keys.accessSecret, Jwt.ChallengeTtl, now);
        Success(SignInOk(true, tempToken, ViewOfUser(user), ViewOfFirm(db.firms[user.firmId])))
  }

  // ---------------------------------------------------------- generateTokens

  /** `generateTokens`: an access token with only `sub` and `firmId` under the
      access key for one hour, and a refresh token tagged 'refresh' under the
      refresh key for thirty days. With two distinct keys the refresh token
      never verifies under the access key. */
  function GenerateTokens(keys: Keys, userId: UserId, firmId: FirmId, now: nat): (p: TokenPair)
    ensures forall t: nat ::
      Jwt.Verify(p.accessToken, keys.accessSecret, t) ==
      if t < now + Jwt.AccessTtl then Some(Jwt.Claims(userId, firmId, None)) else None
    ensures forall t: nat ::
      Jwt.Verify(p.refreshToken, keys.refreshSecret, t) ==
      if t < now + Jwt.RefreshTtl then Some(Jwt.Claims(userId, firmId, Some(RefreshTag))) else None
    ensures keys.accessSecret != keys.refreshSecret ==>
      forall t: nat :: Jwt.Verify(p.refreshToken, keys.accessSecret, t) == None
  {
    TokenPair(
      Jwt.Sign(Jwt.Claims(userId, firmId, None), keys.accessSecret, Jwt.AccessTtl, now),
      Jwt.Sign(Jwt.Claims(userId, firmId, Some(RefreshTag)), keys.refreshSecret, Jwt.RefreshTtl, now))
  }

  // --------------------------------------------------------- verifyTwoFactor

  /** The challenge token verifies under the access key at `now` and is tagged '2fa'. */
  predicate LiveChallenge(keys: Keys, t: Jwt.Token, now: nat) {
    var p := Jwt.Verify(t, keys.accessSecret, now);
    p.Some? && p.value.tag == Some(ChallengeTag)
  }

  /** The user `sub` exists and has a TOTP secret. */
  predicate HasSecret(db: Db, sub: UserId) {
    sub in db.users && Configured(db.users[sub].twoFactorSecret)
  }

  /** Every check of `verifyTwoFactor` passes. */
  predicate Accepts(db: Db, keys: Keys, code: Totp.CodeFn, dto: Verify2faDto, now: nat) {
    && LiveChallenge(keys, dto.tempToken, now)
    && var sub := dto.tempToken.claims.sub;
    && HasSecret(db, sub)
    && Totp.Verify(code, db.users[sub].twoFactorSecret.value, dto.code, now)
  }

  /** The response and the writes of a `verifyTwoFactor` that succeeds for `u`. */
  ghost predicate Admitted(db: Db, keys: Keys, u: User, now: nat, s: Step<VerifyOk>)
    requires u.firmId in db.firms
  {
    && s.result.Success?
    && var ok := s.result.value;
    && var tokens := GenerateTokens(keys, u.id, u.firmId, now);
    && s.writes == (if u.twoFactorStatus == Verified then [] else [UpdateTwoFactorStatus(u.id, Verified)])
    && ok.accessToken == tokens.accessToken
    && ok.refreshToken == tokens.refreshToken
    && ok.user == ViewOfUser(u.(twoFactorStatus := Verified))
    && ok.firm == ViewOfFirm(db.firms[u.firmId])
  }

  /** `verifyTwoFactor`: each failed check ends in its own 401 with nothing
      written, in the order token, tag, user and secret, code; success marks
      the user verified (writing only when it was not verified yet) and
      issues the access and refresh tokens. */
  function VerifyOutcome(db: Db, keys: Keys, code: Totp.CodeFn, dto: Verify2faDto, now: nat): (s: Step<VerifyOk>)
    requires db.Valid()
    ensures Apply(db, s.writes).Valid()
    ensures s.result.Failure? ==> s.result.error.Unauthorized? && s.writes == []
    ensures s.result.Success? <==> Accepts(db, keys, code, dto, now)
    ensures Jwt.Verify(dto.tempToken, keys.accessSecret, now).None? ==>
      s.result == Failure(Unauthorized(InvalidToken))
    ensures Jwt.Verify(dto.tempToken, keys.accessSecret, now).Some? && !LiveChallenge(keys, dto.tempToken, now) ==>
      s.result == Failure(Unauthorized(NotAChallenge))
    ensures LiveChallenge(keys, dto.tempToken, now) && !HasSecret(db, dto.tempToken.claims.sub) ==>
      s.result == Failure(Unauthorized(NotConfigured))
    ensures LiveChallenge(keys, dto.tempToken, now) && HasSecret(db, dto.tempToken.claims.sub) &&
            !Accepts(db, keys, code, dto, now) ==>
      s.result == Failure(Unauthorized(InvalidCode))
    ensures s.result.Success? ==>
      var u := db.users[dto.tempToken.claims.sub];
      u.firmId in db.firms && Admitted(db, keys, u, now, s)
  {
    match Jwt.Verify(dto.tempToken, keys.accessSecret, now)
    case None => Step(Failure(Unauthorized(InvalidToken)), [])
    case Some(payload) =>
      if payload.tag != Some(ChallengeTag) then
        Step(Failure(Unauthorized(NotAChallenge)), [])
      else
        var found := FindUserById(db, payload.sub);
        if found.None? || !Configured(found.value.twoFactorSecret) then
          Step(Failure(Unauthorized(NotConfigured)), [])
        else
          var user := found.value;
          if !Totp.Verify(code, user.twoFactorSecret.value, dto.code, now) then
            Step(Failure(Unauthorized(InvalidCode)), [])
          else
            var writes := if user.twoFactorStatus != Verified then [UpdateTwoFactorStatus(user.id, Verified)] else [];
            var user' := user.(twoFactorStatus := Verified);
            var tokens := GenerateTokens(keys, user'.id, user'.firmId, now);
            assert db.UserRowOk(user.id);
            MarkVerifiedKeepsStoreValid(db, user.id, writes);
            Step(Success(VerifyOk(tokens.accessToken, tokens.refreshToken,
                                  ViewOfUser(user'), ViewOfFirm(db.firms[user.firmId]))),
                 writes)
  }

  /** Marking a stored user verified, or writing nothing, keeps the store
      consistent and changes no other field and no other row. */
  lemma MarkVerifiedKeepsStoreValid(db: Db, id: UserId, writes: seq<Write>)
    requires db.Valid() && id in db.users
    requires writes == [] || writes == [UpdateTwoFactorStatus(id, Verified)]
    ensures var db' := Apply(db, writes);
      && db'.Valid()
      && db'.firms == db.firms && db'.emailIndex == db.emailIndex
      && db'.users == db.users[id := db.users[id].(twoFactorStatus := if writes == [] then db.users[id].twoFactorStatus else Verified)]
  {
  }
}
