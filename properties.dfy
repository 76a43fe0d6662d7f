/** Properties of the protocol that relate several calls: what a sign-up
    leaves in the store, the case-insensitive conflict, the lifetime of the
    challenge token, why session tokens cannot answer a challenge, the
    one-time status flip, and the sign-up, sign-in, verify scenario. */
module AuthProperties {
  import opened Common
  import Argon2
  import Totp
  import Jwt
  import opened Store
  import opened Dto
  import opened Auth

  lemma ApplyOne(db: Db, w: Write)
    ensures Apply(db, [w]) == ApplyWrite(db, w)
  {
  }

  lemma ApplyTwo(db: Db, w1: Write, w2: Write)
    ensures Apply(db, [w1, w2]) == ApplyWrite(ApplyWrite(db, w1), w2)
  {
    assert [w1, w2][1..] == [w2];
    ApplyOne(ApplyWrite(db, w1), w2);
  }

  /** The id of the user a successful sign-up created. */
  function NewUserId(s: Step<SignUpOk>): UserId
    requires s.result.Success?
  {
    s.result.value.user.id
  }

  /** The two rows a successful sign-up writes, and the store they leave. */
  lemma SignUpRows(db: Db, dto: SignUpDto, salt: string, secret: string, planTier: string)
    returns (f: Firm, u: User)
    requires db.Valid()
    requires SignUpOutcome(db, dto, salt, secret, planTier).result.Success?
    ensures var s := SignUpOutcome(db, dto, salt, secret, planTier);
      && s.writes == [CreateFirm(f), CreateUser(u)]
      && f.id == s.result.value.firm.id && f.id !in db.firms
      && u.id == s.result.value.user.id && u.id !in db.users
      && u == User(u.id, f.id, Lower(dto.email), Argon2.Hash(dto.password, salt),
                   dto.firstName, dto.lastName, dto.phone, Admin, Some(secret), Pending)
      && s.result.value.twoFactorEnrollment.secret == secret
      && Apply(db, s.writes) == db.(firms := db.firms[f.id := f], nextFirmId := f.id + 1,
                                    users := db.users[u.id := u], emailIndex := db.emailIndex[u.email := u.id],
                                    nextUserId := u.id + 1)
  {
    var s := SignUpOutcome(db, dto, salt, secret, planTier);
    assert Registered(db, dto, salt, secret, planTier, s);
    f, u := s.writes[0].firm, s.writes[1].user;
    ApplyTwo(db, s.writes[0], s.writes[1]);
  }

  /** A successful sign-up adds exactly one firm and one user and changes
      no stored user. */
  lemma SignUpAddsOneOfEach(db: Db, dto: SignUpDto, salt: string, secret: string, planTier: string)
    requires db.Valid()
    requires SignUpOutcome(db, dto, salt, secret, planTier).result.Success?
    ensures var s := SignUpOutcome(db, dto, salt, secret, planTier);
      var db' := Apply(db, s.writes);
      && db'.firms.Keys == db.firms.Keys + {s.result.value.firm.id} && |db'.firms| == |db.firms| + 1
      && db'.users.Keys == db.users.Keys + {s.result.value.user.id} && |db'.users| == |db.users| + 1
      && (forall id :: id in db.users ==> db'.users[id] == db.users[id])
  {
    var f, u := SignUpRows(db, dto, salt, secret, planTier);
    FreshRowCounts(db.users, u.id, u);
    FreshRowCounts(db.firms, f.id, f);
  }

  /** Adding a row under an unused id adds one key and changes no other row. */
  lemma FreshRowCounts<K, V>(m: map<K, V>, k: K, v: V)
    requires k !in m
    ensures m[k := v].Keys == m.Keys + {k} && |m[k := v]| == |m| + 1
    ensures forall x :: x in m ==> m[k := v][x] == m[x]
  {
  }

  /** The user a successful sign-up creates belongs to the new firm, has the
      lower-cased e-mail, the role admin, the status pending, the password
      given and the very secret returned for enrolment; it is the one user
      that e-mail finds. */
  lemma SignUpCreatesAdmin(db: Db, dto: SignUpDto, salt: string, secret: string, planTier: string)
    requires db.Valid()
    requires SignUpOutcome(db, dto, salt, secret, planTier).result.Success?
    ensures var s := SignUpOutcome(db, dto, salt, secret, planTier);
      var db' := Apply(db, s.writes);
      var ok := s.result.value;
      && ok.user.id in db'.users
      && var u := db'.users[ok.user.id];
      && u.firmId == ok.firm.id && ok.firm.id in db'.firms
      && u.email == Lower(dto.email)
      && u.role == Admin
      && u.twoFactorStatus == Pending
      && u.twoFactorSecret == Some(ok.twoFactorEnrollment.secret)
      && Argon2.Verify(u.passwordHash, dto.password)
      && FindUserByEmail(db', Lower(dto.email)) == Some(u)
  {
    var f, u := SignUpRows(db, dto, salt, secret, planTier);
  }

  /** Once an address is registered, signing up again with any spelling of
      it that lower-cases to the same string is a conflict that writes nothing. */
  lemma SecondSignUpConflicts(db: Db, first: SignUpDto, again: SignUpDto,
                              salt: string, secret: string, salt': string, secret': string, planTier: string)
    requires db.Valid()
    requires SignUpOutcome(db, first, salt, secret, planTier).result.Success?
    requires Lower(again.email) == Lower(first.email)
    ensures var db' := Apply(db, SignUpOutcome(db, first, salt, secret, planTier).writes);
      var s := SignUpOutcome(db', again, salt', secret', planTier);
      s.result == Failure(Conflict(EmailTaken)) && s.writes == []
  {
    var s := SignUpOutcome(db, first, salt, secret, planTier);
    SignUpCreatesAdmin(db, first, salt, secret, planTier);
    var db' := Apply(db, s.writes);
    assert db'.users[NewUserId(s)].email == Lower(again.email);
  }

  /** Sign-in looks the user up by the lower-cased address, so the case in
      which it is typed does not matter. */
  lemma SignInIgnoresCase(db: Db, keys: Keys, email: string, email': string, password: string, now: nat)
    requires db.Valid() && Lower(email) == Lower(email')
    ensures SignInOutcome(db, keys, SignInDto(email, password), now) ==
            SignInOutcome(db, keys, SignInDto(email', password), now)
  {
  }

  /** The challenge token of a sign-in at `now` gets past the token and tag
      checks of `verifyTwoFactor` until `now + 5 min` and fails with
      'Invalid or expired token' from then on; it is never a session token:
      an access token carries no tag and a refresh token a different one. */
  lemma ChallengeLifetime(db: Db, keys: Keys, code: Totp.CodeFn, dto: SignInDto, now: nat, answer: string, later: nat)
    requires db.Valid()
    requires SignInOutcome(db, keys, dto, now).Success?
    ensures var temp := SignInOutcome(db, keys, dto, now).value.tempToken;
      && temp.claims.tag == Some(ChallengeTag)
      && (later < now + Jwt.ChallengeTtl ==> LiveChallenge(keys, temp, later))
      && (later >= now + Jwt.ChallengeTtl ==>
           VerifyOutcome(db, keys, code, Verify2faDto(temp, answer), later).result == Failure(Unauthorized(InvalidToken)))
  {
  }

  /** Neither session token answers a challenge: a live access token is
      refused as 'Token is not a 2FA challenge', and a refresh token, signed
      with the other key, as 'Invalid or expired token'. Nothing is written. */
  lemma SessionTokensRejected(db: Db, keys: Keys, code: Totp.CodeFn, userId: UserId, firmId: FirmId,
                              issued: nat, answer: string, now: nat)
    requires db.Valid()
    ensures var pair := GenerateTokens(keys, userId, firmId, issued);
      var viaAccess := VerifyOutcome(db, keys, code, Verify2faDto(pair.accessToken, answer), now);
      var viaRefresh := VerifyOutcome(db, keys, code, Verify2faDto(pair.refreshToken, answer), now);
      && viaAccess.result.Failure? && viaAccess.writes == []
      && viaRefresh.result.Failure? && viaRefresh.writes == []
      && (now < issued + Jwt.AccessTtl ==> viaAccess.result.error == Unauthorized(NotAChallenge))
      && (keys.accessSecret != keys.refreshSecret ==> viaRefresh.result.error == Unauthorized(InvalidToken))
  {
  }

  /** Only a token tagged '2fa' and signed with the access key passes, and
      only before it expires. */
  lemma OnlyLiveChallengesPass(db: Db, keys: Keys, code: Totp.CodeFn, dto: Verify2faDto, now: nat)
    requires db.Valid()
    requires VerifyOutcome(db, keys, code, dto, now).result.Success?
    ensures dto.tempToken.Signed?
    ensures dto.tempToken.key == keys.accessSecret
    ensures now < dto.tempToken.exp
    ensures dto.tempToken.claims.tag == Some(ChallengeTag)
  {
  }

  /** A successful verification leaves the token's user verified, with every
      other field and every other row as it was. */
  lemma VerificationMarksUser(db: Db, keys: Keys, code: Totp.CodeFn, dto: Verify2faDto, now: nat)
    requires db.Valid()
    requires VerifyOutcome(db, keys, code, dto, now).result.Success?
    ensures var sub := dto.tempToken.claims.sub;
      var db' := Apply(db, VerifyOutcome(db, keys, code, dto, now).writes);
      && db'.firms == db.firms
      && db'.users == db.users[sub := db.users[sub].(twoFactorStatus := Verified)]
  {
    var s := VerifyOutcome(db, keys, code, dto, now);
    var sub := dto.tempToken.claims.sub;
    MarkVerifiedKeepsStoreValid(db, sub, s.writes);
    if s.writes == [] {
      var u := db.users[sub];
      assert u.twoFactorStatus == Verified;
      assert u.(twoFactorStatus := Verified) == u;
    }
  }

  /** The status flip happens once: after one successful verification, any
      later verification for the same user writes nothing, succeeds or not,
      and the user stays verified. The flip does not change which retries
      are accepted: a retry succeeds afterwards exactly when it would have
      succeeded before. */
  lemma StatusFlipIsIdempotent(db: Db, keys: Keys, code: Totp.CodeFn,
                               first: Verify2faDto, now: nat, again: Verify2faDto, later: nat)
    requires db.Valid()
    requires VerifyOutcome(db, keys, code, first, now).result.Success?
    requires again.tempToken.Signed? && again.tempToken.claims.sub == first.tempToken.claims.sub
    ensures var db' := Apply(db, VerifyOutcome(db, keys, code, first, now).writes);
      var s := VerifyOutcome(db', keys, code, again, later);
      && s.writes == []
      && Apply(db', s.writes) == db'
      && first.tempToken.claims.sub in db'.users
      && db'.users[first.tempToken.claims.sub].twoFactorStatus == Verified
      && (s.result.Success? ==> s.result.value.user.twoFactorStatus == Verified)
      && (s.result.Success? <==> VerifyOutcome(db, keys, code, again, later).result.Success?)
  {
    var sub := first.tempToken.claims.sub;
    VerificationMarksUser(db, keys, code, first, now);
    var s0 := VerifyOutcome(db, keys, code, first, now);
    var db' := Apply(db, s0.writes);
    assert db'.users[sub].twoFactorStatus == Verified;
    MarkVerifiedKeepsStoreValid(db, sub, s0.writes);
    AcceptanceIgnoresStatus(db, db', sub, db'.users[sub].twoFactorStatus, keys, code, again, later);
  }

  /** Whether `verifyTwoFactor` succeeds does not depend on a user's 2FA
      status: changing only that status changes no outcome's success. */
  lemma AcceptanceIgnoresStatus(db: Db, db': Db, sub: UserId, status: TwoFactorStatus, keys: Keys,
                                code: Totp.CodeFn, dto: Verify2faDto, now: nat)
    requires db.Valid() && db'.Valid() && sub in db.users
    requires db'.users == db.users[sub := db.users[sub].(twoFactorStatus := status)]
    ensures VerifyOutcome(db', keys, code, dto, now).result.Success? <==>
            VerifyOutcome(db, keys, code, dto, now).result.Success?
  {
    assert Accepts(db', keys, code, dto, now) <==> Accepts(db, keys, code, dto, now);
  }

  /** The scenario of backend/scripts/test-2fa.js: sign up with a fresh
      address, sign in with the same credentials, answer the challenge with
      the code the authenticator shows, within the five minutes: both
      session tokens come back and the user is verified. */
  lemma SignUpSignInVerify(db: Db, keys: Keys, code: Totp.CodeFn, dto: SignUpDto,
                           salt: string, secret: string, planTier: string, signedIn: nat, answered: nat)
    requires db.Valid()
    requires forall id :: id in db.users ==> db.users[id].email != Lower(dto.email)
    requires Totp.IsGeneratedSecret(secret)
    requires signedIn <= answered < signedIn + Jwt.ChallengeTtl
    ensures var s1 := SignUpOutcome(db, dto, salt, secret, planTier);
      && s1.result.Success?
      && var db1 := Apply(db, s1.writes);
      && var r2 := SignInOutcome(db1, keys, SignInDto(dto.email, dto.password), signedIn);
      && r2.Success?
      && var answer := Totp.Generate(code, s1.result.value.twoFactorEnrollment.secret, answered);
      && var s3 := VerifyOutcome(db1, keys, code, Verify2faDto(r2.value.tempToken, answer), answered);
      && s3.result.Success?
      && Jwt.Verify(s3.result.value.accessToken, keys.accessSecret, answered) ==
         Some(Jwt.Claims(NewUserId(s1), s1.result.value.firm.id, None))
      && NewUserId(s1) in Apply(db1, s3.writes).users
      && Apply(db1, s3.writes).users[NewUserId(s1)].twoFactorStatus == Verified
  {
    var s1 := SignUpOutcome(db, dto, salt, secret, planTier);
    SignUpCreatesAdmin(db, dto, salt, secret, planTier);
    var db1 := Apply(db, s1.writes);
    var uid := NewUserId(s1);
    var u := db1.users[uid];
    assert u.email == Lower(dto.email) && Argon2.Verify(u.passwordHash, dto.password);
    var r2 := SignInOutcome(db1, keys, SignInDto(dto.email, dto.password), signedIn);
    assert r2.Success?;
    assert r2.value.user.id == uid by {
      EmailsUnique(db1, r2.value.user.id, uid);
    }
    var temp := r2.value.tempToken;
    var answer := Totp.Generate(code, secret, answered);
    assert secret != "" by {
      assert |secret| == 32;
    }
    assert LiveChallenge(keys, temp, answered);
    assert HasSecret(db1, uid);
    assert Totp.Verify(code, secret, answer, answered);
    var dto3 := Verify2faDto(temp, answer);
    assert Accepts(db1, keys, code, dto3, answered);
    VerificationMarksUser(db1, keys, code, dto3, answered);
  }
}
