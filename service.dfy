/** `AuthService` (backend/src/auth/auth.service.ts) as an object holding the
    store's tables. Its methods change the tables step by step, in the order
    the source issues its writes, and each is proved to produce the result
    and the store of the matching function in auth.dfy. The clock and the
    random salt and TOTP secret are inputs; the TOTP code function and the
    two signing keys are fixed when the service is built, as the injected
    collaborators and configuration are. */
module Service {
  import opened Common
  import Argon2
  import Totp
  import Jwt
  import opened Store
  import opened Dto
  import opened Auth

  class AuthService {
    const keys: Keys
    const totp: Totp.CodeFn
    /** The plan tier the database gives a new firm (schema default). */
    const defaultPlanTier: string

    var firms: map<FirmId, Firm>
    var users: map<UserId, User>
    var emailIndex: map<string, UserId>
    var nextFirmId: FirmId
    var nextUserId: UserId

    /** The store as a value. */
    function Snapshot(): Db
      reads this
    {
      Db(firms, users, emailIndex, nextFirmId, nextUserId)
    }

    ghost predicate Valid()
      reads this
    {
      Snapshot().Valid()
    }

    constructor (keys: Keys, totp: Totp.CodeFn, defaultPlanTier: string)
      ensures Valid() && Snapshot() == EmptyDb()
      ensures this.keys == keys && this.totp == totp && this.defaultPlanTier == defaultPlanTier
    {
      this.keys := keys;
      this.totp := totp;
      this.defaultPlanTier := defaultPlanTier;
      firms, users, emailIndex := map[], map[], map[];
      nextFirmId, nextUserId := 0, 0;
    }

    /** `signUp`: firm first, then user, unless the e-mail is taken. */
    method SignUp(dto: SignUpDto, salt: string, secret: string) returns (r: Result<SignUpOk, AuthError>)
      requires Valid()
      modifies this
      ensures Valid()
      ensures var s := SignUpOutcome(old(Snapshot()), dto, salt, secret, defaultPlanTier);
              r == s.result && Snapshot() == Apply(old(Snapshot()), s.writes)
    {
      var normalizedEmail := Lower(dto.email);
      var existing := FindUserByEmail(Snapshot(), normalizedEmail);
      if existing.Some? {
        return Failure(Conflict(EmailTaken));
      }
      ghost var db0 := Snapshot();
      var passwordHash := Argon2.Hash(dto.password, salt);
      var uri := Totp.OtpAuthUri(ProductName + " (" + normalizedEmail + ")", secret);

      var firm := Firm(nextFirmId, dto.firmName, dto.address, dto.city, dto.state, dto.zip, defaultPlanTier);
      firms := firms[firm.id := firm];
      nextFirmId := firm.id + 1;
      ghost var db1 := Snapshot();
      assert db1 == ApplyWrite(db0, CreateFirm(firm));

      var user := User(nextUserId, firm.id, normalizedEmail, passwordHash, dto.firstName, dto.lastName,
                       dto.phone, Admin, Some(secret), Pending);
      users := users[user.id := user];
      emailIndex := emailIndex[user.email := user.id];
      nextUserId := user.id + 1;

      r := Success(SignUpOk(
             FirmSummary(firm.id, firm.name),
             UserSummary(user.id, user.email, user.firstName, user.lastName, user.phone, user.role),
             Enrollment(EnrollmentKind, secret, uri)));
      assert Apply(db1, [CreateUser(user)]) == Snapshot() by {
        assert [CreateUser(user)][1..] == [];
      }
      assert [CreateFirm(firm), CreateUser(user)][1..] == [CreateUser(user)];
    }

    /** `signIn`: reads the store, writes nothing. */
    method SignIn(dto: SignInDto, now: nat) returns (r: Result<SignInOk, AuthError>)
      requires Valid()
      ensures r == SignInOutcome(Snapshot(), keys, dto, now)
    {
      var normalizedEmail := Lower(dto.email);
      var user := FindUserByEmail(Snapshot(), normalizedEmail);
      if user.None? {
        return Failure(Unauthorized(InvalidCredentials));
      }
      var passwordValid := Argon2.Verify(user.value.passwordHash, dto.password);
      if !passwordValid {
        return Failure(Unauthorized(InvalidCredentials));
      }
      var u := user.value;
      assert Snapshot().UserRowOk(u.id);
      var tempToken := Jwt.Sign(Jwt.Claims(u.id, u.firmId, Some(ChallengeTag)), keys.accessSecret, Jwt.ChallengeTtl, now);
      r := Success(SignInOk(true, tempToken, ViewOfUser(u), ViewOfFirm(firms[u.firmId])));
    }

    /** `verifyTwoFactor`: the status is written only when it is not yet
        `verified`, and the local copy of the user is updated with it. */
    method VerifyTwoFactor(dto: Verify2faDto, now: nat) returns (r: Result<VerifyOk, AuthError>)
      requires Valid()
      modifies this
      ensures Valid()
      ensures var s := VerifyOutcome(old(Snapshot()), keys, totp, dto, now);
              r == s.result && Snapshot() == Apply(old(Snapshot()), s.writes)
    {
      ghost var db0 := Snapshot();
      var payload := Jwt.Verify(dto.tempToken, keys.accessSecret, now);
      if payload.None? {
        return Failure(Unauthorized(InvalidToken));
      }
      if payload.value.tag != Some(ChallengeTag) {
        return Failure(Unauthorized(NotAChallenge));
      }
      var found := FindUserById(Snapshot(), payload.value.sub);
      if found.None? || !Configured(found.value.twoFactorSecret) {
        return Failure(Unauthorized(NotConfigured));
      }
      var user := found.value;
      var verified := Totp.Verify(totp, user.twoFactorSecret.value, dto.code, now);
      if !verified {
        return Failure(Unauthorized(InvalidCode));
      }
      assert db0.UserRowOk(user.id);
      if user.twoFactorStatus != Verified {
        users := users[user.id := users[user.id].(twoFactorStatus := Verified)];
        user := user.(twoFactorStatus := Verified);
        assert Snapshot() == Apply(db0, [UpdateTwoFactorStatus(user.id, Verified)]) by {
          assert [UpdateTwoFactorStatus(user.id, Verified)][1..] == [];
        }
      }
      var tokens := GenerateTokens(keys, user.id, user.firmId, now);
      r := Success(VerifyOk(tokens.accessToken, tokens.refreshToken, ViewOfUser(user), ViewOfFirm(firms[user.firmId])));
    }
  }
}
