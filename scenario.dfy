/** The sign-up, sign-in, verify run of backend/scripts/test-2fa.js, driven
    through a freshly built service object instead of HTTP. */
module Scenario {
  import opened Common
  import Totp
  import Jwt
  import opened Store
  import opened Dto
  import opened Auth
  import opened AuthProperties
  import opened Service

  /** Signs a new firm up, signs in with the same credentials at `signedIn`,
      and answers the challenge at `answered` with the code an authenticator
      holding the enrolment secret shows then: the run ends with an access
      token for the new user and a refresh token, as the script expects. */
  method TwoFactorRun(keys: Keys, totp: Totp.CodeFn, dto: SignUpDto, salt: string, secret: string,
                      planTier: string, signedIn: nat, answered: nat)
    returns (r: Result<VerifyOk, AuthError>)
    requires Totp.IsGeneratedSecret(secret)
    requires signedIn <= answered < signedIn + Jwt.ChallengeTtl
    ensures r.Success?
    ensures Jwt.Verify(r.value.accessToken, keys.accessSecret, answered).Some?
    ensures r.value.user.twoFactorStatus == Verified
  {
    var service := new AuthService(keys, totp, planTier);
    var signup := service.SignUp(dto, salt, secret);
    SignUpSignInVerify(EmptyDb(), keys, totp, dto, salt, secret, planTier, signedIn, answered);
    var enrolment := signup.value.twoFactorEnrollment.secret;
    var signin := service.SignIn(SignInDto(dto.email, dto.password), signedIn);
    var code := Totp.Generate(totp, enrolment, answered);
    r := service.VerifyTwoFactor(Verify2faDto(signin.value.tempToken, code), answered);
  }
}
