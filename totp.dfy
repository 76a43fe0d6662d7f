/** The TOTP engine (speakeasy), with its code function left abstract.

    A one-time code is `code(secret, counter)`: HOTP truncation (RFC 4226,
    section 5.3) of an HMAC over the counter, with the counter taken from the
    clock as in RFC 6238, section 4. The HMAC and base32 decoding are not
    modelled; every property below holds for every code function. */
module Totp {

  /** Code function: the 6-digit code for a base32 secret and a time-step counter. */
  type CodeFn = (string, int) -> string

  /** The time step X of RFC 6238, section 4.1: the library default of 30 seconds. */
  const StepSeconds: nat := 30

  /** `window: 1` in the verify call: one step of tolerance on either side
      (the resynchronisation allowance of RFC 6238, section 5.2). */
  const Window: nat := 1

  /** `otpauth://totp/<account name>?secret=<secret>`, kept as its two parts. */
  datatype OtpAuthUri = OtpAuthUri(accountName: string, secret: string)

  /** The time-step counter T = floor(now / X) for a clock reading in seconds. */
  function Counter(now: nat): (t: nat)
    ensures t * StepSeconds <= now < (t + 1) * StepSeconds
  {
    now / StepSeconds
  }

  /** `speakeasy.totp({secret, encoding: 'base32'})`: the code shown by an
      authenticator at time `now`. */
  function Generate(code: CodeFn, secret: string, now: nat): string {
    code(secret, Counter(now))
  }

  /** `speakeasy.totp.verify({secret, token, window: 1})` at time `now`. */
  predicate Verify(code: CodeFn, secret: string, token: string, now: nat): (ok: bool)
    ensures Generate(code, secret, now) == token ==> ok
    ensures ok ==> exists s :: Counter(now) - Window <= s <= Counter(now) + Window && code(secret, s) == token
  {
    var t := Counter(now);
    code(secret, t - 1) == token || code(secret, t) == token || code(secret, t + 1) == token
  }

  /** Verification accepts exactly the codes of the steps T-1, T and T+1. */
  lemma VerifyWindow(code: CodeFn, secret: string, token: string, now: nat)
    ensures Verify(code, secret, token, now) <==>
      exists s :: Counter(now) - Window <= s <= Counter(now) + Window && code(secret, s) == token
  {
  }

  /** A code read off the authenticator at time `shown` is accepted at any
      time less than one step away, whichever clock runs ahead. */
  lemma AcceptedWithinOneStep(code: CodeFn, secret: string, shown: nat, now: nat)
    requires shown < now + StepSeconds && now < shown + StepSeconds
    ensures Verify(code, secret, Generate(code, secret, shown), now)
  {
  }

  /** A secret as `generateSecret({length: 20})` returns it: 20 random bytes
      in base32 (RFC 4648, section 6), which is 32 characters without padding. */
  predicate IsGeneratedSecret(s: string) {
    |s| == 32 && forall i :: 0 <= i < |s| ==> 'A' <= s[i] <= 'Z' || '2' <= s[i] <= '7'
  }
}
