/** The request bodies of the three endpoints and the field constraints that
    class-validator checks on them before the service runs
    (backend/src/auth/dto/sign-up.dto.ts, backend/src/auth/dto/verify-2fa.dto.ts).

    A body field is what JSON parsing left there: nothing, `null`, a string,
    or some other JSON value. A constraint that fails makes the request a
    400 Bad Request listing the failing properties, and the service is not
    called. */
module Dto {
  import opened Common
  import Jwt

  datatype Field<+T> = Missing | Null | Text(value: T) | NonText

  /** `@IsString()`: the property is present and a string. */
  predicate IsString<T>(f: Field<T>) {
    f.Text?
  }

  /** `@IsOptional() @IsString()`: absent or null (further checks are skipped), or a string. */
  predicate IsOptionalString<T>(f: Field<T>) {
    f.Missing? || f.Null? || f.Text?
  }

  /** The string of an optional property once validated: absent and null both become None. */
  function OptionalText(f: Field<string>): Option<string> {
    if f.Text? then Some(f.value) else None
  }

  /** The two library predicates of class-validator that the model keeps
      abstract: `isEmail` and `IsPhoneNumber('US')`. */
  datatype Validators = Validators(isEmail: string -> bool, isUsPhone: string -> bool)

  /** 400 Bad Request: the properties whose constraints failed, in declaration order. */
  datatype ValidationError = BadRequest(properties: seq<string>)

  // ---------------------------------------------------------------- sign-up

  datatype SignUpBody = SignUpBody(
    firmName: Field<string>,
    address: Field<string>,
    city: Field<string>,
    state: Field<string>,
    zip: Field<string>,
    firstName: Field<string>,
    lastName: Field<string>,
    email: Field<string>,
    password: Field<string>,
    phone: Field<string>)

  /** `SignUpDto` after validation: the shape the service receives. */
  datatype SignUpDto = SignUpDto(
    firmName: string,
    address: Option<string>,
    city: Option<string>,
    state: Option<string>,
    zip: Option<string>,
    firstName: string,
    lastName: string,
    email: string,
    password: string,
    phone: Option<string>)

  /** `@MinLength(8)`: a string of at least eight characters. */
  const MinPasswordLength: nat := 8

  predicate PasswordOk(f: Field<string>) {
    f.Text? && |f.value| >= MinPasswordLength
  }

  predicate EmailOk(f: Field<string>, v: Validators) {
    f.Text? && v.isEmail(f.value)
  }

  /** `@IsOptional() @IsPhoneNumber('US')`. */
  predicate PhoneOk(f: Field<string>, v: Validators) {
    f.Missing? || f.Null? || (f.Text? && v.isUsPhone(f.value))
  }

  /** Every constraint of `SignUpDto` holds: the five required properties
      are strings, no optional property holds a non-string value, and the
      e-mail, password and phone pass their own checks. */
  predicate ValidSignUp(b: SignUpBody, v: Validators): (ok: bool)
    ensures ok <==>
      && b.firmName.Text? && b.firstName.Text? && b.lastName.Text? && b.email.Text? && b.password.Text?
      && !b.address.NonText? && !b.city.NonText? && !b.state.NonText? && !b.zip.NonText? && !b.phone.NonText?
      && v.isEmail(b.email.value)
      && |b.password.value| >= MinPasswordLength
      && (b.phone.Text? ==> v.isUsPhone(b.phone.value))
  {
    && IsString(b.firmName)
    && IsOptionalString(b.address)
    && IsOptionalString(b.city)
    && IsOptionalString(b.state)
    && IsOptionalString(b.zip)
    && IsString(b.firstName)
    && IsString(b.lastName)
    && EmailOk(b.email, v)
    && PasswordOk(b.password)
    && PhoneOk(b.phone, v)
  }

  function Check(ok: bool, property: string): seq<string> {
    if ok then [] else [property]
  }

  /** The properties of a sign-up body that fail their constraints. */
  function SignUpFailures(b: SignUpBody, v: Validators): (r: seq<string>)
    ensures r == [] <==> ValidSignUp(b, v)
    ensures "password" in r <==> !PasswordOk(b.password)
    ensures "email" in r <==> !EmailOk(b.email, v)
    ensures "phone" in r <==> !PhoneOk(b.phone, v)
  {
    Check(IsString(b.firmName), "firmName")
    + Check(IsOptionalString(b.address), "address")
    + Check(IsOptionalString(b.city), "city")
    + Check(IsOptionalString(b.state), "state")
    + Check(IsOptionalString(b.zip), "zip")
    + Check(IsString(b.firstName), "firstName")
    + Check(IsString(b.lastName), "lastName")
    + Check(EmailOk(b.email, v), "email")
    + Check(PasswordOk(b.password), "password")
    + Check(PhoneOk(b.phone, v), "phone")
  }

  /** The validation step in front of `signUp`: a typed DTO exactly when
      every constraint holds, carrying the body's strings unchanged. */
  function ParseSignUp(b: SignUpBody, v: Validators): (r: Result<SignUpDto, ValidationError>)
    ensures r.Success? <==> ValidSignUp(b, v)
    ensures r.Failure? ==> r.error.properties != []
    ensures r.Success? ==>
      && r.value.firmName == b.firmName.value
      && r.value.firstName == b.firstName.value
      && r.value.lastName == b.lastName.value
      && r.value.email == b.email.value && v.isEmail(r.value.email)
      && r.value.password == b.password.value && |r.value.password| >= MinPasswordLength
      && r.value.address == OptionalText(b.address)
      && r.value.city == OptionalText(b.city)
      && r.value.state == OptionalText(b.state)
      && r.value.zip == OptionalText(b.zip)
      && r.value.phone == OptionalText(b.phone)
      && (r.value.phone.Some? ==> v.isUsPhone(r.value.phone.value))
  {
    var failed := SignUpFailures(b, v);
    if failed != [] then Failure(BadRequest(failed))
    else Success(SignUpDto(
      b.firmName.value, OptionalText(b.address), OptionalText(b.city),
      OptionalText(b.state), OptionalText(b.zip), b.firstName.value,
      b.lastName.value, b.email.value, b.password.value, OptionalText(b.phone)))
  }

  // ---------------------------------------------------------------- sign-in

  /** `SignInDto`, whose declaration is not part of this model: the service
      reads only these two strings. */
  datatype SignInDto = SignInDto(email: string, password: string)

  // ------------------------------------------------------------- verify-2fa

  /** The temp token travels as a JSON string; the model reads that string
      through its decoding as a token (`Jwt.Malformed` when it does not decode). */
  datatype Verify2faBody = Verify2faBody(tempToken: Field<Jwt.Token>, code: Field<string>)

  datatype Verify2faDto = Verify2faDto(tempToken: Jwt.Token, code: string)

  /** `@Length(6, 6)`. */
  const CodeLength: nat := 6

  /** `@IsString() @Length(6, 6)` on `code`: length is its only shape constraint. */
  predicate CodeOk(f: Field<string>) {
    f.Text? && |f.value| == CodeLength
  }

  /** Both properties are required strings: an absent, null or non-string
      token or code fails, and a string code passes exactly when it has six
      characters. */
  predicate ValidVerify2fa(b: Verify2faBody): (ok: bool)
    ensures !b.tempToken.Text? || !b.code.Text? ==> !ok
    ensures b.tempToken.Text? && b.code.Text? ==> (ok <==> |b.code.value| == CodeLength)
  {
    IsString(b.tempToken) && CodeOk(b.code)
  }

  /** The validation step in front of `verifyTwoFactor`. */
  function ParseVerify2fa(b: Verify2faBody): (r: Result<Verify2faDto, ValidationError>)
    ensures r.Success? <==> ValidVerify2fa(b)
    ensures r.Failure? ==> r.error.properties != []
    ensures r.Success? ==> r.value == Verify2faDto(b.tempToken.value, b.code.value) && |r.value.code| == CodeLength
  {
    var failed := Check(IsString(b.tempToken), "tempToken") + Check(CodeOk(b.code), "code");
    if failed != [] then Failure(BadRequest(failed))
    else Success(Verify2faDto(b.tempToken.value, b.code.value))
  }

  /** Any six characters pass validation, digits or not; five or seven never do. */
  lemma CodeLengthIsTheOnlyCheck(t: Jwt.Token, code: string)
    ensures ParseVerify2fa(Verify2faBody(Text(t), Text(code))).Success? <==> |code| == 6
    ensures ParseVerify2fa(Verify2faBody(Text(t), Text("abcdef"))).Success?
    ensures ParseVerify2fa(Verify2faBody(Text(t), Text("12345"))).Failure?
    ensures ParseVerify2fa(Verify2faBody(Text(t), Text("1234567"))).Failure?
  {
  }

  /** A seven-character password is rejected, whatever else the body holds;
      the sign-up constraints accept an empty firm name or person name. */
  lemma PasswordLengthBoundary(b: SignUpBody, v: Validators)
    requires ValidSignUp(b, v)
    ensures ParseSignUp(b.(password := Text("1234567")), v).Failure?
    ensures ParseSignUp(b.(password := Text("12345678")), v).Success?
    ensures ParseSignUp(b.(firmName := Text(""), firstName := Text(""), lastName := Text("")), v).Success?
  {
  }
}
