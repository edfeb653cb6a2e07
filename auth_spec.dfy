/** The account and authentication lifecycle as transitions on the user store and the outbox.
    The clock, the fresh uuids and the bcrypt salts are parameters. */
module AuthSpec {
  import opened Wrappers
  import opened UserEntity
  import opened Users
  import opened Mail
  import opened Bcrypt

  const AllowedDomains: seq<string> := ["coalsoft.cz", "coalios.cz", "coaledu.cz"]

  const DomainNotAllowed := "Email domain is not allowed"
  const EmailAlreadyUsed := "Email already used"
  const CannotRegisterAdmin := "Cannot register an admin"
  const InvalidVerificationToken := "Invalid verification token"
  const EmailDoesNotExist := "Email address does not exist"
  const EmailNotVerified := "Email address is not verified"
  const InvalidCredentials := "Invalid credentials"
  const InvalidResetToken := "Invalid reset token"
  const ResetTokenExpired := "Reset token has expired"
  /** The messages of the framework's exceptions when none is given. */
  const DefaultBadRequest := "Bad Request"
  const DefaultUnauthorized := "Unauthorized"

  /** The configuration the service reads: `FRONTEND_URL`, `SENDGRID_FROM_EMAIL`, and the
      reset-token lifetime `RESET_TOKEN_EXPIRATION` in milliseconds. */
  datatype Config = Config(frontendUrl: string, fromEmail: string, resetTokenExpiration: nat)

  /** The input of `register`. */
  datatype RegisterData = RegisterData(
    email: string,
    password: string,
    firstName: string,
    lastName: string,
    dateOfBirth: Option<string>,
    sex: Option<string>,
    photo: Option<string>,
    role: Role,
    isVerified: bool,
    registeredViaExternal: bool)

  /** The part of an identity provider's profile the service reads: the first email, the
      given and family names, the birthday (Facebook only) and the first photo. */
  datatype OAuthProfile = OAuthProfile(
    email: string,
    givenName: string,
    familyName: string,
    birthday: Option<string>,
    photo: string)

  datatype ForgottenPasswordBody = ForgottenPasswordBody(token: string, password: string)

  /** The outcome of an operation that may send mail: its result, the new store, the new
      mailbox. */
  datatype Effect<T> = Effect(result: Result<T>, store: Store, mail: Mailbox)

  // ---------------------------------------------------------------------------------------
  // The email domain

  /** JavaScript's `s.split(sep)` for a one-character separator. */
  function Split(s: string, sep: char): (parts: seq<string>)
    decreases |s|
    ensures |parts| >= 1
  {
    if s == [] then [""]
    else
      var rest := Split(s[1..], sep);
      if s[0] == sep then [""] + rest else [[s[0]] + rest[0]] + rest[1..]
  }

  /** The inverse of `Split`: the parts glued back with the separator. */
  function Join(parts: seq<string>, sep: char): string
    requires |parts| >= 1
    decreases |parts|
  {
    if |parts| == 1 then parts[0] else parts[0] + [sep] + Join(parts[1..], sep)
  }

  /** `email.split('@')[1]`: the text after the first `@`, cut at the next `@`; undefined
      when there is no `@`. */
  function EmailDomain(email: string): Option<string>
  {
    var parts := Split(email, '@');
    if |parts| > 1 then Some(parts[1]) else None
  }

  predicate DomainAllowed(email: string)
  {
    var d := EmailDomain(email);
    d.Some? && d.value in AllowedDomains
  }

  // ---------------------------------------------------------------------------------------
  // Tokens and messages

  function DigitChar(d: nat): char
    requires d < 10
  {
    "0123456789"[d]
  }

  /** The decimal text of a number, as a template literal renders `Date.now()`. */
  function Decimal(n: nat): string
    decreases n
  {
    if n < 10 then [DigitChar(n)] else Decimal(n / 10) + [DigitChar(n % 10)]
  }

  /** The verification token: the email and the current time hashed with the salt of the
      password. */
  function VerificationToken(salt: Salt, email: string, now: nat): string
  {
    Hash(salt, email + Decimal(now))
  }

  function VerificationMessage(cfg: Config, to: string, token: string): Message
  {
    var link := cfg.frontendUrl + "/verify?token=" + token;
    Message(to, cfg.fromEmail, "Verify your email address",
            LinkBody("Please click the following link to verify your email address:", link))
  }

  function ResetMessage(cfg: Config, to: string, token: string): Message
  {
    var link := cfg.frontendUrl + "/change-password?token=" + token;
    Message(to, cfg.fromEmail, "Reset your password",
            LinkBody("Please click the following link to reset your password:", link))
  }

  // ---------------------------------------------------------------------------------------
  // Registration and verification

  /** The user `register` saves: no id yet, the password hashed, a verification token, no
      reset token, the flags as given. */
  function NewAccount(data: RegisterData, salt: Salt, now: nat): User
  {
    User(None, data.email, Hash(salt, data.password), data.photo, data.role,
         Some(VerificationToken(salt, data.email, now)), data.isVerified, None, None,
         data.registeredViaExternal,
         Some(PersonalData(Some(data.firstName), Some(data.lastName), data.dateOfBirth, data.sex)))
  }

  /** `register(userData)`: allowlisted domain, then an unused email, then the employee
      role; then save and send the verification email. */
  function Register(st: Store, mb: Mailbox, cfg: Config, data: RegisterData, salt: Salt, now: nat): (r: Effect<User>)
    ensures r.mail.outbox == mb.outbox
         || r.mail.outbox == mb.outbox + [VerificationMessage(cfg, data.email, VerificationToken(salt, data.email, now))]
    ensures r.result.Success? ==>
      r.mail.outbox == mb.outbox + [VerificationMessage(cfg, data.email, VerificationToken(salt, data.email, now))]
    ensures Valid(st) ==> Valid(r.store)
  {
    if !DomainAllowed(data.email) then Effect(Failure(BadRequest(DomainNotAllowed)), st, mb)
    else match Lookup(st, ByEmail(data.email))
      case Failure(e) => Effect(Failure(e), st, mb)
      case Success(Some(_)) => Effect(Failure(Conflict(EmailAlreadyUsed)), st, mb)
      case Success(None) =>
        if data.role != Employee then Effect(Failure(BadRequest(CannotRegisterAdmin)), st, mb)
        else
          var saved := Upsert(st, NewAccount(data, salt, now));
          match saved.0
          case Failure(e) => Effect(Failure(e), saved.1, mb)
          case Success(u) =>
            var sent := Deliver(mb, VerificationMessage(cfg, u.email, VerificationToken(salt, data.email, now)));
            Effect(if sent.0.Failure? then Failure(sent.0.error) else Success(u), saved.1, sent.1)
  }

  /** `verifyEmail(token)`: mark the holder of the token verified; `false` when it already
      was. The token stays on the user. */
  function VerifyEmail(st: Store, token: string): (r: (Result<bool>, Store))
    ensures r.0 != Success(true) ==> r.1 == st
    ensures Valid(st) ==> Valid(r.1)
  {
    match Lookup(st, ByVerificationToken(token))
    case Failure(e) => (Failure(e), st)
    case Success(None) => (Failure(NotFound(InvalidVerificationToken)), st)
    case Success(Some(u)) =>
      if u.isVerified then (Success(false), st)
      else
        var saved := Upsert(st, u.(isVerified := true));
        (if saved.0.Failure? then Failure(saved.0.error) else Success(true), saved.1)
  }

  // ---------------------------------------------------------------------------------------
  // Login

  /** `validateUser(email, password)`: the stored user, when it exists, is verified and the
      password matches. */
  function ValidateUser(st: Store, email: string, password: string): (r: Result<User>)
    ensures r.Success? ==> r.value.email == email && r.value.isVerified && Compare(password, r.value.password)
    ensures Valid(st) && r.Success? ==> r.value.id.Some? && r.value.id.value in st.rows && st.rows[r.value.id.value] == r.value
  {
    match Lookup(st, ByEmail(email))
    case Failure(e) => Failure(e)
    case Success(None) => Failure(Unauthorized(EmailDoesNotExist))
    case Success(Some(u)) =>
      if !u.isVerified then Failure(Unauthorized(EmailNotVerified))
      else if !Compare(password, u.password) then Failure(Unauthorized(InvalidCredentials))
      else Success(u)
  }

  // ---------------------------------------------------------------------------------------
  // Password reset and change

  /** `sendResetEmail(email)`: a fresh reset token with its expiry, saved before the email
      is sent. */
  function SendResetEmail(st: Store, mb: Mailbox, cfg: Config, email: string, freshToken: string, now: nat): (r: Effect<()>)
    ensures r.mail != mb ==> r.mail.outbox == mb.outbox + [ResetMessage(cfg, email, freshToken)]
    ensures Valid(st) ==> Valid(r.store)
  {
    match Lookup(st, ByEmail(email))
    case Failure(e) => Effect(Failure(e), st, mb)
    case Success(None) => Effect(Failure(NotFound(UserNotFound)), st, mb)
    case Success(Some(u)) =>
      var saved := Upsert(st, u.(resetToken := Some(freshToken), resetTokenExpires := Some(now + cfg.resetTokenExpiration)));
      if saved.0.Failure? then Effect(Failure(saved.0.error), saved.1, mb)
      else
        var sent := Deliver(mb, ResetMessage(cfg, email, freshToken));
        Effect(sent.0, saved.1, sent.1)
  }

  /** The user with a new password hash and no reset token. */
  function WithNewPassword(u: User, newPassword: string, salt: Salt): (r: User)
    ensures Compare(newPassword, r.password)
    ensures r.resetToken.None? && r.resetTokenExpires.None?
    ensures r.(password := u.password, resetToken := u.resetToken, resetTokenExpires := u.resetTokenExpires) == u
  {
    CompareHash(salt, newPassword, newPassword);
    u.(password := Hash(salt, newPassword), resetToken := None, resetTokenExpires := None)
  }

  /** `updatePassword(user, newPassword)`. */
  function UpdatePassword(st: Store, u: User, newPassword: string, salt: Salt): (r: (Result<User>, Store))
    ensures Valid(st) ==> Valid(r.1)
  {
    Upsert(st, WithNewPassword(u, newPassword, salt))
  }

  /** A token with no expiry never expires; one expiring exactly now is still accepted. */
  predicate Expired(expiry: Option<Instant>, now: nat)
  {
    expiry.Some? && expiry.value < now
  }

  /** `resetForgottenPassword(body)`: the holder of an unexpired reset token gets the new
      password. */
  function ResetForgottenPassword(st: Store, body: ForgottenPasswordBody, salt: Salt, now: nat): (r: (Result<bool>, Store))
    ensures r.0.Success? ==> r.0.value
    ensures Valid(st) ==> Valid(r.1)
  {
    match Lookup(st, ByResetToken(body.token))
    case Failure(e) => (Failure(e), st)
    case Success(None) => (Failure(Unauthorized(InvalidResetToken)), st)
    case Success(Some(u)) =>
      if Expired(u.resetTokenExpires, now) then (Failure(Unauthorized(ResetTokenExpired)), st)
      else
        var saved := UpdatePassword(st, u, body.password, salt);
        (if saved.0.Failure? then Failure(saved.0.error) else Success(true), saved.1)
  }

  /** `updatePasswordSigned(user, oldPassword, newPassword)` for the session's user. */
  function UpdatePasswordSigned(st: Store, user: Option<User>, oldPassword: string, newPassword: string, salt: Salt): (r: (Result<bool>, Store))
    ensures r.0.Success? ==> r.0.value
    ensures Valid(st) ==> Valid(r.1)
  {
    if user.None? then (Failure(Unauthorized(DefaultUnauthorized)), st)
    else if !Compare(oldPassword, user.value.password) then (Failure(BadRequest(DefaultBadRequest)), st)
    else
      var saved := UpdatePassword(st, user.value, newPassword, salt);
      (if saved.0.Failure? then Failure(saved.0.error) else Success(true), saved.1)
  }

  // ---------------------------------------------------------------------------------------
  // Identity providers

  /** What `register` receives for a first login through an identity provider. */
  function ExternalRegistration(p: OAuthProfile, dateOfBirth: Option<string>, randomPassword: string): (d: RegisterData)
    ensures d.email == p.email && d.role == Employee && d.isVerified && d.registeredViaExternal
  {
    RegisterData(p.email, randomPassword, p.givenName, p.familyName, dateOfBirth, None,
                 Some(p.photo), Employee, true, true)
  }

  /** The user with that email as stored, or a new one registered from `data`. */
  function FindOrProvision(st: Store, mb: Mailbox, cfg: Config, data: RegisterData, salt: Salt, now: nat): (r: Effect<User>)
    ensures Valid(st) ==> Valid(r.store)
  {
    match Lookup(st, ByEmail(data.email))
    case Failure(e) => Effect(Failure(e), st, mb)
    case Success(Some(u)) => Effect(Success(u), st, mb)
    case Success(None) => Register(st, mb, cfg, data, salt, now)
  }

  /** `validateGoogleUser(profile)`: no birthday is taken from Google. */
  function ValidateGoogleUser(st: Store, mb: Mailbox, cfg: Config, p: OAuthProfile, randomPassword: string, salt: Salt, now: nat): Effect<User>
  {
    FindOrProvision(st, mb, cfg, ExternalRegistration(p, None, randomPassword), salt, now)
  }

  /** `validateFacebookUser(profile)`: the Facebook birthday becomes the date of birth. */
  function ValidateFacebookUser(st: Store, mb: Mailbox, cfg: Config, p: OAuthProfile, randomPassword: string, salt: Salt, now: nat): Effect<User>
  {
    FindOrProvision(st, mb, cfg, ExternalRegistration(p, p.birthday, randomPassword), salt, now)
  }
}
