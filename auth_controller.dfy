/** The HTTP handlers of `/auth`: what each one passes to the service, and what it does with
    the session. The session is the per-client record the framework keeps; a guard that
    rejects a request does so before the handler runs. */
module AuthHttp {
  import opened Wrappers
  import opened UserEntity
  import opened Users
  import opened Mail
  import opened Bcrypt
  import opened AuthSpec
  import opened AuthProperties
  import Auth

  const TokenInvalid := "The token is invalid"
  const SessionEnded := "The user session has ended"

  datatype LoginBody = LoginBody(username: string, password: string)
  datatype ResetBody = ResetBody(email: string)
  datatype PasswordBody = PasswordBody(newPassword: string, oldPassword: string)

  /** The session of one client: the user stored in it, and whether it has been destroyed. */
  class Session {
    var user: Option<User>
    var destroyed: bool

    constructor ()
      ensures user.None? && !destroyed
    {
      user, destroyed := None, false;
    }
  }

  /** The data a local registration passes on: the body as sent, with both flags forced to
      false after it, so that the body cannot set them. */
  function LocalRegistration(body: RegisterData): (d: RegisterData)
    ensures !d.isVerified && !d.registeredViaExternal
    ensures d.(isVerified := body.isVerified, registeredViaExternal := body.registeredViaExternal) == body
  {
    body.(isVerified := false, registeredViaExternal := false)
  }

  /** Where both identity-provider callbacks send the browser. */
  function LoginRedirect(frontendUrl: string): string
  {
    frontendUrl + "/login?resp=success"
  }

  /** A handler that answers nothing passes the outcome on and drops the value. */
  function Settled<T>(r: Result<T>): (s: Result<()>)
    ensures s.Success? <==> r.Success?
    ensures r.Failure? ==> s.error == r.error
  {
    if r.Failure? then Failure(r.error) else Success(())
  }

  class AuthController {
    const auth: Auth.AuthService

    constructor (auth: Auth.AuthService)
      ensures this.auth == auth
    {
      this.auth := auth;
    }

    /** `POST /auth/register`. */
    method Register(body: RegisterData, salt: Salt, now: nat) returns (r: Result<User>)
      modifies auth.users, auth.mailer
      ensures Effect(r, auth.users.Model(), auth.mailer.Model())
           == AuthSpec.Register(old(auth.users.Model()), old(auth.mailer.Model()), auth.config, LocalRegistration(body), salt, now)
    {
      var data := body.(isVerified := false, registeredViaExternal := false);
      r := auth.Register(data, salt, now);
    }

    /** `GET /auth/verify-email?token=`: a missing or empty token is refused here. */
    method VerifyEmail(token: Option<string>) returns (r: Result<bool>)
      modifies auth.users
      ensures !Truthy(token) ==> r == Failure(NotFound(TokenInvalid)) && auth.users.Model() == old(auth.users.Model())
      ensures Truthy(token) ==> (r, auth.users.Model()) == AuthSpec.VerifyEmail(old(auth.users.Model()), token.value)
    {
      if !Truthy(token) {
        return Failure(NotFound(TokenInvalid));
      }
      r := auth.VerifyEmail(token.value);
    }

    /** `POST /auth/login`: the local guard checks the credentials with `validateUser`; once
        it has accepted them the handler answers the username. */
    method Login(body: LoginBody) returns (r: Result<string>)
      ensures r.Success? <==> ValidateUser(auth.users.Model(), body.username, body.password).Success?
      ensures r.Success? ==> r.value == body.username
      ensures r.Failure? ==> r.error == ValidateUser(auth.users.Model(), body.username, body.password).error
    {
      var accepted := auth.ValidateUser(body.username, body.password);
      if accepted.Failure? {
        return Failure(accepted.error);
      }
      r := Success(body.username);
    }

    /** `GET /auth/logout`. */
    method Logout(session: Session) returns (msg: string)
      modifies session
      ensures session.destroyed && session.user.None?
      ensures msg == SessionEnded
    {
      session.destroyed := true;
      session.user := None;
      msg := SessionEnded;
    }

    /** `POST /auth/send-reset-email`. */
    method SendResetEmail(body: ResetBody, freshToken: string, now: nat) returns (r: Result<()>)
      modifies auth.users, auth.mailer
      ensures Effect(r, auth.users.Model(), auth.mailer.Model())
           == AuthSpec.SendResetEmail(old(auth.users.Model()), old(auth.mailer.Model()), auth.config, body.email, freshToken, now)
    {
      r := auth.SendResetEmail(body.email, freshToken, now);
    }

    /** `POST /auth/update-password`: the reset-token flow. */
    method UpdatePassword(body: ForgottenPasswordBody, salt: Salt, now: nat) returns (r: Result<()>)
      modifies auth.users
      ensures var spec := AuthSpec.ResetForgottenPassword(old(auth.users.Model()), body, salt, now);
        r == Settled(spec.0) && auth.users.Model() == spec.1
    {
      var done := auth.ResetForgottenPassword(body, salt, now);
      r := Settled(done);
    }

    /** `GET /auth/google/callback`: the guard has put the signed-in user on the request. */
    method GoogleAuthRedirect(session: Session, user: User) returns (redirect: string)
      modifies session
      ensures session.user == Some(user) && session.destroyed == old(session.destroyed)
      ensures redirect == LoginRedirect(auth.config.frontendUrl)
    {
      session.user := Some(user);
      redirect := LoginRedirect(auth.config.frontendUrl);
    }

    /** `GET /auth/facebook/callback`. */
    method FacebookAuthRedirect(session: Session, user: User) returns (redirect: string)
      modifies session
      ensures session.user == Some(user) && session.destroyed == old(session.destroyed)
      ensures redirect == LoginRedirect(auth.config.frontendUrl)
    {
      session.user := Some(user);
      redirect := LoginRedirect(auth.config.frontendUrl);
    }

    /** `POST /auth/update-password-signed`: the request's user, then the old, then the new
        password. */
    method UpdatePasswordSigned(requestUser: Option<User>, body: PasswordBody, salt: Salt) returns (r: Result<()>)
      modifies auth.users
      ensures var spec := AuthSpec.UpdatePasswordSigned(old(auth.users.Model()), requestUser, body.oldPassword, body.newPassword, salt);
        r == Settled(spec.0) && auth.users.Model() == spec.1
    {
      var done := auth.UpdatePasswordSigned(requestUser, body.oldPassword, body.newPassword, salt);
      r := Settled(done);
    }
  }

  /** A locally registered user cannot log in until the email is verified, whatever the
      request body said about verification. */
  lemma LocalRegistrationNeedsVerification(st: Store, mb: Mailbox, cfg: Config, body: RegisterData, salt: Salt, now: nat, password: string)
    requires Valid(st) && st.readFault.None?
    ensures var r := AuthSpec.Register(st, mb, cfg, LocalRegistration(body), salt, now);
      r.result.Success? ==>
        && !r.result.value.isVerified && !r.result.value.registeredViaExternal
        && ValidateUser(r.store, body.email, password) == Failure(Unauthorized(EmailNotVerified))
  {
    var data := LocalRegistration(body);
    var r := AuthSpec.Register(st, mb, cfg, data, salt, now);
    if r.result.Success? {
      var k := st.nextId;
      assert k in r.store.rows && r.store.rows[k] == r.result.value;
      ValidateStoredUser(r.store, k, password);
    }
  }

  /** A successful local registration stores the column defaults for role and both flags,
      and no reset token or expiry, under the next id. */
  lemma LocalRegistrationStoresDefaults(st: Store, mb: Mailbox, cfg: Config, body: RegisterData, salt: Salt, now: nat)
    requires Valid(st)
    ensures var r := AuthSpec.Register(st, mb, cfg, LocalRegistration(body), salt, now);
      r.result.Success? ==>
        var u := r.result.value;
        && u.role == DefaultRole && u.isVerified == DefaultIsVerified
        && u.registeredViaExternal == DefaultRegisteredViaExternal
        && u.resetToken.None? && u.resetTokenExpires.None?
        && u.id == Some(st.nextId) && st.nextId in r.store.rows && r.store.rows[st.nextId] == u
  {
  }

  /** Sign-up end to end on an empty store: register an address on an allowed domain, verify
      with the token the email carries, then log in with the password. Before verification
      the login is refused. */
  lemma SignUpScenario(local: string, password: string, first: string, last: string, salt: Salt, now: nat, cfg: Config)
    requires '@' !in local
    ensures var email := local + "@coalsoft.cz";
      var body := RegisterData(email, password, first, last, None, None, None, Employee, true, true);
      var st0 := Store(map[], 1, None, None);
      var mb0 := Mailbox([], None);
      var r := AuthSpec.Register(st0, mb0, cfg, LocalRegistration(body), salt, now);
      var token := VerificationToken(salt, email, now);
      && r.result.Success?
      && r.mail.outbox == [VerificationMessage(cfg, email, token)]
      && ValidateUser(r.store, email, password) == Failure(Unauthorized(EmailNotVerified))
      && var v := AuthSpec.VerifyEmail(r.store, token);
      && v.0 == Success(true)
      && ValidateUser(v.1, email, password) == Success(r.result.value.(isVerified := true))
  {
    var email := local + "@coalsoft.cz";
    EmailDomainOf(local, "coalsoft.cz", "");
    assert local + "@" + "coalsoft.cz" == email;
    assert DomainAllowed(email);
    var body := RegisterData(email, password, first, last, None, None, None, Employee, true, true);
    var data := LocalRegistration(body);
    var st0 := Store(map[], 1, None, None);
    var mb0 := Mailbox([], None);
    RegisterCreatesAccount(st0, mb0, cfg, data, salt, now);
    var r := AuthSpec.Register(st0, mb0, cfg, data, salt, now);
    var token := VerificationToken(salt, email, now);
    ValidateStoredUser(r.store, 1, password);
    assert FirstHolder(r.store, ByVerificationToken(token), 1);
    VerifyMarksVerified(r.store, token, 1);
    var v := AuthSpec.VerifyEmail(r.store, token);
    ValidateStoredUser(v.1, 1, password);
  }
}
