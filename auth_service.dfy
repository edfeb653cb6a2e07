/** The authentication service: it holds the user service and the mail gateway, fetches a
    user, changes it and saves it. Each method is proved to make exactly the transition that
    `AuthSpec` defines. */
module Auth {
  import opened Wrappers
  import opened UserEntity
  import opened Users
  import opened Mail
  import opened Bcrypt
  import AuthSpec

  class AuthService {
    const users: UserService
    const mailer: Mailer
    const config: AuthSpec.Config

    constructor (users: UserService, mailer: Mailer, config: AuthSpec.Config)
      ensures this.users == users && this.mailer == mailer && this.config == config
    {
      this.users, this.mailer, this.config := users, mailer, config;
    }

    method Register(data: AuthSpec.RegisterData, salt: Salt, now: nat) returns (r: Result<User>)
      modifies users, mailer
      ensures AuthSpec.Effect(r, users.Model(), mailer.Model())
           == AuthSpec.Register(old(users.Model()), old(mailer.Model()), config, data, salt, now)
    {
      if !AuthSpec.DomainAllowed(data.email) {
        return Failure(BadRequest(AuthSpec.DomainNotAllowed));
      }
      var existing := users.Find(ByEmail(data.email));
      if existing.Failure? {
        return Failure(existing.error);
      }
      if existing.value.Some? {
        return Failure(Conflict(AuthSpec.EmailAlreadyUsed));
      }
      if data.role == Employee {
        var password := Hash(salt, data.password);
        var verificationToken := AuthSpec.VerificationToken(salt, data.email, now);
        var saved := users.Save(User(
          None, data.email, password, data.photo, data.role, Some(verificationToken),
          data.isVerified, None, None, data.registeredViaExternal,
          Some(PersonalData(Some(data.firstName), Some(data.lastName), data.dateOfBirth, data.sex))));
        if saved.Failure? {
          return Failure(saved.error);
        }
        var newUser := saved.value;
        var sent := mailer.Send(AuthSpec.VerificationMessage(config, newUser.email, verificationToken));
        if sent.Failure? {
          return Failure(sent.error);
        }
        r := Success(newUser);
      } else {
        r := Failure(BadRequest(AuthSpec.CannotRegisterAdmin));
      }
    }

    method VerifyEmail(token: string) returns (r: Result<bool>)
      modifies users
      ensures (r, users.Model()) == AuthSpec.VerifyEmail(old(users.Model()), token)
    {
      var found := users.Find(ByVerificationToken(token));
      if found.Failure? {
        return Failure(found.error);
      }
      if found.value.None? {
        return Failure(NotFound(AuthSpec.InvalidVerificationToken));
      }
      var user := found.value.value;
      if user.isVerified {
        return Success(false);
      }
      user := user.(isVerified := true);
      var saved := users.Save(user);
      if saved.Failure? {
        return Failure(saved.error);
      }
      r := Success(true);
    }

    method ValidateUser(email: string, password: string) returns (r: Result<User>)
      ensures r == AuthSpec.ValidateUser(users.Model(), email, password)
    {
      var found := users.Find(ByEmail(email));
      if found.Failure? {
        return Failure(found.error);
      }
      if found.value.None? {
        return Failure(Unauthorized(AuthSpec.EmailDoesNotExist));
      }
      var user := found.value.value;
      if !user.isVerified {
        return Failure(Unauthorized(AuthSpec.EmailNotVerified));
      }
      if !Compare(password, user.password) {
        return Failure(Unauthorized(AuthSpec.InvalidCredentials));
      }
      r := Success(user);
    }

    method SendResetEmail(email: string, freshToken: string, now: nat) returns (r: Result<()>)
      modifies users, mailer
      ensures AuthSpec.Effect(r, users.Model(), mailer.Model())
           == AuthSpec.SendResetEmail(old(users.Model()), old(mailer.Model()), config, email, freshToken, now)
    {
      var found := users.Find(ByEmail(email));
      if found.Failure? {
        return Failure(found.error);
      }
      if found.value.None? {
        return Failure(NotFound(UserNotFound));
      }
      var user := found.value.value;
      user := user.(resetToken := Some(freshToken));
      user := user.(resetTokenExpires := Some(now + config.resetTokenExpiration));
      var msg := AuthSpec.ResetMessage(config, email, freshToken);
      var saved := users.Save(user);
      if saved.Failure? {
        return Failure(saved.error);
      }
      r := mailer.Send(msg);
    }

    method ResetForgottenPassword(body: AuthSpec.ForgottenPasswordBody, salt: Salt, now: nat) returns (r: Result<bool>)
      modifies users
      ensures (r, users.Model()) == AuthSpec.ResetForgottenPassword(old(users.Model()), body, salt, now)
    {
      var found := users.Find(ByResetToken(body.token));
      if found.Failure? {
        return Failure(found.error);
      }
      if found.value.None? {
        return Failure(Unauthorized(AuthSpec.InvalidResetToken));
      }
      var user := found.value.value;
      var expiry := user.resetTokenExpires;
      if expiry.Some? && expiry.value < now {
        return Failure(Unauthorized(AuthSpec.ResetTokenExpired));
      }
      var saved := UpdatePassword(user, body.password, salt);
      if saved.Failure? {
        return Failure(saved.error);
      }
      r := Success(true);
    }

    method ValidateGoogleUser(profile: AuthSpec.OAuthProfile, randomPassword: string, salt: Salt, now: nat) returns (r: Result<User>)
      modifies users, mailer
      ensures AuthSpec.Effect(r, users.Model(), mailer.Model())
           == AuthSpec.ValidateGoogleUser(old(users.Model()), old(mailer.Model()), config, profile, randomPassword, salt, now)
    {
      var found := users.Find(ByEmail(profile.email));
      if found.Failure? {
        return Failure(found.error);
      }
      if found.value.Some? {
        return Success(found.value.value);
      }
      r := Register(AuthSpec.RegisterData(
        profile.email, randomPassword, profile.givenName, profile.familyName, None, None,
        Some(profile.photo), Employee, true, true), salt, now);
    }

    method ValidateFacebookUser(profile: AuthSpec.OAuthProfile, randomPassword: string, salt: Salt, now: nat) returns (r: Result<User>)
      modifies users, mailer
      ensures AuthSpec.Effect(r, users.Model(), mailer.Model())
           == AuthSpec.ValidateFacebookUser(old(users.Model()), old(mailer.Model()), config, profile, randomPassword, salt, now)
    {
      var found := users.Find(ByEmail(profile.email));
      if found.Failure? {
        return Failure(found.error);
      }
      if found.value.Some? {
        return Success(found.value.value);
      }
      r := Register(AuthSpec.RegisterData(
        profile.email, randomPassword, profile.givenName, profile.familyName, profile.birthday, None,
        Some(profile.photo), Employee, true, true), salt, now);
    }

    method UpdatePasswordSigned(user: Option<User>, oldPassword: string, newPassword: string, salt: Salt) returns (r: Result<bool>)
      modifies users
      ensures (r, users.Model()) == AuthSpec.UpdatePasswordSigned(old(users.Model()), user, oldPassword, newPassword, salt)
    {
      if user.Some? {
        var isSame := Compare(oldPassword, user.value.password);
        if isSame {
          var saved := UpdatePassword(user.value, newPassword, salt);
          if saved.Failure? {
            return Failure(saved.error);
          }
          r := Success(true);
        } else {
          r := Failure(BadRequest(AuthSpec.DefaultBadRequest));
        }
      } else {
        r := Failure(Unauthorized(AuthSpec.DefaultUnauthorized));
      }
    }

    method UpdatePassword(user: User, newPassword: string, salt: Salt) returns (r: Result<User>)
      modifies users
      ensures (r, users.Model()) == AuthSpec.UpdatePassword(old(users.Model()), user, newPassword, salt)
    {
      var u := user;
      u := u.(password := Hash(salt, newPassword));
      u := u.(resetToken := None);
      u := u.(resetTokenExpires := None);
      r := users.Save(u);
    }
  }
}
