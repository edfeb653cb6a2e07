# coalunch-be authentication core, modelled in Dafny

This project models the account and authentication lifecycle of the coalunch backend, a
NestJS service. It covers these operations:

- registration with a company email address (domain allowlist, unique email, employee role
  only, bcrypt-hashed password, verification token, verification email);
- email verification;
- login by email and password;
- the password-reset workflow (reset token with expiry, reset email, password change by
  token);
- the signed-in password change;
- first login through Google or Facebook, which reuses the stored user or registers one;
- the HTTP handlers of `/auth` and the session they write;
- the user service the authentication code relies on (`find`, `save`, profile read and
  update, the display listing);
- the user entity with its defaults and lookup criteria;
- the database-aware column decorators.

Layout:

- `wrappers.dfy` (`Wrappers`): optional values, JavaScript truthiness and `||`, and the
  exceptions. `Failed` stands for any error that the framework answers with status 500.
- `user_entity.dfy` (`UserEntity`): the `user` row, its personal-data record, the column
  defaults, and `UserWhere` with its matching rule.
- `user_service.dfy` (`Users`): the database as a value `Store`. It holds the rows by id,
  the next id, and a read fault and a write fault. Both faults are set by the environment.
  The module defines `Lookup` (`findOneBy`) and `Upsert` (`save`, which enforces the unique
  email column), the profile operations, and the class `UserService`. Each method of that
  class is proved to make exactly the transition its function defines.
- `bcrypt.dfy` (`Bcrypt`): hashing, abstracted. A digest carries its salt, so `Compare`
  needs only the candidate and the digest. `CompareHash` proves that a digest accepts
  exactly its own password.
- `mail.dfy` (`Mail`): the mail gateway as an outbox with an optional delivery fault, and
  the class `Mailer`.
- `auth_spec.dfy` (`AuthSpec`): each operation of `AuthService` as a transition on store
  and outbox. The clock, uuids and salts are parameters.
- `auth_service.dfy` (`Auth`): the class `AuthService`. It holds a `UserService`, a `Mailer`
  and the configuration, works step by step like the TypeScript code, and each method is
  proved equal to its transition.
- `auth_properties.dfy` (`AuthProperties`): what the lifecycle guarantees. Examples: a
  duplicate email is a conflict before the role is looked at; a failed save sends no email;
  a reset token works once and only until it expires; after a password change the new
  password logs in and the old one does not; a known external email signs in without any
  write.
- `auth_controller.dfy` (`AuthHttp`): `AuthController` and the `Session`, plus the
  end-to-end sign-up scenario from an empty store.
- `typeorm.dfy` (`DbTypes`): `resolveDbType` and the two decorators that rewrite a column
  option object in place.

Three behaviours of the code worth knowing:

- A first login through Google or Facebook goes through `register`. It is therefore subject
  to the domain allowlist, and it sends a verification email although the user is stored
  as verified (`ExternalProvisioned`, `ExternalForeignDomain`).
- A disallowed domain and a non-employee role are both answered with BadRequest; for the
  role the message is "Cannot register an admin".
- The signed-in password change saves the copy of the user that the session holds; it does
  not reload the stored row first.

## Model

| member | source | states |
|---|---|---|
| UserEntity.MatchesOnlyGivenFields | src/entities/user/user.entity.ts:42-53 | empty criteria match every user; a criterion on a single field (id, email, verification token, reset token) matches exactly the users holding that value |
| Users.FirstKey | src/entities/user/user.service.ts:26-33 | the key returned is the lowest key in the range whose row matches; when there is none, no row in the range matches |
| Users.Lookup | src/entities/user/user.service.ts:26-33 | a read fault is rethrown unchanged; a returned user matches the criteria, is stored under its own id, and has no matching row with a lower id; nothing is returned exactly when no row matches |
| Users.Upsert | src/entities/user/user.service.ts:40-47 | a write fault is rethrown and changes nothing; the save succeeds exactly when no other row holds the email; a user without an id gets the next id, which no row held; the new state is given exactly; store validity (rows under their ids, unique emails) is preserved |
| Users.NewPhoto | src/entities/user/user.service.ts:79-80 | `null` clears the photo, a non-empty string replaces it, an absent or empty one keeps it |
| Users.MergeUpdate | src/entities/user/user.service.ts:75-80 | first name, last name and date of birth are replaced when the body's value is present and non-empty and kept otherwise; sex is kept; the photo follows `NewPhoto`; no other field of the user changes |
| Users.MergeUpdateIdempotent | src/entities/user/user.service.ts:73-83 | applying the same update body twice gives the same user as applying it once |
| Users.UpdateUserIn | src/entities/user/user.service.ts:73-83 | a read fault is rethrown; an unknown id fails with the type error of reading `data` on `null`; a failure changes nothing; validity is preserved |
| Users.UpdateUserKeepsAccount | src/entities/user/user.service.ts:73-83 | updating a stored user replaces exactly that row by the merge, with its email, password, role, flags and tokens unchanged |
| Users.ProfileOf | src/entities/user/user.service.ts:54-65 | fails with "User not found" exactly when the id is not stored; otherwise the profile is that user's photo, email and personal data |
| Users.ListFrom | src/entities/user/user.service.ts:90-101 | each entry is a stored user whose id is listed, with its id, email and personal data; ids ascend strictly; every listed stored user in the range appears |
| Users.Listing | src/entities/user/user.service.ts:90-101 | a read fault is rethrown; otherwise the result holds each stored user whose id is requested, once, and nothing else (in id order, see "Left out") |
| Users.UserService.Find | src/entities/user/user.service.ts:26-33 | the method's answer is `Lookup` of the current table |
| Users.UserService.Save | src/entities/user/user.service.ts:40-47 | result and new table are `Upsert` of the old table |
| Users.UserService.GetProfile | src/entities/user/user.service.ts:54-65 | the method's answer is `ProfileOf` of the current table |
| Users.UserService.UpdateUser | src/entities/user/user.service.ts:73-83 | the field-by-field update and save give result and new table as `UpdateUserIn` |
| Users.UserService.DisplayUsers | src/entities/user/user.service.ts:90-101 | the method's answer is `Listing` of the current table |
| Bcrypt.Hash | src/authentication/auth.service.ts:42-43 | a digest begins with the salt it was made with |
| Bcrypt.CompareHash | src/authentication/auth.service.ts:131 | a digest accepts the password it was hashed from and rejects every other candidate |
| Mail.Mailer.Send | src/authentication/auth.service.ts:94 | result and new outbox are `Deliver` of the old one |
| AuthSpec.Split | src/authentication/auth.service.ts:29 | `split` always yields at least one part |
| AuthProperties.SplitJoin | src/authentication/auth.service.ts:29 | joining the parts of a split with the separator gives back the string, and no part contains the separator |
| AuthProperties.JoinSplit | src/authentication/auth.service.ts:29 | splitting parts that contain no separator, joined by it, gives back exactly those parts |
| AuthProperties.NoAtSignNoDomain | src/authentication/auth.service.ts:28-32 | an address without `@` has no domain and is refused |
| AuthProperties.EmailDomainOf | src/authentication/auth.service.ts:29 | the domain is the segment right after the first `@`, whatever follows a further `@` |
| AuthProperties.AllowedDomainsShape | src/authentication/auth.service.ts:28 | no allowlisted domain contains `@`, and none is a proper prefix of another |
| AuthProperties.ForeignDomainRefused | src/authentication/auth.service.ts:28-32 | for any `@`-free local part, domain and further segment: an address whose segment after the first `@` is not allowlisted is refused, with or without a further `@` segment |
| AuthProperties.LookAlikeDomainRefused | src/authentication/auth.service.ts:28-32 | any domain made of an allowlisted domain followed by a non-empty `@`-free suffix is refused |
| AuthProperties.AllowedDomainAccepted | src/authentication/auth.service.ts:28-32 | for any `@`-free local part and further segment: an address on any allowlisted domain is accepted, with or without a further `@` segment |
| AuthProperties.FurtherSegmentIgnored | src/authentication/auth.service.ts:28-32 | for any `@`-free parts, appending a further `@` segment never changes whether the address is accepted |
| AuthSpec.Register | src/authentication/auth.service.ts:26-76 | the outbox gains at most the one verification message for that address and token, and exactly that message when registration succeeds; store validity is preserved |
| Auth.AuthService.Register | src/authentication/auth.service.ts:26-76 | domain check, lookup, role check, hash, save and send give result, table and outbox as `AuthSpec.Register` |
| AuthProperties.RegisterForeignDomain | src/authentication/auth.service.ts:28-32 | a disallowed domain is a BadRequest "Email domain is not allowed", with nothing read, saved or sent |
| AuthProperties.RegisterDuplicateEmail | src/authentication/auth.service.ts:34-38 | an email already stored is a Conflict "Email already used", whatever the role, with nothing saved or sent |
| AuthProperties.RegisterAdminRefused | src/authentication/auth.service.ts:40-75 | a non-employee role is a BadRequest "Cannot register an admin", with nothing saved or sent |
| AuthProperties.RegisterCreatesAccount | src/authentication/auth.service.ts:40-72 | one new row under a fresh id, with the email, a digest of the password, the employee role, no reset token and the flags as given; one verification email to that address carrying the stored token |
| AuthProperties.RegisterSaveFailureSendsNothing | src/authentication/auth.service.ts:48-71 | a failed save rethrows its error, stores nothing and sends nothing |
| AuthProperties.RegisterDeliveryFailureKeepsUser | src/authentication/auth.service.ts:48-72 | a failed delivery fails the registration but leaves the new user stored |
| AuthProperties.RegisterTwice | src/authentication/auth.service.ts:34-38 | a second registration of the same email is a conflict that changes nothing, and exactly one row holds the email |
| AuthSpec.VerifyEmail | src/authentication/auth.service.ts:103-115 | only an answer of `true` changes the table; validity is preserved |
| Auth.AuthService.VerifyEmail | src/authentication/auth.service.ts:103-115 | result and new table are `AuthSpec.VerifyEmail` of the old table |
| AuthProperties.VerifyUnknownToken | src/authentication/auth.service.ts:104-107 | a token no user holds is a NotFound "Invalid verification token" and changes nothing |
| AuthProperties.VerifyMarksVerified | src/authentication/auth.service.ts:110-114 | the unverified holder of the token becomes verified, the answer is `true`, and no other field or row changes |
| AuthProperties.VerifyAlreadyVerified | src/authentication/auth.service.ts:108-109 | an already verified holder gives `false` and nothing changes |
| AuthProperties.VerifyTwice | src/authentication/auth.service.ts:103-115 | the token is not consumed: a second verification answers `false` and changes nothing |
| AuthSpec.ValidateUser | src/authentication/auth.service.ts:123-137 | an accepted user has that email, is verified, its digest accepts the password, and is the stored row |
| Auth.AuthService.ValidateUser | src/authentication/auth.service.ts:123-137 | the method's answer is `AuthSpec.ValidateUser` of the current table |
| AuthProperties.ValidateUnknownEmail | src/authentication/auth.service.ts:124-127 | an unknown email is Unauthorized "Email address does not exist" |
| AuthProperties.ValidateStoredUser | src/authentication/auth.service.ts:124-136 | for a stored email: "Email address is not verified" while unverified, else "Invalid credentials" on a wrong password, else the stored user |
| AuthSpec.SendResetEmail | src/authentication/auth.service.ts:144-163 | the outbox changes only by appending the reset message for that address and token; validity is preserved |
| Auth.AuthService.SendResetEmail | src/authentication/auth.service.ts:144-163 | the method's result, table and outbox are `AuthSpec.SendResetEmail` |
| AuthProperties.SendResetUnknownEmail | src/authentication/auth.service.ts:145-148 | an unknown email is a NotFound "User not found", with nothing saved or sent |
| AuthProperties.SendResetIssuesToken | src/authentication/auth.service.ts:149-162 | the fresh token and an expiry of now plus the configured lifetime are stored on that user only; the reset email goes to the address |
| AuthProperties.SendResetSaveFailureSendsNothing | src/authentication/auth.service.ts:161-162 | the token is saved before the email is sent, so a failed save sends nothing |
| AuthProperties.SendResetReplacesToken | src/authentication/auth.service.ts:144-184 | after a new reset email the previous token is invalid; the new one resets the password up to its expiry and is refused as expired after it |
| AuthSpec.WithNewPassword | src/authentication/auth.service.ts:266-276 | the new digest accepts the new password, both reset fields are cleared, nothing else changes |
| AuthSpec.UpdatePassword | src/authentication/auth.service.ts:266-278 | validity is preserved |
| Auth.AuthService.UpdatePassword | src/authentication/auth.service.ts:266-278 | the method's result and table are `AuthSpec.UpdatePassword` |
| AuthSpec.ResetForgottenPassword | src/authentication/auth.service.ts:170-184 | success answers `true`; validity is preserved |
| Auth.AuthService.ResetForgottenPassword | src/authentication/auth.service.ts:170-184 | the method's result and table are `AuthSpec.ResetForgottenPassword` |
| AuthProperties.ResetUnknownToken | src/authentication/auth.service.ts:171-175 | a token no user holds is Unauthorized "Invalid reset token" and changes nothing |
| AuthProperties.ResetExpiredToken | src/authentication/auth.service.ts:177-180 | an expiry strictly before now is Unauthorized "Reset token has expired" and changes nothing |
| AuthProperties.ResetAccepted | src/authentication/auth.service.ts:177-183 | without an expiry, or with one at or after now, the holder gets the new password with token and expiry cleared |
| AuthProperties.ResetSingleUse | src/authentication/auth.service.ts:170-184 | after a reset, the same token is unknown |
| AuthProperties.ResetNewPasswordLogsIn | src/authentication/auth.service.ts:123-184 | after a reset, a verified user logs in with the new password and with no other |
| AuthSpec.UpdatePasswordSigned | src/authentication/auth.service.ts:246-258 | success answers `true`; validity is preserved |
| Auth.AuthService.UpdatePasswordSigned | src/authentication/auth.service.ts:246-258 | the method's result and table are `AuthSpec.UpdatePasswordSigned` |
| AuthProperties.SignedWithoutUser | src/authentication/auth.service.ts:255-257 | without a session user the answer is a plain Unauthorized, and nothing changes |
| AuthProperties.SignedWrongOldPassword | src/authentication/auth.service.ts:248-254 | a wrong old password is a plain BadRequest, and nothing changes |
| AuthProperties.SignedChangesPassword | src/authentication/auth.service.ts:246-251 | the session's copy is saved with the new digest and no reset token; the new password then logs in (for a verified user) and the old one does not |
| AuthSpec.FindOrProvision | src/authentication/auth.service.ts:192-211 | validity is preserved |
| Auth.AuthService.ValidateGoogleUser | src/authentication/auth.service.ts:192-211 | the method's result, table and outbox are `AuthSpec.ValidateGoogleUser` |
| Auth.AuthService.ValidateFacebookUser | src/authentication/auth.service.ts:218-236 | the method's result, table and outbox are `AuthSpec.ValidateFacebookUser` |
| AuthProperties.ExternalKnownUser | src/authentication/auth.service.ts:192-236 | a stored email signs in as the stored user on both providers, with nothing saved or sent |
| AuthProperties.ExternalProvisioned | src/authentication/auth.service.ts:192-236 | an unknown allowed email is registered as a verified, externally registered employee under the next id, with the random password, the profile's names and photo, the given date of birth and no reset token; exactly that row is added and one verification email goes to the address |
| AuthProperties.ExternalNewUser | src/authentication/auth.service.ts:192-236 | for an unknown allowed email, Google provisions with no date of birth and Facebook with the profile's birthday, and both succeed |
| AuthProperties.ExternalForeignDomain | src/authentication/auth.service.ts:26-236 | an unknown provider email outside the allowlist is refused with the domain BadRequest on both providers |
| AuthHttp.LocalRegistration | src/authentication/auth.controller.ts:32-36 | the body passes through with both flags forced to false, whatever it said |
| AuthHttp.AuthController.Register | src/authentication/auth.controller.ts:30-39 | the result, table and outbox are those of registering `LocalRegistration(body)` |
| AuthHttp.AuthController.VerifyEmail | src/authentication/auth.controller.ts:43-49 | a missing or empty token is a NotFound "The token is invalid" with no lookup; any other goes to the service |
| AuthHttp.AuthController.Login | src/authentication/auth.controller.ts:53-59 | succeeds exactly when `validateUser` accepts the credentials, answering the username; otherwise it fails with the service's error |
| AuthHttp.AuthController.Logout | src/authentication/auth.controller.ts:62-66 | the session is destroyed and holds no user; the answer is "The user session has ended" |
| AuthHttp.AuthController.SendResetEmail | src/authentication/auth.controller.ts:69-72 | the result, table and outbox are those of `sendResetEmail` for the body's email |
| AuthHttp.AuthController.UpdatePassword | src/authentication/auth.controller.ts:76-79 | the table is that of `resetForgottenPassword` and the outcome is its settled result |
| AuthHttp.AuthController.GoogleAuthRedirect | src/authentication/auth.controller.ts:87-96 | the session stores the signed-in user and the browser goes to the frontend's login page with `resp=success` |
| AuthHttp.AuthController.FacebookAuthRedirect | src/authentication/auth.controller.ts:103-112 | the session stores the signed-in user and the browser goes to the frontend's login page with `resp=success` |
| AuthHttp.AuthController.UpdatePasswordSigned | src/authentication/auth.controller.ts:125-129 | forwards the request's user, the old password and the new one, in that order; table and settled result are those of `updatePasswordSigned` |
| AuthHttp.LocalRegistrationNeedsVerification | src/authentication/auth.controller.ts:32-37 | a successful local registration is unverified and not external, and its login is refused with "Email address is not verified" |
| AuthHttp.LocalRegistrationStoresDefaults | src/entities/user/user.entity.ts:19-35 | a successful local registration stores the column defaults for role, `isVerified` and `registeredViaExternal`, and no reset token or expiry, as the row under the next id |
| AuthHttp.SignUpScenario | src/authentication/auth.controller.ts:30-59 | from an empty store: registering `local@coalsoft.cz` succeeds and sends exactly one verification email; login is refused until the emailed token verifies the account; afterwards login succeeds |
| DbTypes.ResolveDbTypeSettles | src/config/typeorm.ts:3-15 | in the test environment no mapped PostgreSQL type survives, and resolving twice is resolving once |
| DbTypes.ResolveDbTypeChanges | src/config/typeorm.ts:3-15 | the type changes exactly for `bytea` and `timestamptz` in the test environment |
| DbTypes.DbAwareTypeSettles | src/config/typeorm.ts:17-29 | declaring a column twice with the same options has the effect of declaring it once; a type is never added or removed |
| DbTypes.DbAwareColumn | src/config/typeorm.ts:17-22 | the options object's type is rewritten in place as `DbAwareType` says, and a plain column decorator over the same object is returned |
| DbTypes.DbAwareCreateDateColumn | src/config/typeorm.ts:24-29 | the options object's type is rewritten in place as `DbAwareType` says, and a creation-date column decorator over the same object is returned |

## Left out

- Bcrypt.Hash: cost factor, salt generation and the 72-byte input limit of bcrypt are not modelled. A digest is the salt followed by the password, so the model has no collisions. The salt of each hash is a parameter.
- Time and randomness: `Date.now()`, `uuidv4()` and `genSalt()` are parameters (`now`, `freshToken`, `randomPassword`, `salt`).
- AuthSpec.Config: the value of `RESET_TOKEN_EXPIRATION` (`src/config/constants.ts` is not part of this model) is a configuration field. `FRONTEND_URL` and `SENDGRID_FROM_EMAIL` are configuration fields too.
- Mail.LinkBody: the indentation inside the HTML template literal is reduced to a newline.
- Console logging in the services is not modelled.
- The passport strategies are not modelled. Neither is the image fetch that turns a Google photo into a data URI, nor the guards of the routes. `local.auth.guard.ts`, `google.auth.guard.ts` and `facebook.auth.guard.ts` are not part of this model, so login does not write the session here. The requests that `AuthenticatedGuard` rejects before `update-password-signed` and `verify-login` are not modelled either. `AuthController.UpdatePasswordSigned` takes the request's user as an optional value instead.
- AuthSpec.OAuthProfile: the profile is normalised to its first email and first photo. The TypeError that `emails[0]`/`photos[0]` raise on a profile without them is not modelled.
- The `verify-login` handler and the start routes `/auth/google` and `/auth/facebook` only answer constants or redirect to the provider, so they are not modelled.
- Concurrency: two registrations racing between `find` and `save` are not modelled. Each operation runs alone. The unique email column still refuses the second save, which `Upsert` models.
- Users.Listing: `find` with `In(ids)` has no ORDER BY, so the database promises no order; the model lists the users in id order (as `Users.ListFrom` does).
- Users.Lookup: `findOneBy` does not fix an order. The model returns the matching row with the lowest id.
- Users.Upsert: the primary key and the personal-data row's own id are not modelled. A save with an explicit id moves the next id past it, which approximates the database sequence. The NOT NULL constraints of the personal-data table are not modelled.
- UserEntity.UserWhere: `firstName` and `lastName` are not columns of `user`, so these criteria are left out. `findOneBy` would reject them.
- UserEntity.Role: only `employee` and `admin` are modelled. Any other role string sent to `register` would also be refused with "Cannot register an admin".
- `getUsers` in the user service reads the whole table and is not used by the authentication core; it is not modelled.
- Request validation (class-validator), the session cookie and its expiry, dependency injection wiring, the menu scraper and its schedule are not modelled.
- DbTypes.ResolveDbType: TypeORM column types that are constructors (such as `String`) are not modelled; a type is a string.
