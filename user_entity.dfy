/** The `user` table row, its owned personal-data record, and the lookup criteria. */
module UserEntity {
  import opened Wrappers

  datatype Role = Employee | Admin

  /** The owned 1:1 personal-data record, saved together with its user. A record made with
      `new PersonalDataEntity()` holds no field at all, hence every field is optional. */
  datatype PersonalData = PersonalData(
    firstName: Option<string>,
    lastName: Option<string>,
    dateOfBirth: Option<string>,
    sex: Option<string>)

  const EmptyPersonalData := PersonalData(None, None, None, None)

  /** Instants are milliseconds since the epoch, as `Date.getTime()` gives them. */
  type Instant = int

  /** A user. `id` is absent until the store assigns one. The tokens, their expiry, the photo
      and the personal data are nullable columns. */
  datatype User = User(
    id: Option<nat>,
    email: string,
    password: string,
    photo: Option<string>,
    role: Role,
    verificationToken: Option<string>,
    isVerified: bool,
    resetToken: Option<string>,
    resetTokenExpires: Option<Instant>,
    registeredViaExternal: bool,
    data: Option<PersonalData>)

  /** Column defaults of `role`, `isVerified` and `registeredViaExternal`, used when an
      insert leaves the column out. */
  const DefaultRole := Employee
  const DefaultIsVerified := false
  const DefaultRegisteredViaExternal := false

  /** Lookup criteria: every field is optional and only the given ones take part. */
  datatype UserWhere = UserWhere(
    id: Option<nat>,
    email: Option<string>,
    role: Option<Role>,
    verificationToken: Option<string>,
    isVerified: Option<bool>,
    resetToken: Option<string>,
    resetTokenExpires: Option<Instant>,
    registeredViaExternal: Option<bool>)

  const AnyUser := UserWhere(None, None, None, None, None, None, None, None)

  function ById(id: nat): UserWhere { AnyUser.(id := Some(id)) }
  function ByEmail(email: string): UserWhere { AnyUser.(email := Some(email)) }
  function ByVerificationToken(token: string): UserWhere { AnyUser.(verificationToken := Some(token)) }
  function ByResetToken(token: string): UserWhere { AnyUser.(resetToken := Some(token)) }

  /** A given criterion on a plain column matches when the column holds that value. */
  predicate Given<T(==)>(c: Option<T>, v: T)
  {
    c.None? || c.value == v
  }

  /** A given criterion on a nullable column never matches NULL. */
  predicate GivenNullable<T(==)>(c: Option<T>, v: Option<T>)
  {
    c.None? || v == Some(c.value)
  }

  /** The user satisfies every criterion that `w` gives. */
  predicate Matches(u: User, w: UserWhere)
  {
    && GivenNullable(w.id, u.id)
    && Given(w.email, u.email)
    && Given(w.role, u.role)
    && GivenNullable(w.verificationToken, u.verificationToken)
    && Given(w.isVerified, u.isVerified)
    && GivenNullable(w.resetToken, u.resetToken)
    && GivenNullable(w.resetTokenExpires, u.resetTokenExpires)
    && Given(w.registeredViaExternal, u.registeredViaExternal)
  }

  /** Criteria that give nothing match every user; a single-field criterion matches exactly
      the users holding that value. */
  lemma MatchesOnlyGivenFields(u: User, id: nat, email: string, token: string)
    ensures Matches(u, AnyUser)
    ensures Matches(u, ById(id)) <==> u.id == Some(id)
    ensures Matches(u, ByEmail(email)) <==> u.email == email
    ensures Matches(u, ByVerificationToken(token)) <==> u.verificationToken == Some(token)
    ensures Matches(u, ByResetToken(token)) <==> u.resetToken == Some(token)
  {
  }
}
