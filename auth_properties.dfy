/** What the authentication lifecycle guarantees: error conditions, what each step stores and
    sends, and the round trips between the steps. */
module AuthProperties {
  import opened Wrappers
  import opened UserEntity
  import opened Users
  import opened Mail
  import opened Bcrypt
  import opened AuthSpec

  predicate NoFaults(st: Store, mb: Mailbox)
  {
    st.readFault.None? && st.writeFault.None? && mb.fault.None?
  }

  /** No stored user has that email. */
  predicate EmailFree(st: Store, email: string)
  {
    forall k | k in st.rows :: st.rows[k].email != email
  }

  /** Row `k` is the lowest-id row matching `w`, the one a lookup returns. */
  predicate FirstHolder(st: Store, w: UserWhere, k: nat)
  {
    && k in st.rows && Matches(st.rows[k], w)
    && forall j | j in st.rows && j < k :: !Matches(st.rows[j], w)
  }

  /** Row `k` is the only one holding the reset token `t`. */
  predicate SoleResetHolder(st: Store, t: string, k: nat)
  {
    k in st.rows && forall j | j in st.rows && st.rows[j].resetToken == Some(t) :: j == k
  }

  // ---------------------------------------------------------------------------------------
  // Lookups

  lemma LookupFinds(st: Store, w: UserWhere, k: nat)
    requires Valid(st) && st.readFault.None? && FirstHolder(st, w, k)
    ensures Lookup(st, w) == Success(Some(st.rows[k]))
  {
    var r := Lookup(st, w);
    assert r.value.Some?;
    var i := r.value.value.id.value;
    assert !(i < k) && !(k < i);
  }

  /** Unique emails make the holder of an email the only match of a lookup by email. */
  lemma EmailHolder(st: Store, k: nat)
    requires Valid(st) && k in st.rows
    ensures FirstHolder(st, ByEmail(st.rows[k].email), k)
  {
    forall j | j in st.rows && j < k
      ensures !Matches(st.rows[j], ByEmail(st.rows[k].email))
    {
      MatchesOnlyGivenFields(st.rows[j], 0, st.rows[k].email, "");
    }
  }

  lemma LookupByEmail(st: Store, k: nat)
    requires Valid(st) && st.readFault.None? && k in st.rows
    ensures Lookup(st, ByEmail(st.rows[k].email)) == Success(Some(st.rows[k]))
  {
    EmailHolder(st, k);
    LookupFinds(st, ByEmail(st.rows[k].email), k);
  }

  lemma LookupFreeEmail(st: Store, email: string)
    requires Valid(st) && st.readFault.None? && EmailFree(st, email)
    ensures Lookup(st, ByEmail(email)) == Success(None)
  {
    forall k | k in st.rows ensures !Matches(st.rows[k], ByEmail(email)) {
      MatchesOnlyGivenFields(st.rows[k], 0, email, "");
    }
  }

  /** Saving a changed copy of a stored user under its own id, with the same email, replaces
      exactly that row. */
  lemma UpsertInPlace(st: Store, k: nat, u: User)
    requires Valid(st) && st.writeFault.None? && k in st.rows
    requires u.id == Some(k) && u.email == st.rows[k].email
    ensures Upsert(st, u) == (Success(u), st.(rows := st.rows[k := u]))
  {
    assert !EmailTaken(st.rows, u.email, k);
  }

  // ---------------------------------------------------------------------------------------
  // The email domain

  lemma {:induction false} SplitJoin(s: string, sep: char)
    ensures Join(Split(s, sep), sep) == s
    ensures forall i | 0 <= i < |Split(s, sep)| :: sep !in Split(s, sep)[i]
    decreases |s|
  {
    if s != [] {
      SplitJoin(s[1..], sep);
      var rest := Split(s[1..], sep);
      if s[0] != sep && |rest| > 1 {
        assert Join(rest, sep) == rest[0] + [sep] + Join(rest[1..], sep);
        assert Split(s, sep)[1..] == rest[1..];
      }
      if s[0] == sep {
        assert Split(s, sep)[1..] == rest;
      }
      assert s == [s[0]] + s[1..];
    }
  }

  lemma {:induction false} JoinSplit(parts: seq<string>, sep: char)
    requires |parts| >= 1
    requires forall i | 0 <= i < |parts| :: sep !in parts[i]
    ensures Split(Join(parts, sep), sep) == parts
    decreases |parts|, |parts[0]|
  {
    if |parts[0]| > 0 {
      var p0 := parts[0];
      var shorter := [p0[1..]] + parts[1..];
      assert forall i | 0 <= i < |shorter| :: sep !in shorter[i] by {
        forall i | 0 <= i < |shorter| ensures sep !in shorter[i] {
          if i == 0 {
            assert forall c | c in p0[1..] :: c in p0;
          } else {
            assert shorter[i] == parts[i];
          }
        }
      }
      JoinSplit(shorter, sep);
      var s := Join(parts, sep);
      assert shorter[1..] == parts[1..];
      if |parts| == 1 {
        assert s == p0 && Join(shorter, sep) == p0[1..];
      } else {
        assert s == p0 + [sep] + Join(parts[1..], sep);
        assert Join(shorter, sep) == p0[1..] + [sep] + Join(parts[1..], sep);
      }
      assert s[0] == p0[0] && s[1..] == Join(shorter, sep);
      assert p0 == [p0[0]] + p0[1..];
    } else if |parts| > 1 {
      JoinSplit(parts[1..], sep);
      var s := Join(parts, sep);
      assert s == [sep] + Join(parts[1..], sep);
      assert s[1..] == Join(parts[1..], sep);
      assert parts == [""] + parts[1..];
    } else {
      assert Join(parts, sep) == "";
    }
  }

  /** Without an `@` there is no domain. */
  lemma NoAtSignNoDomain(email: string)
    requires '@' !in email
    ensures EmailDomain(email).None? && !DomainAllowed(email)
  {
    JoinSplit([email], '@');
  }

  /** The domain is the segment after the first `@`, whatever follows a second `@`. */
  lemma EmailDomainOf(local: string, domain: string, rest: string)
    requires '@' !in local && '@' !in domain && '@' !in rest
    ensures EmailDomain(local + "@" + domain) == Some(domain)
    ensures EmailDomain(local + "@" + domain + "@" + rest) == Some(domain)
  {
    JoinSplit([local, domain], '@');
    assert Join([local, domain], '@') == local + "@" + domain by {
      assert Join([local, domain][1..], '@') == domain;
    }
    JoinSplit([local, domain, rest], '@');
    assert Join([local, domain, rest], '@') == local + "@" + domain + "@" + rest by {
      assert [local, domain, rest][1..] == [domain, rest];
      assert [domain, rest][1..] == [rest];
      assert Join([domain, rest], '@') == domain + "@" + rest;
    }
  }

  /** No allowlisted domain contains an `@`, and none is a proper prefix of another. */
  lemma AllowedDomainsShape()
    ensures forall d | d in AllowedDomains :: '@' !in d
    ensures forall a, b | a in AllowedDomains && b in AllowedDomains && |a| < |b| :: b[..|a|] != a
  {
    // "coalsoft.cz", "coalios.cz" and "coaledu.cz" already differ at index 4
    assert AllowedDomains[0][..10][4] == 's' && AllowedDomains[1][4] == 'i' && AllowedDomains[2][4] == 'e';
  }

  /** An address whose segment after the first `@` is allowlisted is accepted, whatever
      follows a further `@`. */
  lemma AllowedDomainAccepted(local: string, domain: string, rest: string)
    requires '@' !in local && '@' !in rest && domain in AllowedDomains
    ensures DomainAllowed(local + "@" + domain)
    ensures DomainAllowed(local + "@" + domain + "@" + rest)
  {
    AllowedDomainsShape();
    EmailDomainOf(local, domain, rest);
  }

  /** An address whose segment after the first `@` is not allowlisted is refused, whatever
      follows a further `@`. */
  lemma ForeignDomainRefused(local: string, domain: string, rest: string)
    requires '@' !in local && '@' !in domain && '@' !in rest && domain !in AllowedDomains
    ensures !DomainAllowed(local + "@" + domain)
    ensures !DomainAllowed(local + "@" + domain + "@" + rest)
  {
    EmailDomainOf(local, domain, rest);
  }

  /** Only the segment right after the first `@` is compared: a further `@` segment never
      changes the verdict. */
  lemma FurtherSegmentIgnored(local: string, domain: string, rest: string)
    requires '@' !in local && '@' !in domain && '@' !in rest
    ensures DomainAllowed(local + "@" + domain + "@" + rest) <==> DomainAllowed(local + "@" + domain)
  {
    EmailDomainOf(local, domain, rest);
  }

  /** A domain that merely starts with an allowlisted one is refused: the comparison is on
      the whole segment, not a prefix. */
  lemma LookAlikeDomainRefused(local: string, allowed: string, suffix: string)
    requires '@' !in local && '@' !in suffix && allowed in AllowedDomains && suffix != ""
    ensures !DomainAllowed(local + "@" + (allowed + suffix))
  {
    AllowedDomainsShape();
    var domain := allowed + suffix;
    assert '@' !in domain by {
      assert forall i | 0 <= i < |domain| :: domain[i] == (if i < |allowed| then allowed[i] else suffix[i - |allowed|]);
    }
    assert domain[..|allowed|] == allowed;
    ForeignDomainRefused(local, domain, "");
  }

  // ---------------------------------------------------------------------------------------
  // register

  lemma RegisterForeignDomain(st: Store, mb: Mailbox, cfg: Config, data: RegisterData, salt: Salt, now: nat)
    requires !DomainAllowed(data.email)
    ensures Register(st, mb, cfg, data, salt, now) == Effect(Failure(BadRequest(DomainNotAllowed)), st, mb)
  {
  }

  /** A used email is a conflict whatever the role asked for: the email check comes first. */
  lemma RegisterDuplicateEmail(st: Store, mb: Mailbox, cfg: Config, data: RegisterData, salt: Salt, now: nat, k: nat)
    requires Valid(st) && st.readFault.None? && DomainAllowed(data.email)
    requires k in st.rows && st.rows[k].email == data.email
    ensures Register(st, mb, cfg, data, salt, now) == Effect(Failure(Conflict(EmailAlreadyUsed)), st, mb)
  {
    LookupByEmail(st, k);
  }

  lemma RegisterAdminRefused(st: Store, mb: Mailbox, cfg: Config, data: RegisterData, salt: Salt, now: nat)
    requires Valid(st) && st.readFault.None? && DomainAllowed(data.email) && EmailFree(st, data.email)
    requires data.role == Admin
    ensures Register(st, mb, cfg, data, salt, now) == Effect(Failure(BadRequest(CannotRegisterAdmin)), st, mb)
  {
    LookupFreeEmail(st, data.email);
  }

  /** A successful registration stores exactly one new user under a fresh id, with the
      password hashed, no reset token and the flags as given, and sends one verification
      email carrying the stored token to that address. */
  lemma RegisterCreatesAccount(st: Store, mb: Mailbox, cfg: Config, data: RegisterData, salt: Salt, now: nat)
    requires Valid(st) && NoFaults(st, mb) && DomainAllowed(data.email) && EmailFree(st, data.email)
    requires data.role == Employee
    ensures var r := Register(st, mb, cfg, data, salt, now);
      var u := NewAccount(data, salt, now).(id := Some(st.nextId));
      && st.nextId !in st.rows
      && r.result == Success(u)
      && r.store == st.(rows := st.rows[st.nextId := u], nextId := st.nextId + 1)
      && |r.store.rows| == |st.rows| + 1
      && r.mail.outbox == mb.outbox + [VerificationMessage(cfg, data.email, u.verificationToken.value)]
      && u.email == data.email && Compare(data.password, u.password) && u.role == Employee
      && u.resetToken.None? && u.resetTokenExpires.None?
      && u.isVerified == data.isVerified && u.registeredViaExternal == data.registeredViaExternal
  {
    LookupFreeEmail(st, data.email);
    CompareHash(salt, data.password, data.password);
  }

  /** The user is saved before the email goes out: a failed save sends nothing. */
  lemma RegisterSaveFailureSendsNothing(st: Store, mb: Mailbox, cfg: Config, data: RegisterData, salt: Salt, now: nat)
    requires Valid(st) && st.readFault.None? && st.writeFault.Some?
    requires DomainAllowed(data.email) && EmailFree(st, data.email) && data.role == Employee
    ensures Register(st, mb, cfg, data, salt, now) == Effect(Failure(st.writeFault.value), st, mb)
  {
    LookupFreeEmail(st, data.email);
  }

  /** A failed delivery fails the registration, but the user stays stored. */
  lemma RegisterDeliveryFailureKeepsUser(st: Store, mb: Mailbox, cfg: Config, data: RegisterData, salt: Salt, now: nat)
    requires Valid(st) && st.readFault.None? && st.writeFault.None? && mb.fault.Some?
    requires DomainAllowed(data.email) && EmailFree(st, data.email) && data.role == Employee
    ensures var r := Register(st, mb, cfg, data, salt, now);
      && r.result == Failure(mb.fault.value) && r.mail == mb
      && r.store.rows == st.rows[st.nextId := NewAccount(data, salt, now).(id := Some(st.nextId))]
  {
    LookupFreeEmail(st, data.email);
  }

  /** Registering the same email twice: the second attempt is a conflict, and exactly one
      user holds the email. */
  lemma RegisterTwice(st: Store, mb: Mailbox, cfg: Config, data: RegisterData, again: RegisterData, salt: Salt, now: nat, salt': Salt, now': nat)
    requires Valid(st) && NoFaults(st, mb) && DomainAllowed(data.email) && EmailFree(st, data.email)
    requires data.role == Employee && again.email == data.email
    ensures var r := Register(st, mb, cfg, data, salt, now);
      var r' := Register(r.store, r.mail, cfg, again, salt', now');
      && r'.result == Failure(Conflict(EmailAlreadyUsed)) && r'.store == r.store && r'.mail == r.mail
      && forall k | k in r.store.rows && r.store.rows[k].email == data.email :: k == st.nextId
  {
    RegisterCreatesAccount(st, mb, cfg, data, salt, now);
    var r := Register(st, mb, cfg, data, salt, now);
    RegisterDuplicateEmail(r.store, r.mail, cfg, again, salt', now', st.nextId);
  }

  // ---------------------------------------------------------------------------------------
  // verifyEmail

  lemma VerifyUnknownToken(st: Store, token: string)
    requires Valid(st) && st.readFault.None?
    requires forall k | k in st.rows :: st.rows[k].verificationToken != Some(token)
    ensures VerifyEmail(st, token) == (Failure(NotFound(InvalidVerificationToken)), st)
  {
    forall k | k in st.rows ensures !Matches(st.rows[k], ByVerificationToken(token)) {
      MatchesOnlyGivenFields(st.rows[k], 0, "", token);
    }
  }

  /** The holder of the token becomes verified and the call answers `true`; nothing else
      changes. */
  lemma VerifyMarksVerified(st: Store, token: string, k: nat)
    requires Valid(st) && st.readFault.None? && st.writeFault.None?
    requires FirstHolder(st, ByVerificationToken(token), k) && !st.rows[k].isVerified
    ensures VerifyEmail(st, token) == (Success(true), st.(rows := st.rows[k := st.rows[k].(isVerified := true)]))
  {
    LookupFinds(st, ByVerificationToken(token), k);
    UpsertInPlace(st, k, st.rows[k].(isVerified := true));
  }

  lemma VerifyAlreadyVerified(st: Store, token: string, k: nat)
    requires Valid(st) && st.readFault.None?
    requires FirstHolder(st, ByVerificationToken(token), k) && st.rows[k].isVerified
    ensures VerifyEmail(st, token) == (Success(false), st)
  {
    LookupFinds(st, ByVerificationToken(token), k);
  }

  /** The token is not consumed: using it again answers `false` and changes nothing. */
  lemma VerifyTwice(st: Store, token: string, k: nat)
    requires Valid(st) && st.readFault.None? && st.writeFault.None?
    requires FirstHolder(st, ByVerificationToken(token), k)
    ensures var r := VerifyEmail(st, token);
      r.0.Success? && VerifyEmail(r.1, token) == (Success(false), r.1)
  {
    if st.rows[k].isVerified {
      VerifyAlreadyVerified(st, token, k);
    } else {
      VerifyMarksVerified(st, token, k);
      var st' := VerifyEmail(st, token).1;
      assert FirstHolder(st', ByVerificationToken(token), k);
      VerifyAlreadyVerified(st', token, k);
    }
  }

  // ---------------------------------------------------------------------------------------
  // validateUser

  lemma ValidateUnknownEmail(st: Store, email: string, password: string)
    requires Valid(st) && st.readFault.None? && EmailFree(st, email)
    ensures ValidateUser(st, email, password) == Failure(Unauthorized(EmailDoesNotExist))
  {
    LookupFreeEmail(st, email);
  }

  /** Login with a stored email: refused while unverified, refused on a wrong password,
      otherwise the stored user. */
  lemma ValidateStoredUser(st: Store, k: nat, password: string)
    requires Valid(st) && st.readFault.None? && k in st.rows
    ensures var u := st.rows[k];
      ValidateUser(st, u.email, password)
        == if !u.isVerified then Failure(Unauthorized(EmailNotVerified))
           else if !Compare(password, u.password) then Failure(Unauthorized(InvalidCredentials))
           else Success(u)
  {
    LookupByEmail(st, k);
  }

  // ---------------------------------------------------------------------------------------
  // sendResetEmail

  lemma SendResetUnknownEmail(st: Store, mb: Mailbox, cfg: Config, email: string, t: string, now: nat)
    requires Valid(st) && st.readFault.None? && EmailFree(st, email)
    ensures SendResetEmail(st, mb, cfg, email, t, now) == Effect(Failure(NotFound(UserNotFound)), st, mb)
  {
    LookupFreeEmail(st, email);
  }

  /** `sendResetEmail` once the lookup has found `u` and the save of the token has
      succeeded: the outcome is whatever the mail gateway answers. */
  lemma SendResetSteps(st: Store, mb: Mailbox, cfg: Config, email: string, t: string, now: nat, u: User, st': Store)
    requires Lookup(st, ByEmail(email)) == Success(Some(u))
    requires Upsert(st, u.(resetToken := Some(t), resetTokenExpires := Some(now + cfg.resetTokenExpiration))).1 == st'
    requires Upsert(st, u.(resetToken := Some(t), resetTokenExpires := Some(now + cfg.resetTokenExpiration))).0.Success?
    ensures var sent := Deliver(mb, ResetMessage(cfg, email, t));
      SendResetEmail(st, mb, cfg, email, t, now) == Effect(sent.0, st', sent.1)
  {
  }

  /** The fresh token and its expiry replace the previous ones, and the reset email goes to
      the address. */
  lemma SendResetIssuesToken(st: Store, mb: Mailbox, cfg: Config, t: string, now: nat, k: nat)
    requires Valid(st) && NoFaults(st, mb) && k in st.rows
    ensures var email := st.rows[k].email;
      SendResetEmail(st, mb, cfg, email, t, now)
        == Effect(Success(()),
                  st.(rows := st.rows[k := st.rows[k].(resetToken := Some(t), resetTokenExpires := Some(now + cfg.resetTokenExpiration))]),
                  mb.(outbox := mb.outbox + [ResetMessage(cfg, email, t)]))
  {
    var u := st.rows[k];
    var issued := u.(resetToken := Some(t), resetTokenExpires := Some(now + cfg.resetTokenExpiration));
    LookupByEmail(st, k);
    UpsertInPlace(st, k, issued);
    SendResetSteps(st, mb, cfg, u.email, t, now, u, st.(rows := st.rows[k := issued]));
  }

  /** The token is saved before the email is sent: a failed save sends nothing. */
  lemma SendResetSaveFailureSendsNothing(st: Store, mb: Mailbox, cfg: Config, t: string, now: nat, k: nat)
    requires Valid(st) && st.readFault.None? && st.writeFault.Some? && k in st.rows
    ensures SendResetEmail(st, mb, cfg, st.rows[k].email, t, now) == Effect(Failure(st.writeFault.value), st, mb)
  {
    LookupByEmail(st, k);
  }

  /** Issuing a token no one holds to the only holder of `t0` leaves `t0` unheld and makes
      that user the holder of the new token. */
  lemma TokenIssued(st: Store, k: nat, t0: string, t: string, expiry: Instant)
    requires Valid(st) && SoleResetHolder(st, t0, k) && t0 != t
    requires forall j | j in st.rows :: st.rows[j].resetToken != Some(t)
    ensures var st' := st.(rows := st.rows[k := st.rows[k].(resetToken := Some(t), resetTokenExpires := Some(expiry))]);
      && Valid(st')
      && (forall j | j in st'.rows :: st'.rows[j].resetToken != Some(t0))
      && FirstHolder(st', ByResetToken(t), k)
  {
    var st' := st.(rows := st.rows[k := st.rows[k].(resetToken := Some(t), resetTokenExpires := Some(expiry))]);
    forall j | j in st'.rows && j < k ensures !Matches(st'.rows[j], ByResetToken(t)) {
      MatchesOnlyGivenFields(st'.rows[j], 0, "", t);
    }
    MatchesOnlyGivenFields(st'.rows[k], 0, "", t);
  }

  /** In a store where no one holds `t0` and user `k` is the first holder of `t`, expiring at
      `expiry`, `t0` is refused and `t` works until it expires. */
  lemma ResetWithReplacedToken(st: Store, k: nat, t0: string, t: string, expiry: Instant, body: string, salt: Salt, later: nat)
    requires Valid(st) && st.readFault.None? && st.writeFault.None?
    requires forall j | j in st.rows :: st.rows[j].resetToken != Some(t0)
    requires FirstHolder(st, ByResetToken(t), k) && st.rows[k].resetTokenExpires == Some(expiry)
    ensures ResetForgottenPassword(st, ForgottenPasswordBody(t0, body), salt, later).0 == Failure(Unauthorized(InvalidResetToken))
    ensures later <= expiry ==> ResetForgottenPassword(st, ForgottenPasswordBody(t, body), salt, later).0 == Success(true)
    ensures later > expiry ==> ResetForgottenPassword(st, ForgottenPasswordBody(t, body), salt, later).0 == Failure(Unauthorized(ResetTokenExpired))
  {
    ResetUnknownToken(st, ForgottenPasswordBody(t0, body), salt, later);
    if later <= expiry {
      ResetAccepted(st, ForgottenPasswordBody(t, body), salt, later, k);
    } else {
      ResetExpiredToken(st, ForgottenPasswordBody(t, body), salt, later, k);
    }
  }

  /** After a new reset email the previous token no longer works and the new one does until
      it expires. */
  lemma SendResetReplacesToken(st: Store, mb: Mailbox, cfg: Config, t: string, now: nat, k: nat, t0: string, body: string, salt: Salt, later: nat)
    requires Valid(st) && NoFaults(st, mb) && k in st.rows
    requires SoleResetHolder(st, t0, k) && t0 != t
    requires forall j | j in st.rows :: st.rows[j].resetToken != Some(t)
    ensures var st' := SendResetEmail(st, mb, cfg, st.rows[k].email, t, now).store;
      && ResetForgottenPassword(st', ForgottenPasswordBody(t0, body), salt, later).0 == Failure(Unauthorized(InvalidResetToken))
      && (later <= now + cfg.resetTokenExpiration ==> ResetForgottenPassword(st', ForgottenPasswordBody(t, body), salt, later).0 == Success(true))
      && (later > now + cfg.resetTokenExpiration ==> ResetForgottenPassword(st', ForgottenPasswordBody(t, body), salt, later).0 == Failure(Unauthorized(ResetTokenExpired)))
  {
    var expiry := now + cfg.resetTokenExpiration;
    SendResetIssuesToken(st, mb, cfg, t, now, k);
    TokenIssued(st, k, t0, t, expiry);
    var st' := st.(rows := st.rows[k := st.rows[k].(resetToken := Some(t), resetTokenExpires := Some(expiry))]);
    assert SendResetEmail(st, mb, cfg, st.rows[k].email, t, now).store == st';
    ResetWithReplacedToken(st', k, t0, t, expiry, body, salt, later);
  }

  // ---------------------------------------------------------------------------------------
  // resetForgottenPassword

  lemma ResetUnknownToken(st: Store, body: ForgottenPasswordBody, salt: Salt, now: nat)
    requires Valid(st) && st.readFault.None?
    requires forall k | k in st.rows :: st.rows[k].resetToken != Some(body.token)
    ensures ResetForgottenPassword(st, body, salt, now) == (Failure(Unauthorized(InvalidResetToken)), st)
  {
    forall k | k in st.rows ensures !Matches(st.rows[k], ByResetToken(body.token)) {
      MatchesOnlyGivenFields(st.rows[k], 0, "", body.token);
    }
  }

  /** An expiry strictly before now refuses the reset and leaves the password as it was. */
  lemma ResetExpiredToken(st: Store, body: ForgottenPasswordBody, salt: Salt, now: nat, k: nat)
    requires Valid(st) && st.readFault.None?
    requires FirstHolder(st, ByResetToken(body.token), k)
    requires st.rows[k].resetTokenExpires.Some? && st.rows[k].resetTokenExpires.value < now
    ensures ResetForgottenPassword(st, body, salt, now) == (Failure(Unauthorized(ResetTokenExpired)), st)
  {
    LookupFinds(st, ByResetToken(body.token), k);
  }

  /** A token without expiry, or one expiring now or later, sets the new password and clears
      token and expiry. */
  lemma ResetAccepted(st: Store, body: ForgottenPasswordBody, salt: Salt, now: nat, k: nat)
    requires Valid(st) && st.readFault.None? && st.writeFault.None?
    requires FirstHolder(st, ByResetToken(body.token), k)
    requires st.rows[k].resetTokenExpires.None? || now <= st.rows[k].resetTokenExpires.value
    ensures ResetForgottenPassword(st, body, salt, now)
         == (Success(true), st.(rows := st.rows[k := WithNewPassword(st.rows[k], body.password, salt)]))
  {
    LookupFinds(st, ByResetToken(body.token), k);
    UpsertInPlace(st, k, WithNewPassword(st.rows[k], body.password, salt));
  }

  /** A reset token works once: after a reset the same token is unknown. */
  lemma ResetSingleUse(st: Store, body: ForgottenPasswordBody, again: string, salt: Salt, salt': Salt, now: nat, now': nat, k: nat)
    requires Valid(st) && st.readFault.None? && st.writeFault.None?
    requires SoleResetHolder(st, body.token, k) && st.rows[k].resetToken == Some(body.token)
    requires st.rows[k].resetTokenExpires.None? || now <= st.rows[k].resetTokenExpires.value
    ensures var st' := ResetForgottenPassword(st, body, salt, now).1;
      ResetForgottenPassword(st', ForgottenPasswordBody(body.token, again), salt', now') == (Failure(Unauthorized(InvalidResetToken)), st')
  {
    MatchesOnlyGivenFields(st.rows[k], 0, "", body.token);
    forall j | j in st.rows && j < k ensures !Matches(st.rows[j], ByResetToken(body.token)) {
      MatchesOnlyGivenFields(st.rows[j], 0, "", body.token);
    }
    ResetAccepted(st, body, salt, now, k);
    var st' := ResetForgottenPassword(st, body, salt, now).1;
    ResetUnknownToken(st', ForgottenPasswordBody(body.token, again), salt', now');
  }

  /** After a reset the new password logs in and any other does not. */
  lemma ResetNewPasswordLogsIn(st: Store, body: ForgottenPasswordBody, salt: Salt, now: nat, k: nat, other: string)
    requires Valid(st) && st.readFault.None? && st.writeFault.None?
    requires FirstHolder(st, ByResetToken(body.token), k) && st.rows[k].isVerified
    requires st.rows[k].resetTokenExpires.None? || now <= st.rows[k].resetTokenExpires.value
    requires other != body.password
    ensures var st' := ResetForgottenPassword(st, body, salt, now).1;
      && ValidateUser(st', st.rows[k].email, body.password) == Success(st'.rows[k])
      && ValidateUser(st', st.rows[k].email, other) == Failure(Unauthorized(InvalidCredentials))
  {
    ResetAccepted(st, body, salt, now, k);
    var st' := ResetForgottenPassword(st, body, salt, now).1;
    ValidateStoredUser(st', k, body.password);
    ValidateStoredUser(st', k, other);
    CompareHash(salt, body.password, other);
  }

  // ---------------------------------------------------------------------------------------
  // updatePasswordSigned

  lemma SignedWithoutUser(st: Store, oldPassword: string, newPassword: string, salt: Salt)
    ensures UpdatePasswordSigned(st, None, oldPassword, newPassword, salt) == (Failure(Unauthorized(DefaultUnauthorized)), st)
  {
  }

  lemma SignedWrongOldPassword(st: Store, u: User, oldPassword: string, newPassword: string, salt: Salt)
    requires !Compare(oldPassword, u.password)
    ensures UpdatePasswordSigned(st, Some(u), oldPassword, newPassword, salt) == (Failure(BadRequest(DefaultBadRequest)), st)
  {
  }

  /** With the right old password the session's copy of the user is saved under its id with
      the new password hash and no reset token; afterwards the new password logs in (for a
      verified user) and the old one does not. */
  lemma SignedChangesPassword(st: Store, u: User, oldPassword: string, newPassword: string, salt: Salt, k: nat)
    requires Valid(st) && st.readFault.None? && st.writeFault.None?
    requires k in st.rows && u.id == Some(k) && u.email == st.rows[k].email
    requires Compare(oldPassword, u.password)
    ensures var r := UpdatePasswordSigned(st, Some(u), oldPassword, newPassword, salt);
      && r == (Success(true), st.(rows := st.rows[k := WithNewPassword(u, newPassword, salt)]))
      && (u.isVerified ==> ValidateUser(r.1, u.email, newPassword) == Success(WithNewPassword(u, newPassword, salt)))
      && (oldPassword != newPassword ==> ValidateUser(r.1, u.email, oldPassword).Failure?)
  {
    var w := WithNewPassword(u, newPassword, salt);
    UpsertInPlace(st, k, w);
    var st' := st.(rows := st.rows[k := w]);
    ValidateStoredUser(st', k, newPassword);
    ValidateStoredUser(st', k, oldPassword);
    CompareHash(salt, newPassword, oldPassword);
  }

  // ---------------------------------------------------------------------------------------
  // Identity providers

  /** A known email signs in as the stored user; nothing is saved or sent. */
  lemma ExternalKnownUser(st: Store, mb: Mailbox, cfg: Config, p: OAuthProfile, pw: string, salt: Salt, now: nat, k: nat)
    requires Valid(st) && st.readFault.None? && k in st.rows && st.rows[k].email == p.email
    ensures ValidateGoogleUser(st, mb, cfg, p, pw, salt, now) == Effect(Success(st.rows[k]), st, mb)
    ensures ValidateFacebookUser(st, mb, cfg, p, pw, salt, now) == Effect(Success(st.rows[k]), st, mb)
  {
    LookupByEmail(st, k);
  }

  /** An unknown email is registered from the provider's profile with the given date of
      birth: a verified, externally registered employee with the random password, the
      profile's names and photo and no reset token, stored under the next id, with one
      verification email to the address. */
  lemma ExternalProvisioned(st: Store, mb: Mailbox, cfg: Config, p: OAuthProfile, dateOfBirth: Option<string>, pw: string, salt: Salt, now: nat)
    requires Valid(st) && NoFaults(st, mb) && EmailFree(st, p.email) && DomainAllowed(p.email)
    ensures var data := ExternalRegistration(p, dateOfBirth, pw);
      var r := FindOrProvision(st, mb, cfg, data, salt, now);
      && r == Register(st, mb, cfg, data, salt, now)
      && r.result.Success?
      && var u := r.result.value;
      && u.id == Some(st.nextId)
      && u.email == p.email && u.role == Employee && u.isVerified && u.registeredViaExternal
      && u.resetToken.None? && u.resetTokenExpires.None? && Compare(pw, u.password)
      && u.photo == Some(p.photo) && u.data == Some(PersonalData(Some(p.givenName), Some(p.familyName), dateOfBirth, None))
      && r.store.rows == st.rows[st.nextId := u]
      && r.mail.outbox == mb.outbox + [VerificationMessage(cfg, p.email, u.verificationToken.value)]
  {
    LookupFreeEmail(st, p.email);
    RegisterCreatesAccount(st, mb, cfg, ExternalRegistration(p, dateOfBirth, pw), salt, now);
  }

  /** A first login through Google registers without a date of birth; one through Facebook
      takes the profile's birthday. */
  lemma ExternalNewUser(st: Store, mb: Mailbox, cfg: Config, p: OAuthProfile, pw: string, salt: Salt, now: nat)
    requires Valid(st) && NoFaults(st, mb) && EmailFree(st, p.email) && DomainAllowed(p.email)
    ensures ValidateGoogleUser(st, mb, cfg, p, pw, salt, now)
         == FindOrProvision(st, mb, cfg, ExternalRegistration(p, None, pw), salt, now)
    ensures ValidateFacebookUser(st, mb, cfg, p, pw, salt, now)
         == FindOrProvision(st, mb, cfg, ExternalRegistration(p, p.birthday, pw), salt, now)
    ensures var g := ValidateGoogleUser(st, mb, cfg, p, pw, salt, now);
      g.result.Success? && g.result.value.data.value.dateOfBirth.None?
    ensures var f := ValidateFacebookUser(st, mb, cfg, p, pw, salt, now);
      f.result.Success? && f.result.value.data.value.dateOfBirth == p.birthday
  {
    ExternalProvisioned(st, mb, cfg, p, None, pw, salt, now);
    ExternalProvisioned(st, mb, cfg, p, p.birthday, pw, salt, now);
  }

  /** An identity-provider account whose email is outside the allowlist cannot sign in. */
  lemma ExternalForeignDomain(st: Store, mb: Mailbox, cfg: Config, p: OAuthProfile, pw: string, salt: Salt, now: nat)
    requires Valid(st) && st.readFault.None? && EmailFree(st, p.email) && !DomainAllowed(p.email)
    ensures ValidateGoogleUser(st, mb, cfg, p, pw, salt, now) == Effect(Failure(BadRequest(DomainNotAllowed)), st, mb)
    ensures ValidateFacebookUser(st, mb, cfg, p, pw, salt, now) == Effect(Failure(BadRequest(DomainNotAllowed)), st, mb)
  {
    LookupFreeEmail(st, p.email);
  }
}
