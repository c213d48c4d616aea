/**
 * Properties of the user document's credential lifecycle: what a save does
 * to the password fields, when a token is judged stale, and what reset-token
 * issuance leaves behind.
 */
module UserModelProperties {
  import opened Wrappers
  import opened Hex
  import opened Primitives
  import opened UserModel

  // ---------------------------------------------------------------------
  // Saving
  // ---------------------------------------------------------------------

  /** Both hooks return early when the password is not modified: nothing changes. */
  lemma UnmodifiedSaveChangesNothing(u: User, b: Bcrypt, salt: string, now: int)
    requires !u.passwordModified
    ensures PreSaved(u, b, salt, now) == Ok(u)
  {
  }

  /**
   * A save of a modified password stores its cost-12 hash and drops the
   * confirmation; no path other than the three credential paths changes.
   */
  lemma PasswordSaveHashesAndDropsConfirm(u: User, b: Bcrypt, salt: string, now: int)
    requires u.passwordModified && u.password.Some?
    ensures PreSaved(u, b, salt, now).Ok?
    ensures var v := PreSaved(u, b, salt, now).value;
            && v.password == Some(b.hash(u.password.value, BcryptCost, salt))
            && v.passwordConfirm == None
            && v.(password := u.password, passwordConfirm := u.passwordConfirm,
                  passwordChangedAt := u.passwordChangedAt) == u
  {
  }

  /** bcrypt refuses an undefined password, and the refusal stops the save. */
  lemma UndefinedPasswordSaveFails(u: User, b: Bcrypt, salt: string, now: int)
    requires u.passwordModified && u.password.None?
    ensures PreSaved(u, b, salt, now) == Err(HashFailed)
  {
  }

  /** The change timestamp is set to now - 1000 exactly when a stored document's password changes. */
  lemma ChangeStampOnlyForStoredDocuments(u: User, b: Bcrypt, salt: string, now: int)
    requires PreSaved(u, b, salt, now).Ok?
    ensures PreSaved(u, b, salt, now).value.passwordChangedAt ==
            if u.passwordModified && !u.isNew then Some(now - BackdateMs) else u.passwordChangedAt
  {
  }

  /**
   * A save that goes through with a modified password stored the hash of a
   * plaintext that had passed validation: long enough and equal to its
   * confirmation, which is gone afterwards.
   */
  lemma SavedPasswordWasConfirmed(u: User, b: Bcrypt, salt: string, now: int, isEmail: string -> bool)
    requires u.passwordModified
    requires Saved(u, b, salt, now, isEmail).Ok?
    ensures u.password.Some? && u.passwordConfirm == u.password
    ensures |u.password.value| >= PasswordMinLength
    ensures Saved(u, b, salt, now, isEmail).value.password == Some(b.hash(u.password.value, BcryptCost, salt))
    ensures Saved(u, b, salt, now, isEmail).value.passwordConfirm == None
  {
  }

  /** After a password save, `correctPassword` accepts the plaintext against the stored hash. */
  lemma SavedPasswordIsAccepted(u: User, b: Bcrypt, salt: string, now: int, isEmail: string -> bool)
    requires Consistent(b)
    requires u.passwordModified
    requires Saved(u, b, salt, now, isEmail).Ok?
    ensures u.password.Some?
    ensures var stored := Saved(u, b, salt, now, isEmail).value.password;
            stored.Some? && CorrectPassword(b, u.password.value, stored.value)
  {
    SavedPasswordWasConfirmed(u, b, salt, now, isEmail);
  }

  /**
   * Validation passes exactly when every path is acceptable; in particular
   * the confirmation must equal the password and the role be one of the four.
   */
  lemma ValidationAcceptsExactly(u: User, isEmail: string -> bool)
    ensures Violations(u, isEmail) == {} <==>
            && Present(u.name)
            && Present(u.email) && isEmail(u.email.value)
            && u.role in {"user", "guide", "lead-guide", "admin"}
            && Present(u.password) && |u.password.value| >= 8
            && Present(u.passwordConfirm) && u.passwordConfirm == u.password
  {
  }

  /** The confirmation validator fails exactly when a non-empty confirmation differs from the password. */
  lemma ConfirmMismatchReported(u: User, isEmail: string -> bool)
    ensures ConfirmMismatch in Violations(u, isEmail) <==> Present(u.passwordConfirm) && u.passwordConfirm != u.password
  {
  }

  // ---------------------------------------------------------------------
  // New records carry no change timestamp
  // ---------------------------------------------------------------------

  /** A document not yet stored has no password-change timestamp. */
  ghost predicate NewRecordUnstamped(u: User) {
    u.isNew ==> u.passwordChangedAt.None?
  }

  lemma NewUserUnstamped(name: Option<string>, email: Option<string>, photo: Option<string>,
                         role: Option<string>, password: Option<string>, passwordConfirm: Option<string>)
    ensures NewRecordUnstamped(NewUser(name, email, photo, role, password, passwordConfirm))
    ensures NewUser(name, email, photo, role, password, passwordConfirm).isNew
  {
  }

  /** The hooks keep the invariant: a new document is never stamped. */
  lemma PreSavePreservesUnstamped(u: User, b: Bcrypt, salt: string, now: int)
    requires NewRecordUnstamped(u)
    requires PreSaved(u, b, salt, now).Ok?
    ensures NewRecordUnstamped(PreSaved(u, b, salt, now).value)
  {
  }

  lemma ResetTokenPreservesUnstamped(u: User, sha256: string -> string, token: string, now: int)
    requires NewRecordUnstamped(u)
    ensures NewRecordUnstamped(WithResetToken(u, sha256, token, now))
  {
  }

  /** No token is ever judged stale against a freshly registered user. */
  lemma RegisteredUserNeverStale(name: Option<string>, email: Option<string>, photo: Option<string>,
                                 role: Option<string>, password: Option<string>,
                                 passwordConfirm: Option<string>, b: Bcrypt, salt: string, now: int,
                                 isEmail: string -> bool, jwtTimestamp: int)
    requires Saved(NewUser(name, email, photo, role, password, passwordConfirm), b, salt, now, isEmail).Ok?
    ensures !ChangePasswordAfter(Saved(NewUser(name, email, photo, role, password, passwordConfirm),
                                       b, salt, now, isEmail).value, jwtTimestamp)
  {
    var u := NewUser(name, email, photo, role, password, passwordConfirm);
    NewUserUnstamped(name, email, photo, role, password, passwordConfirm);
    PreSavePreservesUnstamped(u, b, salt, now);
  }

  // ---------------------------------------------------------------------
  // Staleness
  // ---------------------------------------------------------------------

  /** Without a change timestamp no token is stale. */
  lemma NeverStaleWithoutChange(u: User, jwtTimestamp: int)
    requires u.passwordChangedAt.None?
    ensures !ChangePasswordAfter(u, jwtTimestamp)
  {
  }

  /** Staleness is monotone: a token older than a stale one is stale too. */
  lemma StaleIsMonotone(u: User, t: int, earlier: int)
    requires earlier <= t
    requires ChangePasswordAfter(u, t)
    ensures ChangePasswordAfter(u, earlier)
  {
  }

  /** Truncation to whole seconds is monotone. */
  lemma TruncSecondsMonotone(a: int, b: int)
    requires a <= b
    ensures TruncSeconds(a) <= TruncSeconds(b)
  {
  }

  /**
   * What the back-dating buys: after a stored document's password is saved at
   * `now`, a token issued at any moment from one second before the save
   * onwards (`issuedMs`, truncated to seconds as a JWT `iat` is) is not stale.
   * Without the 1000 ms a token from the second before the save would be.
   */
  lemma TokenWithinSkewNotStale(u: User, b: Bcrypt, salt: string, now: int, issuedMs: int)
    requires u.passwordModified && !u.isNew && u.password.Some?
    requires issuedMs >= now - BackdateMs
    ensures PreSaved(u, b, salt, now).Ok?
    ensures !ChangePasswordAfter(PreSaved(u, b, salt, now).value, TruncSeconds(issuedMs))
  {
    TruncSecondsMonotone(now - BackdateMs, issuedMs);
  }

  /**
   * A corollary: a token issued in the second of the save, or later, is not
   * stale. This alone would hold without any back-dating.
   */
  lemma TokenIssuedAtSaveNotStale(u: User, b: Bcrypt, salt: string, now: int, jwtTimestamp: int)
    requires u.passwordModified && !u.isNew && u.password.Some?
    requires jwtTimestamp >= TruncSeconds(now)
    ensures PreSaved(u, b, salt, now).Ok?
    ensures !ChangePasswordAfter(PreSaved(u, b, salt, now).value, jwtTimestamp)
  {
    TruncSecondsMonotone(now - BackdateMs, now);
  }

  /**
   * The exact window: for a change saved at `now` (after the first second of
   * the epoch), a token is stale exactly when it was issued more than one
   * whole second before the second of the save. Tokens from the second just
   * before are still accepted.
   */
  lemma StaleWindowAfterChange(u: User, b: Bcrypt, salt: string, now: int, jwtTimestamp: int)
    requires u.passwordModified && !u.isNew && u.password.Some?
    requires now >= 1000
    ensures PreSaved(u, b, salt, now).Ok?
    ensures ChangePasswordAfter(PreSaved(u, b, salt, now).value, jwtTimestamp) <==> jwtTimestamp < now / 1000 - 1
  {
    assert TruncSeconds(now - BackdateMs) == now / 1000 - 1;
  }

  // ---------------------------------------------------------------------
  // Reset tokens
  // ---------------------------------------------------------------------

  /**
   * Issuance hands out 64 lower-case hex digits, stores only their digest
   * with an expiry ten minutes on, and changes no other path.
   */
  lemma ResetTokenIssued(u: User, sha256: string -> string, random: seq<byte>, now: int)
    requires |random| == ResetTokenBytes
    ensures var token := Encode(random);
            && |token| == 64 && IsHexText(token)
            && WithResetToken(u, sha256, token, now).passwordResetToken == Some(sha256(token))
            && WithResetToken(u, sha256, token, now).passwordResetExpires == Some(now + 600000)
            && WithResetToken(u, sha256, token, now).(passwordResetToken := u.passwordResetToken,
                                                      passwordResetExpires := u.passwordResetExpires) == u
  {
  }

  /** The issued token is accepted by the stored fields until, and only until, ten minutes have passed. */
  lemma ResetTokenRedeemableForTenMinutes(u: User, sha256: string -> string, random: seq<byte>,
                                          issuedAt: int, t: int)
    requires |random| == ResetTokenBytes
    ensures ResetTokenAccepted(WithResetToken(u, sha256, Encode(random), issuedAt), sha256, Encode(random), t)
            <==> t < issuedAt + ResetTokenLifetimeMs
  {
  }

  // ---------------------------------------------------------------------
  // The active filter
  // ---------------------------------------------------------------------

  /** Documents whose `active` is true or unset are kept; only `false` hides one. */
  lemma FilterKeepsAllButInactive(u: User)
    ensures MatchesActiveFilter(u) <==> (u.active == Some(true) || u.active == None)
  {
    if u.active.Some? {
      assert u.active.value || u.active == Some(false);
    }
  }

  /** Applying the filter twice is the same as applying it once. */
  lemma {:induction false} FindActiveIdempotent(docs: seq<User>)
    ensures FindActive(FindActive(docs)) == FindActive(docs)
  {
    if docs != [] {
      FindActiveIdempotent(docs[1..]);
      var rest := FindActive(docs[1..]);
      if MatchesActiveFilter(docs[0]) {
        assert FindActive(docs) == [docs[0]] + rest;
        assert ([docs[0]] + rest)[1..] == rest;
      } else {
        assert FindActive(docs) == rest;
      }
    }
  }
}
