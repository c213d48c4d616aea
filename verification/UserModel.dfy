/**
 * The user document of the tour-booking service: its schema defaults and
 * validators, the two pre-save hooks that look after the password, the
 * default filter that hides deactivated users, the token-staleness check
 * and reset-token issuance.
 *
 * Each step is first given as a function from document state to document
 * state (the specification), and the class `UserDocument` then performs the
 * same steps in place on its fields, proved equal to those functions.
 * Times are integer milliseconds supplied by the caller; JWT timestamps are
 * integer seconds.
 */
module UserModel {
  import opened Wrappers
  import opened Hex
  import opened Primitives

  /** Cost factor passed to bcrypt when a password is stored. */
  const BcryptCost: nat := 12
  /** `minlength` of the password path. */
  const PasswordMinLength: nat := 8
  /** How far the change timestamp is set back, so a token issued at save time is not stale. */
  const BackdateMs: int := 1000
  /** Number of random bytes behind a reset token. */
  const ResetTokenBytes: nat := 32
  /** A reset token expires ten minutes after it is issued. */
  const ResetTokenLifetimeMs: int := 10 * 60 * 1000
  /** The `enum` of the role path. */
  const Roles: seq<string> := ["user", "guide", "lead-guide", "admin"]
  const DefaultRole: string := "user"
  const DefaultPhoto: string := "default.jpg"

  /**
   * The state of one user document. Optional paths are `None` when
   * undefined. `isNew` is Mongoose's flag for a document not yet stored;
   * `passwordModified` is `isModified('password')`.
   */
  datatype User = User(
    name: Option<string>,
    email: Option<string>,
    photo: string,
    role: string,
    password: Option<string>,
    passwordConfirm: Option<string>,
    passwordChangedAt: Option<int>,
    passwordResetToken: Option<string>,
    passwordResetExpires: Option<int>,
    active: Option<bool>,
    isNew: bool,
    passwordModified: bool)

  /**
   * A document built from the fields a client supplies, with the schema's
   * defaults for photo, role and active. Every path set on a new document
   * counts as modified.
   */
  function NewUser(name: Option<string>, email: Option<string>, photo: Option<string>,
                   role: Option<string>, password: Option<string>, passwordConfirm: Option<string>): User
  {
    User(name, email, photo.GetOr(DefaultPhoto), role.GetOr(DefaultRole), password, passwordConfirm,
         None, None, None, Some(true), true, password.Some?)
  }

  // ---------------------------------------------------------------------
  // Validators
  // ---------------------------------------------------------------------

  /** Mongoose's `required` check on a String path: set and not the empty string. */
  predicate Present(s: Option<string>) {
    s.Some? && |s.value| > 0
  }

  /** The custom validator of `passwordConfirm`: `el === this.password`. */
  predicate ConfirmValidator(el: string, password: Option<string>) {
    password == Some(el)
  }

  /** The `enum` validator of `role`. */
  predicate RoleAllowed(role: string) {
    role in Roles
  }

  /** The `minlength` validator of `password`. */
  predicate LongEnough(password: string) {
    |password| >= PasswordMinLength
  }

  /** The first validator that fails on a path; a path reports at most one. */
  datatype Violation =
    | NameRequired
    | EmailRequired | EmailInvalid
    | RoleNotAllowed
    | PasswordRequired | PasswordTooShort
    | ConfirmRequired | ConfirmMismatch

  /**
   * Validation as run before the pre-save hooks. On each path `required`
   * runs first; the other validators are skipped when the value is
   * undefined. `isEmail` is the uninterpreted `validator.isEmail`.
   */
  function Violations(u: User, isEmail: string -> bool): set<Violation>
  {
    (if Present(u.name) then {} else {NameRequired})
    + (if !Present(u.email) then {EmailRequired}
       else if isEmail(u.email.value) then {} else {EmailInvalid})
    + (if RoleAllowed(u.role) then {} else {RoleNotAllowed})
    + (if !Present(u.password) then {PasswordRequired}
       else if LongEnough(u.password.value) then {} else {PasswordTooShort})
    + (if !Present(u.passwordConfirm) then {ConfirmRequired}
       else if ConfirmValidator(u.passwordConfirm.value, u.password) then {} else {ConfirmMismatch})
  }

  // ---------------------------------------------------------------------
  // Saving
  // ---------------------------------------------------------------------

  /** Why a save is refused: failed validation, or bcrypt rejecting an undefined password. */
  datatype SaveError = Invalid(violations: set<Violation>) | HashFailed

  /** First pre-save hook: hash a modified password and drop the confirmation. */
  function Hashed(u: User, b: Bcrypt, salt: string): Result<User, SaveError>
  {
    if !u.passwordModified then Ok(u)
    else if u.password.None? then Err(HashFailed)
    else Ok(u.(password := Some(b.hash(u.password.value, BcryptCost, salt)), passwordConfirm := None))
  }

  /** Second pre-save hook: a password changed on a stored document is stamped one second early. */
  function Stamped(u: User, now: int): User
  {
    if !u.passwordModified || u.isNew then u
    else u.(passwordChangedAt := Some(now - BackdateMs))
  }

  /** The two pre-save hooks in declaration order; the second runs only if the first succeeds. */
  function PreSaved(u: User, b: Bcrypt, salt: string, now: int): Result<User, SaveError>
  {
    match Hashed(u, b, salt)
    case Ok(h) => Ok(Stamped(h, now))
    case Err(e) => Err(e)
  }

  /** A save: validation first, then the hooks. */
  function Saved(u: User, b: Bcrypt, salt: string, now: int, isEmail: string -> bool): Result<User, SaveError>
  {
    var v := Violations(u, isEmail);
    if v != {} then Err(Invalid(v)) else PreSaved(u, b, salt, now)
  }

  // ---------------------------------------------------------------------
  // Queries and instance methods
  // ---------------------------------------------------------------------

  /** The condition `{ active: { $ne: false } }` added to every find query. */
  predicate MatchesActiveFilter(u: User) {
    u.active != Some(false)
  }

  /** A find over a collection, as narrowed by the query hook. */
  function FindActive(docs: seq<User>): (r: seq<User>)
    ensures |r| <= |docs|
    ensures forall i :: 0 <= i < |r| ==> MatchesActiveFilter(r[i])
    ensures forall d :: multiset(r)[d] == if MatchesActiveFilter(d) then multiset(docs)[d] else 0
  {
    if docs == [] then []
    else
      assert docs == [docs[0]] + docs[1..];
      (if MatchesActiveFilter(docs[0]) then [docs[0]] else []) + FindActive(docs[1..])
  }

  /** `correctPassword`: bcrypt's comparison of a candidate against a stored hash. */
  function CorrectPassword(b: Bcrypt, candidate: string, stored: string): bool {
    b.compare(candidate, stored)
  }

  /** `parseInt(ms / 1000, 10)`: whole seconds, truncated toward zero. */
  function TruncSeconds(ms: int): (s: int)
    ensures ms >= 0 ==> 0 <= s && s * 1000 <= ms < s * 1000 + 1000
    ensures ms < 0 ==> s <= 0 && s * 1000 - 1000 < ms <= s * 1000
  {
    if ms >= 0 then ms / 1000 else -((-ms) / 1000)
  }

  /**
   * `changePasswordAfter`: is a token issued at `jwtTimestamp` (seconds)
   * older than the recorded password change? Stated in milliseconds, a
   * non-negative change time makes the token stale exactly when the change
   * falls at or after the end of the second in which it was issued.
   */
  function ChangePasswordAfter(u: User, jwtTimestamp: int): (stale: bool)
    ensures u.passwordChangedAt.None? ==> !stale
    ensures u.passwordChangedAt.Some? && u.passwordChangedAt.value >= 0 ==>
              (stale <==> (jwtTimestamp + 1) * 1000 <= u.passwordChangedAt.value)
    ensures u.passwordChangedAt.Some? && u.passwordChangedAt.value < 0 ==>
              (stale <==> jwtTimestamp * 1000 < u.passwordChangedAt.value)
  {
    match u.passwordChangedAt
    case None => false
    case Some(ms) => jwtTimestamp < TruncSeconds(ms)
  }

  /** The document after `createPasswordResetToken` has issued `token` at `now`. */
  function WithResetToken(u: User, sha256: string -> string, token: string, now: int): User
  {
    u.(passwordResetToken := Some(sha256(token)), passwordResetExpires := Some(now + ResetTokenLifetimeMs))
  }

  /**
   * What the stored reset fields let a caller check: the presented token
   * hashes to the stored digest and `now` is before the stored expiry.
   */
  predicate ResetTokenAccepted(u: User, sha256: string -> string, presented: string, now: int) {
    && u.passwordResetToken == Some(sha256(presented))
    && u.passwordResetExpires.Some?
    && now < u.passwordResetExpires.value
  }

  // ---------------------------------------------------------------------
  // The document, updated in place
  // ---------------------------------------------------------------------

  class UserDocument {
    var name: Option<string>
    var email: Option<string>
    var photo: string
    var role: string
    var password: Option<string>
    var passwordConfirm: Option<string>
    var passwordChangedAt: Option<int>
    var passwordResetToken: Option<string>
    var passwordResetExpires: Option<int>
    var active: Option<bool>
    var isNew: bool
    var passwordModified: bool

    /** The document's current state as a value. */
    function Snapshot(): User
      reads this
    {
      User(name, email, photo, role, password, passwordConfirm, passwordChangedAt,
           passwordResetToken, passwordResetExpires, active, isNew, passwordModified)
    }

    /** `new User({...})` with the schema's defaults. */
    constructor (name: Option<string>, email: Option<string>, photo: Option<string>,
                 role: Option<string>, password: Option<string>, passwordConfirm: Option<string>)
      ensures Snapshot() == NewUser(name, email, photo, role, password, passwordConfirm)
    {
      this.name := name;
      this.email := email;
      this.photo := photo.GetOr(DefaultPhoto);
      this.role := role.GetOr(DefaultRole);
      this.password := password;
      this.passwordConfirm := passwordConfirm;
      this.passwordChangedAt := None;
      this.passwordResetToken := None;
      this.passwordResetExpires := None;
      this.active := Some(true);
      this.isNew := true;
      this.passwordModified := password.Some?;
    }

    /** The first pre-save hook; on failure the document is left as it was. */
    method HashPasswordHook(b: Bcrypt, salt: string) returns (err: Option<SaveError>)
      modifies this
      ensures var r := Hashed(old(Snapshot()), b, salt);
              && err == (if r.Ok? then None else Some(r.error))
              && Snapshot() == (if r.Ok? then r.value else old(Snapshot()))
    {
      if !passwordModified {
        return None;
      }
      if password.None? {
        return Some(HashFailed);
      }
      password := Some(b.hash(password.value, BcryptCost, salt));
      passwordConfirm := None;
      return None;
    }

    /** The second pre-save hook. */
    method StampPasswordChangeHook(now: int)
      modifies this
      ensures Snapshot() == Stamped(old(Snapshot()), now)
    {
      if !passwordModified || isNew {
        return;
      }
      passwordChangedAt := Some(now - BackdateMs);
    }

    /** `save()`: validate, then run the two hooks in order; a refused save changes nothing. */
    method Save(b: Bcrypt, salt: string, now: int, isEmail: string -> bool) returns (err: Option<SaveError>)
      modifies this
      ensures var r := Saved(old(Snapshot()), b, salt, now, isEmail);
              && err == (if r.Ok? then None else Some(r.error))
              && Snapshot() == (if r.Ok? then r.value else old(Snapshot()))
    {
      var violations := Violations(Snapshot(), isEmail);
      if violations != {} {
        return Some(Invalid(violations));
      }
      err := HashPasswordHook(b, salt);
      if err.None? {
        StampPasswordChangeHook(now);
      }
    }

    /**
     * `createPasswordResetToken`: the hex text of the random bytes is
     * returned; only its SHA-256 digest is kept, with an expiry ten minutes on.
     */
    method CreatePasswordResetToken(sha256: string -> string, random: seq<byte>, now: int)
      returns (resetToken: string)
      requires |random| == ResetTokenBytes
      modifies this
      ensures resetToken == Encode(random)
      ensures Snapshot() == WithResetToken(old(Snapshot()), sha256, resetToken, now)
    {
      resetToken := Encode(random);
      passwordResetToken := Some(sha256(resetToken));
      passwordResetExpires := Some(now + ResetTokenLifetimeMs);
    }
  }
}
