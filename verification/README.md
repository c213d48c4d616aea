# Credential lifecycle of the tour-booking user document

This project models the user document of a tour-booking web service (`models/userModel.js`) and proves properties of that model. The document holds a user's name, email, role, photo and credentials: a password stored only as a bcrypt hash, a write-only confirmation field, a password-change timestamp, a hashed reset token with its expiry, and a soft-delete flag `active`.

The model covers:

- the schema's defaults (`photo`, `role`, `active`) and its validators: the `required` paths, `validator.isEmail`, the role enum, the password `minlength` of 8, and the check that `passwordConfirm` equals `password`;
- the two `pre('save')` hooks, in declaration order and after validation. The first replaces a modified password with `bcrypt.hash(password, 12)` and clears `passwordConfirm`. The second stamps `passwordChangedAt = now - 1000` when the password of an already stored document changes;
- the `pre(/^find/)` hook, which adds `active != false` to every find;
- `correctPassword`, `changePasswordAfter` and `createPasswordResetToken`.

Each step is a function from one document state (`UserModel.User`) to the next. The class `UserModel.UserDocument` performs the same steps in place on its fields, and each of its methods is proved equal to the function for that step.

The model takes these things as parameters:

- bcrypt is a pair of function values (`hash`, `compare`). The random salt that bcrypt draws becomes an explicit argument. The only thing assumed of bcrypt is `Consistent`: a plaintext is accepted against any hash computed from it. Lemmas that need this take it as a hypothesis.
- SHA-256, `validator.isEmail` and the 32 random bytes behind a reset token are parameters too.
- The clock (`Date.now()`) is an integer number of milliseconds. JWT timestamps are integer seconds.

The hex text of the random bytes (`toString('hex')`) is modelled exactly, together with its decoding.

`parseInt(ms / 1000, 10)` truncates toward zero, so it is written out as `TruncSeconds`; Dafny's own `/` rounds differently for negative numbers. The model treats this expression as exact integer truncation. That is right for every millisecond value a JavaScript `Date` can hold, because at that size the float quotient is never rounded up to the next integer.

The 1000 ms back-dating tolerates one second of skew. After a stored document's password is saved at `now`, a token issued at any time from `now - 1000` ms onwards is not judged stale (`TokenWithinSkewNotStale`). Without the back-dating, a token issued in the second before the save would be stale. A token issued in the second of the save or later is never stale (`TokenIssuedAtSaveNotStale`), but that would hold even without the back-dating. The back-dating also has a cost. When a change is saved at `now` (with `now >= 1000`), a token is stale only if it was issued before second `now/1000 - 1` (`StaleWindowAfterChange`). So a token issued in the second just before the change is still accepted. The code's comment says this back-dating is intended, so it is recorded here as a proved property and not as a defect.

## Model

| member | source | states |
|---|---|---|
| `UserModel.TruncSeconds` | models/userModel.js:89-92 | the seconds value of a millisecond time, truncated toward zero: for `ms >= 0` it is the largest `s` with `1000*s <= ms`, and for negative `ms` it is the smallest `s` with `ms <= 1000*s` |
| `UserModel.ChangePasswordAfter` | models/userModel.js:87-96 | with no change timestamp it is false; otherwise a token issued at second `t` is stale exactly when the change falls at or after the end of second `t` (for `ms >= 0`: `(t+1)*1000 <= ms`; for `ms < 0`: `t*1000 < ms`) |
| `UserModel.FindActive` | models/userModel.js:73-78 | a find keeps each document exactly as many times as it occurs when its `active` is not `false`, drops every document whose `active` is `false`, and never returns more than it was given |
| `UserModel.NewUser` | models/userModel.js:7-54 | the state of `new User({...})`: the given paths, `photo` `default.jpg` and `role` `user` when not given, `active` true, no change timestamp or reset token, new, and password modified exactly when one is given |
| `UserModel.Present` | models/userModel.js:10 | Mongoose's `required` check on a String path: set and not the empty string |
| `UserModel.ConfirmValidator` | models/userModel.js:37-43 | the `passwordConfirm` validator: the confirmation equals the password (`el === this.password`) |
| `UserModel.RoleAllowed` | models/userModel.js:23-27 | the role enum: one of `user`, `guide`, `lead-guide`, `admin` |
| `UserModel.LongEnough` | models/userModel.js:28-33 | the password `minlength`: at least 8 characters |
| `UserModel.Violations` | models/userModel.js:7-54 | the set of failing paths, at most one violation per path, `required` taking precedence over a path's other validators, which skip undefined values |
| `UserModel.Hashed` | models/userModel.js:57-63 | the first pre-save hook: unchanged when the password is unmodified; otherwise the cost-12 hash replaces the password and the confirmation is cleared, or bcrypt's rejection of an undefined password |
| `UserModel.Stamped` | models/userModel.js:65-71 | the second pre-save hook: `passwordChangedAt := now - 1000` when the password is modified and the document is not new, unchanged otherwise |
| `UserModel.PreSaved` | models/userModel.js:56-71 | the two hooks in declaration order, the second running only when the first succeeds |
| `UserModel.Saved` | models/userModel.js:7-71 | a save: every failing path when validation fails, otherwise the result of the two hooks |
| `UserModel.MatchesActiveFilter` | models/userModel.js:76 | the condition `{ active: { $ne: false } }` |
| `UserModel.CorrectPassword` | models/userModel.js:80-85 | `correctPassword`: bcrypt's comparison of a candidate against a stored hash |
| `UserModel.WithResetToken` | models/userModel.js:101-108 | the document after issuance: the token's SHA-256 digest stored and the expiry set to `now + 600000`, all else unchanged |
| `UserModel.UserDocument.constructor` | models/userModel.js:7-54 | a new document has the given fields, `photo` `default.jpg` and `role` `user` when those are not given, `active` true, no change timestamp and no reset token; it is new, and its password counts as modified when one is given |
| `UserModel.UserDocument.HashPasswordHook` | models/userModel.js:57-63 | in place: an unmodified password leaves the document as it is; a modified one is replaced by its cost-12 bcrypt hash and the confirmation is cleared; an undefined modified password is refused with nothing changed |
| `UserModel.UserDocument.StampPasswordChangeHook` | models/userModel.js:65-71 | in place: sets `passwordChangedAt` to `now - 1000` when the password was modified on a document that is not new; otherwise changes nothing |
| `UserModel.UserDocument.Save` | models/userModel.js:57-71 | in place: validation first (a refused save reports every failing path and changes nothing), then the two hooks in declaration order, the second only if the first succeeded |
| `UserModel.UserDocument.CreatePasswordResetToken` | models/userModel.js:98-111 | in place: returns the hex text of the random bytes, stores only its SHA-256 digest, and sets the expiry to `now + 600000`; no other field changes |
| `UserModelProperties.UnmodifiedSaveChangesNothing` | models/userModel.js:57-71 | when the password is not modified both hooks return early and the document is unchanged |
| `UserModelProperties.PasswordSaveHashesAndDropsConfirm` | models/userModel.js:57-63 | a save of a modified password stores `hash(plaintext, 12)` and leaves `passwordConfirm` undefined; only the three credential paths differ from before |
| `UserModelProperties.UndefinedPasswordSaveFails` | models/userModel.js:60 | a modified but undefined password makes bcrypt reject, and the save fails |
| `UserModelProperties.ChangeStampOnlyForStoredDocuments` | models/userModel.js:65-71 | after the hooks, `passwordChangedAt` is `now - 1000` exactly when the password was modified on a document that is not new, and is unchanged otherwise |
| `UserModelProperties.SavedPasswordWasConfirmed` | models/userModel.js:28-63 | in the model, which validates every path, a save that succeeds with a modified password had a plaintext of at least 8 characters equal to its confirmation; afterwards the stored password is that plaintext's hash and the confirmation is gone |
| `UserModelProperties.SavedPasswordIsAccepted` | models/userModel.js:80-85 | if bcrypt is consistent, `correctPassword` accepts the saved plaintext against the hash that the save stored |
| `UserModelProperties.ValidationAcceptsExactly` | models/userModel.js:8-45 | validation passes exactly when name and email are present, the email is valid, the role is one of `user`, `guide`, `lead-guide`, `admin`, the password has at least 8 characters, and the confirmation is present and equal to it; the source runs these checks on every path only for a new document (see `UserModel.Violations` under Left out) |
| `UserModelProperties.ConfirmMismatchReported` | models/userModel.js:37-43 | the confirmation validator reports a mismatch exactly when a non-empty confirmation differs from the password |
| `UserModelProperties.NewUserUnstamped` | models/userModel.js:46 | a newly built document is new and has no change timestamp |
| `UserModelProperties.PreSavePreservesUnstamped` | models/userModel.js:65-71 | the save hooks never stamp a new document, so "new implies no change timestamp" is kept |
| `UserModelProperties.ResetTokenPreservesUnstamped` | models/userModel.js:98-111 | issuing a reset token keeps "new implies no change timestamp" |
| `UserModelProperties.RegisteredUserNeverStale` | models/userModel.js:65-96 | after a newly built document is saved, whatever its photo and role, no token is judged stale |
| `UserModelProperties.NeverStaleWithoutChange` | models/userModel.js:88-95 | with `passwordChangedAt` absent, `changePasswordAfter` is false for every token time |
| `UserModelProperties.StaleIsMonotone` | models/userModel.js:89-93 | if a token issued at `t` is stale, so is every token issued earlier |
| `UserModelProperties.TruncSecondsMonotone` | models/userModel.js:89-92 | truncation to seconds never decreases as the time grows |
| `UserModelProperties.TokenWithinSkewNotStale` | models/userModel.js:65-96 | after a password change on a stored document saved at `now`, a token issued at any millisecond from `now - 1000` onwards, truncated to seconds, is not stale |
| `UserModelProperties.TokenIssuedAtSaveNotStale` | models/userModel.js:65-96 | after a password change on a stored document saved at `now`, a token issued at `trunc(now/1000)` or later is not stale |
| `UserModelProperties.StaleWindowAfterChange` | models/userModel.js:65-96 | for a change saved at `now >= 1000`, a token is stale exactly when it was issued before second `now/1000 - 1` |
| `UserModelProperties.ResetTokenIssued` | models/userModel.js:98-111 | the issued token is 64 lower-case hex digits; the stored token is its digest; the expiry is `now + 600000`; nothing else changes |
| `UserModelProperties.ResetTokenRedeemableForTenMinutes` | models/userModel.js:101-108 | the stored fields accept the issued token at time `t` exactly when `t` is before issue time + 10 minutes |
| `UserModelProperties.FilterKeepsAllButInactive` | models/userModel.js:76 | the find condition keeps a document exactly when its `active` is true or unset |
| `UserModelProperties.FindActiveIdempotent` | models/userModel.js:73-78 | filtering twice gives the same result as filtering once |
| `Hex.Encode` | models/userModel.js:99 | the hex text of the random bytes has two digits per byte, all lower-case hex |
| `Hex.DecodeEncode` | models/userModel.js:99 | the bytes can be read back from their hex text |
| `Hex.EncodeInjective` | models/userModel.js:99 | equal hex texts come from equal bytes, so different random bytes give different reset tokens |

## Left out

- `app.js`: its body is configuration passed to third-party middleware (security headers, rate limiting, body-size limits, sanitisation, parameter-pollution guarding) plus route wiring. The logic lives in libraries that are not part of this model.
- `public/js/stripe.js`: a browser-side HTTP call and a redirect to a hosted checkout page. It is I/O with no logic of its own.
- bcrypt, SHA-256, `crypto.randomBytes` and `validator.isEmail` are uninterpreted parameters. The model does not capture one-wayness or bcrypt's constant-time comparison.
- Persistence and the rest of Mongoose's behaviour are not modelled. This covers storing the document and clearing `isNew` and the modified flags after a save. It also covers the `unique` index and the `lowercase` setter on `email`, the `select: false` projections, and the `validateBeforeSave` option. The hooks are modelled as plain calls in order, without their async sequencing.
- Validation runs on every path of the document. Mongoose skips a required path that is neither selected by the query nor modified. In this schema `password`, `passwordConfirm` and `active` are `select: false`, so on a stored document fetched without them those checks are skipped.
- UserModel.Violations: refuses some saves of stored documents that the source accepts, because it does not model which paths a query selected. A stored document whose password is set without a confirmation is refused with `ConfirmRequired`, and so is every re-save of a stored document whose confirmation was cleared; the source saves both. `SavedPasswordWasConfirmed` and `ValidationAcceptsExactly` therefore describe the source faithfully only for new documents. For the same reason `CorrectPassword` takes the stored hash as a string: a caller that fetched the document without `+password` passes an undefined `userPassword`, which bcryptjs rejects, and the model does not show that rejection.
- Query kinds are not distinguished: `/^find/` matches `find`, `findOne`, `findOneAndUpdate` and others, and all of them are modelled as one filter over a sequence of documents. Finds that bypass the hook (aggregation, explicit overrides) are not modelled.
- Redeeming a reset token, and clearing it after a reset, happen in the authentication controller, which is not part of this model. `ResetTokenAccepted` states only what the stored fields allow.
- `UserModel.UserDocument.constructor`: takes only the six paths a client supplies at registration. A `passwordChangedAt` passed to `new User(...)` is not modelled, so the invariant "a new document has no change timestamp" holds only for documents built this way.
- `UserModel.UserDocument.CreatePasswordResetToken`: requires exactly 32 random bytes, because `crypto.randomBytes(32)` always supplies that many.
- String lengths are counted in characters, whereas JavaScript counts UTF-16 code units. The two differ only for characters outside the Basic Multilingual Plane.
- `Date.now()` is read separately by the second hook and by `createPasswordResetToken`. The model passes a single `now` to each operation.
