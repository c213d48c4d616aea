/**
 * The cryptographic primitives the user model calls. They are kept
 * uninterpreted: each is a function value supplied by the caller, and the
 * only thing assumed of bcrypt is stated as a predicate that the lemmas
 * needing it take as a hypothesis.
 */
module Primitives {

  /**
   * bcryptjs. `hash(plain, cost, salt)` is `bcrypt.hash(plain, cost)` with the
   * random salt it draws made explicit; `compare(candidate, stored)` is
   * `bcrypt.compare`.
   */
  datatype Bcrypt = Bcrypt(hash: (string, nat, string) -> string, compare: (string, string) -> bool)

  /** bcrypt's own promise: a plaintext is accepted against any hash computed from it. */
  ghost predicate Consistent(b: Bcrypt) {
    forall plain: string, cost: nat, salt: string :: b.compare(plain, b.hash(plain, cost, salt))
  }
}
