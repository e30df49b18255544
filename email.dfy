/** zod's `z.string().email()` check. */
module Email {

  /**
   * The address syntax zod accepts is not part of this model; a rule is any predicate that, like zod's
   * pattern, accepts only strings with an '@' (and therefore never the empty string).
   */
  type EmailRule = f: string -> bool | forall s :: f(s) ==> '@' in s witness (s: string) => false

  /** An accepted address is never empty. */
  lemma EmptyIsNoEmail(isEmail: EmailRule)
    ensures !isEmail("")
  {
  }
}
