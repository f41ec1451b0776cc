/** Large invariants are stated under a guard, so that code that only passes them on is verified
    without looking into them. */
module Guards {

  /** True of everything.  `forall n {:trigger Asked(n)} :: Asked(n) ==> P` means P, and a proof
      that needs P says so by mentioning Asked. */
  predicate Asked(n: int) {
    true
  }
}
