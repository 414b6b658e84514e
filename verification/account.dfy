/** The signed-in account, as both pages read it from the auth provider. */
module Account {

  /**
   A user id that JavaScript treats as present. A missing user, a missing
   uid and an empty uid are all falsy, and `""` stands for all three.
   */
  predicate SignedIn(uid: string)
  {
    uid != ""
  }
}
