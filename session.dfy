/** The part of the authentication context that the stores consult before
    every server action: whether a user id is present. */
module Session {
  import opened Wrappers

  /** The message every store reports when no user is signed in. */
  const NotAuthenticated: string := "User not authenticated"

  /** JavaScript truthiness of the user id: absent, null and "" are all falsy. */
  predicate SignedIn(userId: Option<string>)
  {
    userId.Some? && userId.value != ""
  }
}
