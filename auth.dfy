/** The signed-in user as the pages see it. The authentication context that
    produces it is not part of this model; only its username reaches the
    store, as the actor of each history entry. */
module Auth {
  datatype User = User(username: string)
}
