/** Profile retrieval: the live user under an id, without the password. */
module GetProfileUseCase {
  import opened Wrappers
  import opened DomainErrors
  import opened UserEntity
  import opened UserRepository

  const UserNotFound := "Usuário não encontrado"

  /**
   * `execute`: a missing or soft-deleted id is a NotFoundError; otherwise the
   * stored record's profile, which carries every field but the password.
   */
  function Execute(t: Table, userId: UserId): (r: Result<AuthUser, DomainError>)
    ensures r.Failure? <==> !(userId in t && Live(t[userId]))
    ensures r.Failure? ==> r.error == NewNotFoundError(UserNotFound)
    ensures r.Success? ==> RowOf(WithPassword(r.value, t[userId].password), None) == t[userId]
  {
    match FindById(t, userId)
    case None => Failure(NewNotFoundError(UserNotFound))
    case Some(user) => Success(ToAuthUser(user))
  }

  /** A soft-deleted user is not found, whatever the row still holds. */
  lemma DeletedUserNotFound(t: Table, userId: UserId)
    requires userId in t && !Live(t[userId])
    ensures Execute(t, userId) == Failure(NewNotFoundError(UserNotFound))
  {
  }

  /** In a well-formed table the profile found is the one stored under the requested id. */
  lemma ProfileHasRequestedId(t: Table, userId: UserId)
    requires KeysAreIds(t)
    ensures Execute(t, userId).Success? ==> Execute(t, userId).value.id == userId
  {
  }
}
