/** Profile update: check the user exists, then apply the partial update. */
module UpdateProfileUseCase {
  import opened Wrappers
  import opened DomainErrors
  import opened UserEntity
  import opened Ports
  import opened UserRepository
  import GetProfileUseCase

  /**
   * `execute`: the existence check comes first, and a missing or soft-deleted
   * id is a NotFoundError with the store untouched; otherwise the row under
   * `userId` receives exactly the given partial update and its profile is returned.
   */
  method Execute(store: UserStore, userId: UserId, input: UpdateUserProfileInput, now: Timestamp)
    returns (r: Result<AuthUser, DomainError>)
    requires store.Valid()
    modifies store
    ensures store.Valid()
    ensures r.Failure? <==> FindById(old(store.rows), userId).None?
    ensures r.Failure? ==> r.error == NewNotFoundError(GetProfileUseCase.UserNotFound) && store.rows == old(store.rows)
    ensures r.Success? ==>
      && store.rows == old(store.rows)[userId := ApplyProfileUpdate(old(store.rows)[userId], input, now)]
      && r.value == ToAuthUser(ToDomain(store.rows[userId]))
  {
    var existing := FindById(store.rows, userId);
    if existing.None? {
      return Failure(NewNotFoundError(GetProfileUseCase.UserNotFound));
    }
    var user := store.UpdateProfile(userId, input, now);
    r := Success(ToAuthUser(user));
  }

  /**
   * After an update, reading the profile gives the supplied names, keeps the
   * absent ones, and leaves id, email, role, balance and creation time as stored.
   */
  lemma ProfileAfterUpdate(t: Table, userId: UserId, input: UpdateUserProfileInput, now: Timestamp)
    requires userId in t && Live(t[userId])
    ensures
      var before := GetProfileUseCase.Execute(t, userId).value;
      var after := GetProfileUseCase.Execute(t[userId := ApplyProfileUpdate(t[userId], input, now)], userId);
      && after.Success?
      && after.value.firstName == (if input.firstName.Some? then input.firstName.value else before.firstName)
      && after.value.lastName == (if input.lastName.Some? then input.lastName.value else before.lastName)
      && after.value.(firstName := before.firstName, lastName := before.lastName, updatedAt := before.updatedAt) == before
  {
  }
}
