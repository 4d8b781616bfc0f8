/**
 * The user store: a table of rows keyed by id, each with a soft-delete
 * marker. Lookups are pure functions of the table; `UserStore` holds the
 * table and performs the two writes (insert and partial profile update).
 */
module UserRepository {
  import opened Wrappers
  import opened Text
  import opened UserEntity
  import opened Ports

  /** A stored row: the record's nine fields plus `deletedAt` (`None` while the user is live). */
  datatype UserRow = UserRow(
    id: UserId,
    email: string,
    password: string,
    firstName: string,
    lastName: string,
    role: UserRole,
    coinsBalance: int,
    createdAt: Timestamp,
    updatedAt: Timestamp,
    deletedAt: Option<Timestamp>)

  type Table = map<UserId, UserRow>

  /** A row that has not been soft-deleted. */
  predicate Live(row: UserRow) {
    row.deletedAt.None?
  }

  /** The values the database chooses on insert: a fresh id, the default balance and the current time. */
  datatype Assigned = Assigned(id: UserId, coinsBalance: int, now: Timestamp)

  /** Builds the row holding a record, with the given deletion marker. */
  function RowOf(u: AuthUserWithPassword, deletedAt: Option<Timestamp>): UserRow {
    UserRow(u.id, u.email, u.password, u.firstName, u.lastName, u.role,
            u.coinsBalance, u.createdAt, u.updatedAt, deletedAt)
  }

  /** `toDomain`: copies the nine record fields, dropping only the deletion marker. */
  function ToDomain(row: UserRow): (u: AuthUserWithPassword)
    ensures RowOf(u, row.deletedAt) == row
  {
    AuthUserWithPassword(row.id, row.email, row.password, row.firstName, row.lastName,
                         row.role, row.coinsBalance, row.createdAt, row.updatedAt)
  }

  /** Every row is stored under its own id. */
  ghost predicate KeysAreIds(t: Table) {
    forall id :: id in t ==> t[id].id == id
  }

  /** At most one live row per email (the database's unique index on email). */
  ghost predicate LiveEmailsUnique(t: Table) {
    forall i, j :: i in t && j in t && Live(t[i]) && Live(t[j]) && t[i].email == t[j].email ==> i == j
  }

  /** Rows keyed by id, emails stored lower-case, and live emails unique. */
  ghost predicate TableInvariant(t: Table) {
    && KeysAreIds(t)
    && (forall id :: id in t ==> IsLowerCase(t[id].email))
    && LiveEmailsUnique(t)
  }

  /** True when a live row holds `email` after lower-casing it. */
  ghost predicate HasLiveEmail(t: Table, email: string) {
    exists id :: id in t && Live(t[id]) && t[id].email == Lower(email)
  }

  /** `findByEmail`: the live row whose email equals the lower-cased query, if any. */
  function FindByEmail(t: Table, email: string): (r: Option<AuthUserWithPassword>)
    requires LiveEmailsUnique(t)
    ensures r.Some? <==> HasLiveEmail(t, email)
    ensures r.Some? ==> exists id :: id in t && Live(t[id]) && t[id].email == Lower(email) && r.value == ToDomain(t[id])
  {
    if exists id :: id in t && Live(t[id]) && t[id].email == Lower(email) then
      var id :| id in t && Live(t[id]) && t[id].email == Lower(email);
      Some(ToDomain(t[id]))
    else
      None
  }

  /** `findById`: the row under `id`, unless it is missing or soft-deleted. */
  function FindById(t: Table, id: UserId): (r: Option<AuthUserWithPassword>)
    ensures r.Some? <==> id in t && Live(t[id])
    ensures r.Some? ==> RowOf(r.value, None) == t[id]
  {
    if id in t && Live(t[id]) then Some(ToDomain(t[id])) else None
  }

  /** Emails that agree after lower-casing find the same user. */
  lemma FindByEmailIgnoresCase(t: Table, a: string, b: string)
    requires LiveEmailsUnique(t)
    requires Lower(a) == Lower(b)
    ensures FindByEmail(t, a) == FindByEmail(t, b)
  {
  }

  /** A soft-deleted row is invisible to both finders. */
  lemma DeletedRowsInvisible(t: Table, id: UserId, email: string)
    requires TableInvariant(t)
    requires id in t && !Live(t[id])
    ensures FindById(t, id) == None
    ensures FindByEmail(t, email).Some? ==> FindByEmail(t, email).value.id != id
  {
  }

  /**
   * A stored user's own email finds that user: emails are stored lower-case,
   * so the finder's normalisation leaves them as they are.
   */
  lemma {:induction false} StoredEmailFindsOwnRow(t: Table, id: UserId)
    requires TableInvariant(t)
    requires id in t && Live(t[id])
    ensures FindByEmail(t, t[id].email) == Some(ToDomain(t[id]))
  {
    LowerOfLowerCase(t[id].email);
  }

  /** Normalising the query before the lookup finds the same user as not normalising it. */
  lemma {:induction false} LowerQueryFindsSame(t: Table, email: string)
    requires LiveEmailsUnique(t)
    ensures FindByEmail(t, Lower(email)) == FindByEmail(t, email)
  {
    LowerIdempotent(email);
    FindByEmailIgnoresCase(t, Lower(email), email);
  }

  /** The row `create` inserts: lower-cased email, the hash as password, role USER, not deleted. */
  function NewRow(data: CreateUserInput, a: Assigned): (row: UserRow)
    ensures Live(row) && row.role == USER && row.id == a.id
    ensures row.email == Lower(data.email) && IsLowerCase(row.email)
    ensures row.password == data.passwordHash
    ensures row.firstName == data.firstName && row.lastName == data.lastName
    ensures row.createdAt == row.updatedAt == a.now && row.coinsBalance == a.coinsBalance
  {
    UserRow(a.id, Lower(data.email), data.passwordHash, data.firstName, data.lastName,
            USER, a.coinsBalance, a.now, a.now, None)
  }

  /**
   * Inserting a row for a fresh id and an email no live user holds keeps the
   * table invariant, and the new user is then found by any case variant of the email.
   */
  lemma {:induction false} InsertKeepsInvariant(t: Table, data: CreateUserInput, a: Assigned, other: string)
    requires TableInvariant(t)
    requires a.id !in t
    requires !HasLiveEmail(t, data.email)
    requires Lower(other) == Lower(data.email)
    ensures TableInvariant(t[a.id := NewRow(data, a)])
    ensures FindByEmail(t[a.id := NewRow(data, a)], other) == Some(ToDomain(NewRow(data, a)))
  {
    var row := NewRow(data, a);
    var t' := t[a.id := row];
    forall i, j | i in t' && j in t' && Live(t'[i]) && Live(t'[j]) && t'[i].email == t'[j].email
      ensures i == j
    {
      if i != a.id && j != a.id {
        assert t'[i] == t[i] && t'[j] == t[j];
      }
    }
    assert LiveEmailsUnique(t');
    assert t'[a.id] == row;
  }

  /** `updateProfile`'s write: a present name replaces the stored one, an absent one keeps it; `updatedAt` becomes `now`. */
  function ApplyProfileUpdate(row: UserRow, data: UpdateUserProfileInput, now: Timestamp): (r: UserRow)
    ensures r.firstName == (if data.firstName.Some? then data.firstName.value else row.firstName)
    ensures r.lastName == (if data.lastName.Some? then data.lastName.value else row.lastName)
    ensures r.updatedAt == now
    ensures r.(firstName := row.firstName, lastName := row.lastName, updatedAt := row.updatedAt) == row
  {
    row.(firstName := if data.firstName.Some? then data.firstName.value else row.firstName,
         lastName := if data.lastName.Some? then data.lastName.value else row.lastName,
         updatedAt := now)
  }

  /** Applying the same partial update twice is the same as applying it once. */
  lemma ProfileUpdateIdempotent(row: UserRow, data: UpdateUserProfileInput, now: Timestamp)
    ensures ApplyProfileUpdate(ApplyProfileUpdate(row, data, now), data, now) == ApplyProfileUpdate(row, data, now)
  {
  }

  /** A profile update keeps the table invariant: it never touches the id, email or deletion marker. */
  lemma UpdateKeepsInvariant(t: Table, id: UserId, data: UpdateUserProfileInput, now: Timestamp)
    requires TableInvariant(t)
    requires id in t
    ensures TableInvariant(t[id := ApplyProfileUpdate(t[id], data, now)])
  {
    var t' := t[id := ApplyProfileUpdate(t[id], data, now)];
    assert forall k :: k in t' ==> t'[k].email == t[k].email && t'[k].id == t[k].id && t'[k].deletedAt == t[k].deletedAt;
  }

  /** The user table, updated in place by `create` and `updateProfile`. */
  class UserStore {
    var rows: Table

    ghost predicate Valid()
      reads this
    {
      TableInvariant(rows)
    }

    /** A store over the rows the database already holds. */
    constructor (initial: Table)
      requires TableInvariant(initial)
      ensures Valid() && rows == initial
    {
      rows := initial;
    }

    /**
     * `create`: inserts one row under the database's fresh id and returns it.
     * The database's unique index on email is stated as a precondition.
     */
    method Create(data: CreateUserInput, a: Assigned) returns (u: AuthUserWithPassword)
      requires Valid()
      requires a.id !in rows
      requires !HasLiveEmail(rows, data.email)
      modifies this
      ensures Valid()
      ensures rows == old(rows)[a.id := NewRow(data, a)]
      ensures |rows| == |old(rows)| + 1
      ensures u == ToDomain(NewRow(data, a))
    {
      InsertKeepsInvariant(rows, data, a, data.email);
      var row := NewRow(data, a);
      rows := rows[a.id := row];
      u := ToDomain(row);
    }

    /**
     * `updateProfile`: overwrites the present name fields of the row stored
     * under `userId` (selected by id alone, deleted or not) and returns it.
     * The database throws for a missing id; that id's presence is a precondition.
     */
    method UpdateProfile(userId: UserId, data: UpdateUserProfileInput, now: Timestamp) returns (u: AuthUserWithPassword)
      requires Valid()
      requires userId in rows
      modifies this
      ensures Valid()
      ensures rows == old(rows)[userId := ApplyProfileUpdate(old(rows)[userId], data, now)]
      ensures u == ToDomain(rows[userId])
    {
      UpdateKeepsInvariant(rows, userId, data, now);
      rows := rows[userId := ApplyProfileUpdate(rows[userId], data, now)];
      u := ToDomain(rows[userId]);
    }
  }
}
