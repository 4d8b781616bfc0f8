/** The user records of the auth domain: the public profile and the internal record with its password hash. */
module UserEntity {

  type UserId = string

  /** A point in time, as the database stores it. */
  type Timestamp = int

  /** The closed set of roles. */
  datatype UserRole = ADMIN | MODERATOR | VIP | USER

  /** The public profile: every field of a user except the password. */
  datatype AuthUser = AuthUser(
    id: UserId,
    email: string,
    firstName: string,
    lastName: string,
    role: UserRole,
    coinsBalance: int,
    createdAt: Timestamp,
    updatedAt: Timestamp)

  /** The internal record: the profile fields plus the stored password hash. */
  datatype AuthUserWithPassword = AuthUserWithPassword(
    id: UserId,
    email: string,
    password: string,
    firstName: string,
    lastName: string,
    role: UserRole,
    coinsBalance: int,
    createdAt: Timestamp,
    updatedAt: Timestamp)

  /** Re-attaches a password to a profile. */
  function WithPassword(p: AuthUser, password: string): AuthUserWithPassword {
    AuthUserWithPassword(p.id, p.email, password, p.firstName, p.lastName,
                         p.role, p.coinsBalance, p.createdAt, p.updatedAt)
  }

  /** Strips the password: the profile keeps every other field, so the record is recovered from it and the hash. */
  function ToAuthUser(u: AuthUserWithPassword): (p: AuthUser)
    ensures WithPassword(p, u.password) == u
  {
    AuthUser(u.id, u.email, u.firstName, u.lastName, u.role, u.coinsBalance, u.createdAt, u.updatedAt)
  }

  /** The profile does not depend on the password: two records give the same profile exactly when they differ at most in it. */
  lemma ProfileIgnoresPassword(u: AuthUserWithPassword, v: AuthUserWithPassword)
    ensures ToAuthUser(u) == ToAuthUser(v) <==> u == v.(password := u.password)
  {
    if ToAuthUser(u) == ToAuthUser(v) {
      calc {
        u;
        WithPassword(ToAuthUser(u), u.password);
        WithPassword(ToAuthUser(v), u.password);
        v.(password := u.password);
      }
    }
  }

  /** The outcome of a successful register or login: the profile and a signed token. */
  datatype AuthOutput = AuthOutput(user: AuthUser, token: string)
}
