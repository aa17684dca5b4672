/**
 * The `users` table behind the Room DAO: a map from the primary key
 * (`email`) to the `UserEntity` row, with the DAO's lookup, ABORT-on-conflict
 * insert, delete and profile update.
 */
module UserStore {
  import opened Wrappers

  /** One row of `users`; `createdAt` is the insert time in milliseconds. */
  datatype UserEntity = UserEntity(
    email: string,
    username: string,
    targetYear: int,
    passwordHash: string,
    salt: string,
    createdAt: int,
    avatarUrl: Option<string>)

  type Table = map<string, UserEntity>

  /** Every row is stored under its own primary key. */
  ghost predicate KeyedByEmail(t: Table) {
    forall e | e in t :: t[e].email == e
  }

  // ---------------------------------------------------------------------
  // The queries, as functions of the table
  // ---------------------------------------------------------------------

  /** `SELECT * FROM users WHERE email = :email LIMIT 1`. */
  function Lookup(t: Table, email: string): (r: Option<UserEntity>)
    ensures r.Some? <==> email in t
    ensures r.Some? ==> r.value == t[email]
    ensures KeyedByEmail(t) && r.Some? ==> r.value.email == email
  {
    if email in t then Some(t[email]) else None
  }

  /** `@Insert(onConflict = ABORT)`: None when the key is taken, else the table with exactly that row added. */
  function Insert(t: Table, user: UserEntity): (r: Option<Table>)
    ensures r.None? <==> user.email in t
    ensures r.Some? ==> r.value.Keys == t.Keys + {user.email} && r.value[user.email] == user
    ensures r.Some? ==> forall e | e in t :: r.value[e] == t[e]
  {
    if user.email in t then None else Some(t[user.email := user])
  }

  /** `DELETE FROM users WHERE email = :email`: that row goes, all others stay. */
  function Delete(t: Table, email: string): (r: Table)
    ensures r.Keys == t.Keys - {email}
    ensures forall e | e in r :: r[e] == t[e]
  {
    t - {email}
  }

  /**
   * `UPDATE users SET username, targetYear, avatarUrl WHERE email = :email`:
   * the matching row gets the three new values and keeps everything else;
   * no row matches when the email is absent.
   */
  function WithProfile(t: Table, email: string, username: string, targetYear: int, avatarUrl: Option<string>): (r: Table)
    ensures r.Keys == t.Keys
    ensures forall e | e in t && e != email :: r[e] == t[e]
    ensures email in t ==>
              && r[email].username == username && r[email].targetYear == targetYear
              && r[email].avatarUrl == avatarUrl
              && r[email].email == t[email].email && r[email].passwordHash == t[email].passwordHash
              && r[email].salt == t[email].salt && r[email].createdAt == t[email].createdAt
    ensures email !in t ==> r == t
  {
    if email in t then
      t[email := t[email].(username := username, targetYear := targetYear, avatarUrl := avatarUrl)]
    else t
  }

  // ---------------------------------------------------------------------
  // Properties relating the queries
  // ---------------------------------------------------------------------

  /** Insert, delete and update all keep every row under its own key. */
  lemma OperationsKeepKeying(t: Table, user: UserEntity, email: string, username: string, targetYear: int, avatarUrl: Option<string>)
    requires KeyedByEmail(t)
    ensures Insert(t, user).Some? ==> KeyedByEmail(Insert(t, user).value)
    ensures KeyedByEmail(Delete(t, email))
    ensures KeyedByEmail(WithProfile(t, email, username, targetYear, avatarUrl))
  {
  }

  /** After an insert, the new row is found under its email and every other lookup answers as before. */
  lemma LookupAfterInsert(t: Table, user: UserEntity, other: string)
    requires Insert(t, user).Some?
    ensures Lookup(Insert(t, user).value, user.email) == Some(user)
    ensures other != user.email ==> Lookup(Insert(t, user).value, other) == Lookup(t, other)
  {
  }

  /** Deleting the row just inserted gives back the original table. */
  lemma DeleteUndoesInsert(t: Table, user: UserEntity)
    requires Insert(t, user).Some?
    ensures Delete(Insert(t, user).value, user.email) == t
  {
    var t' := Insert(t, user).value;
    assert Delete(t', user.email).Keys == t.Keys;
  }

  /** After a delete the email is not found, and inserting under it is allowed again. */
  lemma DeleteFreesKey(t: Table, email: string, user: UserEntity)
    requires user.email == email
    ensures Lookup(Delete(t, email), email) == None
    ensures Insert(Delete(t, email), user).Some?
  {
  }

  /** Repeating the same profile update changes nothing more. */
  lemma WithProfileIdempotent(t: Table, email: string, username: string, targetYear: int, avatarUrl: Option<string>)
    ensures var once := WithProfile(t, email, username, targetYear, avatarUrl);
            WithProfile(once, email, username, targetYear, avatarUrl) == once
  {
  }

  // ---------------------------------------------------------------------
  // The DAO over a mutable table
  // ---------------------------------------------------------------------

  /** `UserDao` together with the table it reads and writes. */
  class UserDao {
    var users: Table

    ghost predicate Valid()
      reads this
    {
      KeyedByEmail(users)
    }

    constructor ()
      ensures Valid() && users == map[]
    {
      users := map[];
    }

    method GetUserByEmail(email: string) returns (r: Option<UserEntity>)
      requires Valid()
      ensures r == Lookup(users, email)
      ensures r.Some? ==> r.value.email == email
    {
      if email in users {
        r := Some(users[email]);
      } else {
        r := None;
      }
    }

    /** Returns false for the ABORT (constraint violation), leaving the table as it was. */
    method InsertUser(user: UserEntity) returns (ok: bool)
      requires Valid()
      modifies this`users
      ensures Valid()
      ensures ok <==> user.email !in old(users)
      ensures ok ==> users == Insert(old(users), user).value
      ensures !ok ==> users == old(users)
    {
      if user.email in users {
        ok := false;
      } else {
        OperationsKeepKeying(users, user, user.email, "", 0, None);
        users := users[user.email := user];
        ok := true;
      }
    }

    method DeleteUser(email: string)
      requires Valid()
      modifies this`users
      ensures Valid()
      ensures users == Delete(old(users), email)
    {
      users := users - {email};
    }

    method UpdateProfile(email: string, username: string, targetYear: int, avatarUrl: Option<string>)
      requires Valid()
      modifies this`users
      ensures Valid()
      ensures users == WithProfile(old(users), email, username, targetYear, avatarUrl)
    {
      if email in users {
        users := users[email := users[email].(username := username, targetYear := targetYear, avatarUrl := avatarUrl)];
      }
    }
  }
}
