/**
 * `AuthRepository`: registration, login, logout and profile update over the
 * users table, plus the "current user" preference that the session follows.
 * The password digest (SHA-256 of `"<salt>:<password>"`, Base64-encoded) is
 * the repository's `hash` function, left uninterpreted.
 */
module AuthRepo {
  import opened Wrappers
  import opened UserStore

  /** Kotlin's `Result<Unit>`: success, or a failure carrying the exception's message. */
  datatype Outcome = Success | Failure(message: string)

  const ACCOUNT_EXISTS: string := "Account already exists for this email"
  const NO_ACCOUNT_FOR_EMAIL: string := "No account found for this email"
  const INCORRECT_PASSWORD: string := "Incorrect password"
  const NO_ACCOUNT: string := "No account found"

  /** What the repository acts on: the table and the stored current-user email. */
  datatype Store = Store(users: Table, current: Option<string>)

  /** The digest `hashPassword(password, salt)` computes: a function of `"<salt>:<password>"` alone. */
  function PasswordHash(hash: string -> string, password: string, salt: string): string {
    hash(salt + ":" + password)
  }

  // ---------------------------------------------------------------------
  // The operations, as functions of the store
  // ---------------------------------------------------------------------

  /** `register`: refuse a taken email; otherwise insert the new row and make it the current user. */
  function RegisterStep(st: Store, hash: string -> string, email: string, username: string, targetYear: int,
                        password: string, salt: string, now: int): (r: (Store, Outcome))
    ensures r.1.Success? <==> email !in st.users
    ensures r.1.Failure? ==> r.1.message == ACCOUNT_EXISTS && r.0 == st
    ensures r.1.Success? ==>
              && r.0.current == Some(email)
              && r.0.users == st.users[email := UserEntity(email, username, targetYear,
                                                 PasswordHash(hash, password, salt), salt, now, None)]
  {
    var user := UserEntity(email, username, targetYear, PasswordHash(hash, password, salt), salt, now, None);
    match Insert(st.users, user)
    case None => (st, Failure(ACCOUNT_EXISTS))
    case Some(t) => (Store(t, Some(email)), Success)
  }

  /** `login`: the email must have a row and the password must digest to its stored hash. */
  function LoginStep(st: Store, hash: string -> string, email: string, password: string): (r: (Store, Outcome))
    ensures r.0.users == st.users
    ensures r.1.Failure? ==> r.0 == st
    ensures email !in st.users ==> r.1 == Failure(NO_ACCOUNT_FOR_EMAIL)
    ensures r.1.Success? <==>
              email in st.users && PasswordHash(hash, password, st.users[email].salt) == st.users[email].passwordHash
    ensures r.1.Success? ==> r.0.current == Some(st.users[email].email)
  {
    match Lookup(st.users, email)
    case None => (st, Failure(NO_ACCOUNT_FOR_EMAIL))
    case Some(user) =>
      if PasswordHash(hash, password, user.salt) != user.passwordHash then (st, Failure(INCORRECT_PASSWORD))
      else (st.(current := Some(user.email)), Success)
  }

  /** `logout`: forget the current user; the table is untouched. */
  function LogoutStep(st: Store): (r: Store)
    ensures r.users == st.users && r.current == None
  {
    st.(current := None)
  }

  /** `updateProfile`: refuse an unknown email, otherwise change the three profile columns of its row. */
  function UpdateProfileStep(st: Store, email: string, username: string, targetYear: int, avatarUrl: Option<string>): (r: (Store, Outcome))
    ensures r.0.current == st.current
    ensures r.1.Success? <==> email in st.users
    ensures r.1.Failure? ==> r.1.message == NO_ACCOUNT && r.0 == st
    ensures r.1.Success? ==> r.0.users == WithProfile(st.users, email, username, targetYear, avatarUrl)
  {
    match Lookup(st.users, email)
    case None => (st, Failure(NO_ACCOUNT))
    case Some(_) => (st.(users := WithProfile(st.users, email, username, targetYear, avatarUrl)), Success)
  }

  // ---------------------------------------------------------------------
  // Properties relating the operations
  // ---------------------------------------------------------------------

  /** Round trip: the password just registered logs in, to the same account, from any session state. */
  lemma RegisterThenLogin(st: Store, hash: string -> string, email: string, username: string, targetYear: int,
                          password: string, salt: string, now: int, session: Option<string>)
    requires RegisterStep(st, hash, email, username, targetYear, password, salt, now).1.Success?
    ensures var after := RegisterStep(st, hash, email, username, targetYear, password, salt, now).0;
            LoginStep(after.(current := session), hash, email, password) == (after, Success)
  {
  }

  /** A login can only succeed with a password whose digest matches: a different digest is refused as incorrect. */
  lemma WrongPasswordIsRefused(st: Store, hash: string -> string, email: string, password: string)
    requires email in st.users
    requires PasswordHash(hash, password, st.users[email].salt) != st.users[email].passwordHash
    ensures LoginStep(st, hash, email, password) == (st, Failure(INCORRECT_PASSWORD))
  {
  }

  /** Registering a second time under the same email fails and changes nothing. */
  lemma RegisterTwiceFails(st: Store, hash: string -> string, email: string, username: string, targetYear: int,
                           password: string, salt: string, now: int,
                           username2: string, targetYear2: int, password2: string, salt2: string, now2: int)
    requires RegisterStep(st, hash, email, username, targetYear, password, salt, now).1.Success?
    ensures var after := RegisterStep(st, hash, email, username, targetYear, password, salt, now).0;
            RegisterStep(after, hash, email, username2, targetYear2, password2, salt2, now2) == (after, Failure(ACCOUNT_EXISTS))
  {
  }

  /** A profile update never changes who can log in: every login answers exactly as before. */
  lemma UpdateProfileKeepsCredentials(st: Store, hash: string -> string, email: string, username: string,
                                      targetYear: int, avatarUrl: Option<string>, who: string, password: string)
    ensures var after := UpdateProfileStep(st, email, username, targetYear, avatarUrl).0;
            LoginStep(after, hash, who, password).1 == LoginStep(st, hash, who, password).1
  {
  }

  /** Logging out and back in with the right password restores the session. */
  lemma LogoutThenLogin(st: Store, hash: string -> string, email: string, password: string)
    requires LoginStep(st, hash, email, password).1.Success?
    ensures LoginStep(LogoutStep(st), hash, email, password).0 == LoginStep(st, hash, email, password).0
  {
  }

  // ---------------------------------------------------------------------
  // The repository object
  // ---------------------------------------------------------------------

  class AuthRepository {
    const dao: UserDao
    /** The preference `current_user_email`, which `currentUserEmail` emits. */
    var currentUserEmail: Option<string>
    /** `hashPassword`'s digest and encoding, applied to `"<salt>:<password>"`. */
    const hash: string -> string

    ghost predicate Valid()
      reads this, dao
    {
      dao.Valid()
    }

    ghost function State(): Store
      reads this, dao
    {
      Store(dao.users, currentUserEmail)
    }

    constructor (dao: UserDao, hash: string -> string)
      requires dao.Valid()
      ensures Valid() && this.dao == dao && this.hash == hash && currentUserEmail == None
    {
      this.dao := dao;
      this.hash := hash;
      currentUserEmail := None;
    }

    /** `salt` stands for the random UUID and `now` for the clock read that fills `createdAt`. */
    method Register(email: string, username: string, targetYear: int, password: string, salt: string, now: int)
      returns (r: Outcome)
      requires Valid()
      modifies dao, this`currentUserEmail
      ensures Valid()
      ensures (State(), r) == RegisterStep(old(State()), hash, email, username, targetYear, password, salt, now)
    {
      var existing := dao.GetUserByEmail(email);
      if existing.Some? {
        return Failure(ACCOUNT_EXISTS);
      }
      var passwordHash := PasswordHash(hash, password, salt);
      var user := UserEntity(email, username, targetYear, passwordHash, salt, now, None);
      var ok := dao.InsertUser(user);
      assert ok;
      currentUserEmail := Some(email);
      r := Success;
    }

    method Login(email: string, password: string) returns (r: Outcome)
      requires Valid()
      modifies this`currentUserEmail
      ensures Valid()
      ensures (State(), r) == LoginStep(old(State()), hash, email, password)
    {
      var user := dao.GetUserByEmail(email);
      if user.None? {
        return Failure(NO_ACCOUNT_FOR_EMAIL);
      }
      var digest := PasswordHash(hash, password, user.value.salt);
      if digest != user.value.passwordHash {
        return Failure(INCORRECT_PASSWORD);
      }
      currentUserEmail := Some(user.value.email);
      r := Success;
    }

    method Logout()
      modifies this`currentUserEmail
      ensures State() == LogoutStep(old(State()))
    {
      currentUserEmail := None;
    }

    method GetUserByEmail(email: string) returns (r: Option<UserEntity>)
      requires Valid()
      ensures r == Lookup(dao.users, email)
    {
      r := dao.GetUserByEmail(email);
    }

    /** `avatarUrl` is `avatarUri?.toString()`. */
    method UpdateProfile(email: string, username: string, targetYear: int, avatarUrl: Option<string>)
      returns (r: Outcome)
      requires Valid()
      modifies dao
      ensures Valid()
      ensures (State(), r) == UpdateProfileStep(old(State()), email, username, targetYear, avatarUrl)
    {
      var existing := dao.GetUserByEmail(email);
      if existing.None? {
        return Failure(NO_ACCOUNT);
      }
      dao.UpdateProfile(email, username, targetYear, avatarUrl);
      r := Success;
    }
  }
}
