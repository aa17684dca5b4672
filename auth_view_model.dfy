/**
 * `AuthViewModel`: the `AuthUiState` record and the handlers that update it —
 * the session collector, login, register, logout, the two clear operations
 * and the profile update — each checking its inputs in a fixed order before
 * calling the repository. Also the file-name sanitiser used for avatars.
 */
module AuthUi {
  import opened Wrappers
  import opened Strings
  import opened UserStore
  import opened AuthRepo

  datatype AuthUiState = AuthUiState(
    isAuthenticated: bool,
    isLoading: bool,
    errorMessage: Option<string>,
    currentUserEmail: Option<string>,
    currentUserName: Option<string>,
    targetYear: Option<int>,
    createdAt: Option<int>,
    avatarUrl: Option<string>,
    isProfileSaving: bool,
    profileMessage: Option<string>,
    profileMessageIsError: bool)

  /** `AuthUiState()`: every default, so signed out and still loading. */
  const INITIAL_STATE: AuthUiState :=
    AuthUiState(false, true, None, None, None, None, None, None, false, None, false)

  const INVALID_EMAIL: string := "Please enter a valid email"
  const EMPTY_PASSWORD: string := "Password cannot be empty"
  const ENTER_NAME: string := "Please enter your name"
  const INVALID_TARGET_YEAR: string := "Please enter a valid target year"
  const SHORT_PASSWORD: string := "Password should be at least 6 characters"
  const SESSION_EXPIRED: string := "Session expired, please sign in again"
  const LOGIN_FAILED: string := "Login failed"
  const REGISTRATION_FAILED: string := "Registration failed"
  const PROFILE_YEAR_RANGE: string := "Enter a valid target year (2024-2100)"
  const PROFILE_SIGNED_OUT: string := "You need to be signed in to edit the profile"
  const PROFILE_UPDATED: string := "Profile updated"
  const PROFILE_UPDATE_FAILED: string := "Unable to update profile"

  /** The accepted target years, `2024..2100`. */
  const MIN_TARGET_YEAR: int := 2024
  const MAX_TARGET_YEAR: int := 2100
  const MIN_PASSWORD_LENGTH: nat := 6

  predicate InYearRange(y: int) {
    MIN_TARGET_YEAR <= y <= MAX_TARGET_YEAR
  }

  /** A target-year input that parses as an `Int` inside the accepted range. */
  predicate YearInputOk(input: string) {
    ToIntOrNull(input).Some? && InYearRange(ToIntOrNull(input).value)
  }

  /** Kotlin's result of a check: the accepted value, or the message of the first check that failed. */
  datatype Checked<T> = Accepted(value: T) | Rejected(message: string)

  // ---------------------------------------------------------------------
  // Validation, in the handlers' order
  // ---------------------------------------------------------------------

  /** The email check both forms share: non-blank and matched by the email pattern. */
  predicate EmailOk(isEmail: string -> bool, email: string) {
    !IsBlank(email) && isEmail(email)
  }

  /** `login`'s guards: the email first, then a non-blank password. */
  function CheckLogin(isEmail: string -> bool, email: string, password: string): (r: Checked<()>)
    ensures r.Accepted? <==> EmailOk(isEmail, email) && !IsBlank(password)
    ensures r == Rejected(INVALID_EMAIL) <==> !EmailOk(isEmail, email)
    ensures r == Rejected(EMPTY_PASSWORD) <==> EmailOk(isEmail, email) && IsBlank(password)
  {
    if !EmailOk(isEmail, email) then Rejected(INVALID_EMAIL)
    else if IsBlank(password) then Rejected(EMPTY_PASSWORD)
    else Accepted(())
  }

  /**
   * `register`'s guards, the first failure deciding the message: email,
   * name, target year, password length. Accepted with the parsed year.
   */
  function CheckRegister(isEmail: string -> bool, email: string, username: string, yearInput: string,
                         password: string): (r: Checked<int>)
    ensures r.Accepted? <==>
              EmailOk(isEmail, email) && !IsBlank(username) && YearInputOk(yearInput)
              && |password| >= MIN_PASSWORD_LENGTH
    ensures r.Accepted? ==> ToIntOrNull(yearInput) == Some(r.value) && InYearRange(r.value)
    ensures r == Rejected(INVALID_EMAIL) <==> !EmailOk(isEmail, email)
    ensures r == Rejected(ENTER_NAME) <==> EmailOk(isEmail, email) && IsBlank(username)
    ensures r == Rejected(INVALID_TARGET_YEAR) <==>
              EmailOk(isEmail, email) && !IsBlank(username) && !YearInputOk(yearInput)
    ensures r == Rejected(SHORT_PASSWORD) <==>
              EmailOk(isEmail, email) && !IsBlank(username) && YearInputOk(yearInput)
              && |password| < MIN_PASSWORD_LENGTH
  {
    if !EmailOk(isEmail, email) then Rejected(INVALID_EMAIL)
    else if IsBlank(username) then Rejected(ENTER_NAME)
    else if !YearInputOk(yearInput) then Rejected(INVALID_TARGET_YEAR)
    else if |password| < MIN_PASSWORD_LENGTH then Rejected(SHORT_PASSWORD)
    else Accepted(ToIntOrNull(yearInput).value)
  }

  /**
   * The profile update's year: the parsed input, else the year already in
   * the state, else 2024 when an avatar was picked, else none.
   */
  function ResolveYear(yearInput: string, current: Option<int>, hasAvatar: bool): (r: Option<int>)
    ensures ToIntOrNull(yearInput).Some? ==> r == ToIntOrNull(yearInput)
    ensures ToIntOrNull(yearInput).None? && current.Some? ==> r == current
    ensures ToIntOrNull(yearInput).None? && current.None? ==> (r.Some? <==> hasAvatar)
    ensures r.Some? && ToIntOrNull(yearInput).None? && current.None? ==> r.value == MIN_TARGET_YEAR
  {
    match ToIntOrNull(yearInput)
    case Some(y) => Some(y)
    case None =>
      match current
      case Some(y) => Some(y)
      case None => if hasAvatar then Some(MIN_TARGET_YEAR) else None
  }

  /**
   * `updateProfile`'s guards, in order: a non-blank trimmed name, a resolved
   * year in range, a signed-in email. Accepted with (trimmed name, year, email).
   */
  function CheckProfile(s: AuthUiState, name: string, yearInput: string, hasAvatar: bool): (r: Checked<(string, int, string)>)
    ensures r.Accepted? <==>
              && !IsBlank(name)
              && ResolveYear(yearInput, s.targetYear, hasAvatar).Some?
              && InYearRange(ResolveYear(yearInput, s.targetYear, hasAvatar).value)
              && s.currentUserEmail.Some? && !IsBlank(s.currentUserEmail.value)
    ensures r.Accepted? ==>
              && r.value.0 == Trim(name) && !IsBlank(r.value.0)
              && Some(r.value.1) == ResolveYear(yearInput, s.targetYear, hasAvatar) && InYearRange(r.value.1)
              && Some(r.value.2) == s.currentUserEmail
    ensures r == Rejected(ENTER_NAME) <==> IsBlank(name)
    ensures r == Rejected(PROFILE_YEAR_RANGE) <==>
              !IsBlank(name) && !(ResolveYear(yearInput, s.targetYear, hasAvatar).Some?
                                  && InYearRange(ResolveYear(yearInput, s.targetYear, hasAvatar).value))
    ensures r == Rejected(PROFILE_SIGNED_OUT) <==>
              && !IsBlank(name)
              && ResolveYear(yearInput, s.targetYear, hasAvatar).Some?
              && InYearRange(ResolveYear(yearInput, s.targetYear, hasAvatar).value)
              && (s.currentUserEmail.None? || IsBlank(s.currentUserEmail.value))
  {
    var trimmedName := Trim(name);
    TrimKeepsNonBlank(name);
    var year := ResolveYear(yearInput, s.targetYear, hasAvatar);
    if IsBlank(trimmedName) then Rejected(ENTER_NAME)
    else if year.None? || !InYearRange(year.value) then Rejected(PROFILE_YEAR_RANGE)
    else if s.currentUserEmail.None? || IsBlank(s.currentUserEmail.value) then Rejected(PROFILE_SIGNED_OUT)
    else Accepted((trimmedName, year.value, s.currentUserEmail.value))
  }

  // ---------------------------------------------------------------------
  // State updates
  // ---------------------------------------------------------------------

  /** `setError`: show the message and stop loading; nothing else changes. */
  function WithError(s: AuthUiState, message: string): (r: AuthUiState)
    ensures r.errorMessage == Some(message) && !r.isLoading
    ensures r.(errorMessage := s.errorMessage, isLoading := s.isLoading) == s
  {
    s.(errorMessage := Some(message), isLoading := false)
  }

  /** A profile guard's rejection: an error-styled profile message; nothing is saved. */
  function WithProfileError(s: AuthUiState, message: string): (r: AuthUiState)
    ensures r.profileMessage == Some(message) && r.profileMessageIsError
    ensures r.(profileMessage := s.profileMessage, profileMessageIsError := s.profileMessageIsError) == s
  {
    s.(profileMessage := Some(message), profileMessageIsError := true)
  }

  /**
   * The result fold after `repository.login` or `register`: success
   * authenticates and clears every message; failure shows the exception's
   * message, or `fallback` when it has none.
   */
  function AfterAuthCall(s: AuthUiState, succeeded: bool, failure: Option<string>, fallback: string): (r: AuthUiState)
    ensures !r.isLoading && !r.isProfileSaving == (succeeded || !s.isProfileSaving)
    ensures succeeded ==> r.isAuthenticated && r.errorMessage == None && r.profileMessage == None && !r.profileMessageIsError
    ensures !succeeded ==> r.isAuthenticated == s.isAuthenticated && r.errorMessage == Some(failure.GetOr(fallback))
    ensures r.currentUserEmail == s.currentUserEmail && r.avatarUrl == s.avatarUrl
    ensures succeeded ==>
              r.(isAuthenticated := s.isAuthenticated, isLoading := s.isLoading, errorMessage := s.errorMessage,
                 isProfileSaving := s.isProfileSaving, profileMessage := s.profileMessage,
                 profileMessageIsError := s.profileMessageIsError) == s
    ensures !succeeded ==> r.(isLoading := s.isLoading, errorMessage := s.errorMessage) == s
  {
    if succeeded then
      s.(isAuthenticated := true, isLoading := false, errorMessage := None,
         isProfileSaving := false, profileMessage := None, profileMessageIsError := false)
    else s.(isLoading := false, errorMessage := Some(failure.GetOr(fallback)))
  }

  /** The Kotlin failure message a repository outcome carries. */
  function FailureMessage(r: Outcome): Option<string> {
    if r.Failure? then Some(r.message) else None
  }

  /**
   * The `currentUserEmail` collector: a session whose user is gone is
   * expired, with the preference's avatar kept for display; otherwise the
   * state mirrors the session's user, signed in exactly when the email is
   * non-empty.
   */
  function SessionState(s: AuthUiState, email: Option<string>, user: Option<UserEntity>, prefAvatar: Option<string>): (r: AuthUiState)
    requires email.None? ==> user.None? && prefAvatar.None?
    ensures !r.isLoading && !r.isProfileSaving && r.profileMessage == None && !r.profileMessageIsError
    ensures r.errorMessage.Some? <==> email.Some? && user.None?
    ensures r.errorMessage.Some? ==> r.errorMessage == Some(SESSION_EXPIRED) && r.avatarUrl == prefAvatar
    ensures r.isAuthenticated <==> email.Some? && user.Some? && email.value != ""
    ensures r.isAuthenticated ==>
              && r.currentUserEmail == email
              && r.currentUserName == Some(user.value.username)
              && r.targetYear == Some(user.value.targetYear)
              && r.createdAt == Some(user.value.createdAt)
    ensures email.None? ==>
              && r.currentUserEmail == None && r.currentUserName == None
              && r.targetYear == None && r.createdAt == None && r.avatarUrl == None
    ensures email.Some? && user.None? ==>
              && r.currentUserEmail == None && r.currentUserName == None
              && r.targetYear == None && r.createdAt == None
    ensures user.Some? ==>
              && r.currentUserEmail == email
              && r.currentUserName == Some(user.value.username)
              && r.targetYear == Some(user.value.targetYear)
              && r.createdAt == Some(user.value.createdAt)
              && r.avatarUrl == (if user.value.avatarUrl.Some? then user.value.avatarUrl else prefAvatar)
  {
    if email.Some? && user.None? then
      s.(isAuthenticated := false, currentUserEmail := None, currentUserName := None, targetYear := None,
         createdAt := None, avatarUrl := prefAvatar, isLoading := false, errorMessage := Some(SESSION_EXPIRED),
         isProfileSaving := false, profileMessage := None, profileMessageIsError := false)
    else
      var avatar := if user.Some? && user.value.avatarUrl.Some? then user.value.avatarUrl else prefAvatar;
      s.(isAuthenticated := email.Some? && email.value != "", currentUserEmail := email,
         currentUserName := if user.Some? then Some(user.value.username) else None,
         targetYear := if user.Some? then Some(user.value.targetYear) else None,
         createdAt := if user.Some? then Some(user.value.createdAt) else None,
         avatarUrl := avatar, isLoading := false, errorMessage := None,
         isProfileSaving := false, profileMessage := None, profileMessageIsError := false)
  }

  /** `logout`'s update: signed out, the user fields and profile messages cleared, the avatar kept. */
  function LoggedOut(s: AuthUiState): (r: AuthUiState)
    ensures !r.isAuthenticated && r.currentUserEmail == None && r.currentUserName == None
    ensures r.targetYear == None && r.createdAt == None
    ensures !r.isProfileSaving && r.profileMessage == None && !r.profileMessageIsError
    ensures r.avatarUrl == s.avatarUrl && r.errorMessage == s.errorMessage && r.isLoading == s.isLoading
  {
    s.(isAuthenticated := false, currentUserEmail := None, currentUserName := None, targetYear := None,
       createdAt := None, isProfileSaving := false, profileMessage := None, profileMessageIsError := false)
  }

  /**
   * The avatar `updateProfile` persists: the copied file when a new picture
   * was chosen and the copy worked, else the avatar already shown.
   */
  function AvatarToPersist(s: AuthUiState, avatarUri: Option<string>, copied: Option<string>): (r: Option<string>)
    ensures avatarUri.Some? && copied.Some? ==> r == copied
    ensures avatarUri.None? || copied.None? ==> r == s.avatarUrl
  {
    if avatarUri.Some? && copied.Some? then copied else s.avatarUrl
  }

  /**
   * The result fold after `repository.updateProfile`: on success the
   * refreshed row (or, failing that, the values sent) and "Profile updated";
   * on failure the message and the avatar sent.
   */
  function AfterProfileCall(s: AuthUiState, succeeded: bool, failure: Option<string>, refreshed: Option<UserEntity>,
                            name: string, year: int, avatar: Option<string>): (r: AuthUiState)
    ensures !r.isProfileSaving && (r.profileMessageIsError <==> !succeeded)
    ensures succeeded ==> r.profileMessage == Some(PROFILE_UPDATED)
    ensures succeeded && refreshed.None? ==> r.currentUserName == Some(name) && r.targetYear == Some(year)
    ensures succeeded && refreshed.Some? ==>
              r.currentUserName == Some(refreshed.value.username) && r.targetYear == Some(refreshed.value.targetYear)
    ensures !succeeded ==> r.profileMessage == Some(failure.GetOr(PROFILE_UPDATE_FAILED))
    ensures !succeeded ==> r.currentUserName == s.currentUserName && r.targetYear == s.targetYear
    ensures avatar.Some? && (refreshed.None? || refreshed.value.avatarUrl.None?) ==> r.avatarUrl == avatar
    ensures r.isAuthenticated == s.isAuthenticated && r.currentUserEmail == s.currentUserEmail
    ensures succeeded && refreshed.Some? && refreshed.value.avatarUrl.Some? ==> r.avatarUrl == refreshed.value.avatarUrl
    ensures !succeeded && avatar.Some? ==> r.avatarUrl == avatar
    ensures avatar.None? && !(succeeded && refreshed.Some? && refreshed.value.avatarUrl.Some?) ==> r.avatarUrl == s.avatarUrl
    ensures r.(currentUserName := s.currentUserName, targetYear := s.targetYear, avatarUrl := s.avatarUrl,
               isProfileSaving := s.isProfileSaving, profileMessage := s.profileMessage,
               profileMessageIsError := s.profileMessageIsError) == s
  {
    var kept := if avatar.Some? then avatar else s.avatarUrl;
    if succeeded then
      s.(currentUserName := Some(if refreshed.Some? then refreshed.value.username else name),
         targetYear := Some(if refreshed.Some? then refreshed.value.targetYear else year),
         avatarUrl := if refreshed.Some? && refreshed.value.avatarUrl.Some? then refreshed.value.avatarUrl else kept,
         isProfileSaving := false, profileMessage := Some(PROFILE_UPDATED), profileMessageIsError := false)
    else
      s.(isProfileSaving := false, avatarUrl := kept,
         profileMessage := Some(failure.GetOr(PROFILE_UPDATE_FAILED)), profileMessageIsError := true)
  }

  // ---------------------------------------------------------------------
  // The avatar file name
  // ---------------------------------------------------------------------

  /** The characters `[A-Za-z0-9._-]` that survive in a file name. */
  predicate IsSafeChar(c: char) {
    'A' <= c <= 'Z' || 'a' <= c <= 'z' || '0' <= c <= '9' || c == '.' || c == '_' || c == '-'
  }

  /** `email.replace(Regex("[^A-Za-z0-9._-]"), "_")`: every other character becomes `_`, position by position. */
  function SafeName(email: string): (r: string)
    ensures |r| == |email|
    ensures forall i | 0 <= i < |r| :: IsSafeChar(r[i])
    ensures forall i | 0 <= i < |r| :: r[i] == if IsSafeChar(email[i]) then email[i] else '_'
  {
    seq(|email|, i requires 0 <= i < |email| => if IsSafeChar(email[i]) then email[i] else '_')
  }

  /** An email already made of safe characters is its own safe name, so sanitising twice is sanitising once. */
  lemma SafeNameKeepsSafe(email: string)
    requires forall i | 0 <= i < |email| :: IsSafeChar(email[i])
    ensures SafeName(email) == email
  {
  }

  /** The avatar file written for `email`: `avatar_<safeName>.jpg`. */
  function AvatarFileName(email: string): (r: string)
    ensures StartsWith(r, "avatar_") && |r| == |email| + 11
    ensures r[7..|r| - 4] == SafeName(email) && r[|r| - 4..] == ".jpg"
  {
    "avatar_" + SafeName(email) + ".jpg"
  }

  // ---------------------------------------------------------------------
  // Properties across handlers
  // ---------------------------------------------------------------------

  /**
   * As written, `register` checks only the password's length, while `login`
   * refuses a blank password: six spaces register but can never log in again.
   */
  lemma BlankPasswordRegistersButCannotLogIn(isEmail: string -> bool, email: string)
    requires EmailOk(isEmail, email)
    ensures CheckRegister(isEmail, email, "Asha", "2030", "      ").Accepted?
    ensures CheckLogin(isEmail, email, "      ") == Rejected(EMPTY_PASSWORD)
  {
    assert !IsBlank("Asha") by { assert !IsWhitespace("Asha"[0]); }
    assert YearInputOk("2030") by {
      assert DigitsValue("2030") == 2030 by {
        assert "2030"[..3] == "203" && "203"[..2] == "20" && "20"[..1] == "2";
      }
    }
  }

  /**
   * `register`'s guards with the blank-password check `login` applies added
   * after the length check, so that every accepted password can log in.
   */
  function CheckRegisterFixed(isEmail: string -> bool, email: string, username: string, yearInput: string,
                              password: string): (r: Checked<int>)
    ensures r.Accepted? <==> CheckRegister(isEmail, email, username, yearInput, password).Accepted? && !IsBlank(password)
    ensures r.Accepted? ==> r == CheckRegister(isEmail, email, username, yearInput, password)
    ensures r.Rejected? && r.message != EMPTY_PASSWORD ==> r == CheckRegister(isEmail, email, username, yearInput, password)
  {
    var written := CheckRegister(isEmail, email, username, yearInput, password);
    if written.Accepted? && IsBlank(password) then Rejected(EMPTY_PASSWORD) else written
  }

  /** With the fix, whatever registration accepts, login's guards accept too. */
  lemma RegisterAcceptedLoginAccepted(isEmail: string -> bool, email: string, username: string, yearInput: string, password: string)
    requires CheckRegisterFixed(isEmail, email, username, yearInput, password).Accepted?
    ensures CheckLogin(isEmail, email, password).Accepted?
  {
  }

  /**
   * Logging out keeps the avatar, but the session emission that follows
   * (no email) clears it: the signed-out state shows no avatar.
   */
  lemma LogoutThenSessionClearsAvatar(s: AuthUiState)
    ensures var r := SessionState(LoggedOut(s), None, None, None);
            !r.isAuthenticated && r.currentUserEmail == None && r.avatarUrl == None && r.errorMessage == None
  {
  }

  /** A stored target year inside the range satisfies the year guard even when the field is left unparsable. */
  lemma StoredYearSuffices(s: AuthUiState, name: string, yearInput: string, hasAvatar: bool)
    requires !IsBlank(name) && ToIntOrNull(yearInput).None?
    requires s.targetYear.Some? && InYearRange(s.targetYear.value)
    requires s.currentUserEmail.Some? && !IsBlank(s.currentUserEmail.value)
    ensures CheckProfile(s, name, yearInput, hasAvatar) == Accepted((Trim(name), s.targetYear.value, s.currentUserEmail.value))
  {
  }

  // ---------------------------------------------------------------------
  // The view model
  // ---------------------------------------------------------------------

  class AuthViewModel {
    var state: AuthUiState
    const repository: AuthRepository
    /** `Patterns.EMAIL_ADDRESS.matcher(email).matches()`. */
    const isEmail: string -> bool

    ghost predicate Valid()
      reads this, repository, repository.dao
    {
      repository.Valid()
    }

    constructor (repository: AuthRepository, isEmail: string -> bool)
      requires repository.Valid()
      ensures Valid() && state == INITIAL_STATE
      ensures this.repository == repository && this.isEmail == isEmail
    {
      this.repository := repository;
      this.isEmail := isEmail;
      state := INITIAL_STATE;
    }

    /**
     * One emission of `currentUserEmail`. `prefAvatar` is the avatar stored
     * for that email in preferences (null when there is no email).
     */
    method OnSessionEmail(prefAvatar: Option<string>)
      requires Valid()
      requires repository.currentUserEmail.None? ==> prefAvatar.None?
      modifies this`state, repository`currentUserEmail
      ensures Valid()
      ensures var email := old(repository.currentUserEmail);
              var user := if email.Some? then Lookup(repository.dao.users, email.value) else None;
              && state == SessionState(old(state), email, user, prefAvatar)
              && repository.currentUserEmail == (if email.Some? && user.None? then None else email)
    {
      var email := repository.currentUserEmail;
      var user: Option<UserEntity> := None;
      if email.Some? {
        user := repository.GetUserByEmail(email.value);
      }
      if email.Some? && user.None? {
        repository.Logout();
      }
      state := SessionState(state, email, user, prefAvatar);
    }

    method Login(email: string, password: string)
      requires Valid()
      modifies this`state, repository`currentUserEmail
      ensures Valid()
      ensures CheckLogin(isEmail, email, password).Rejected? ==>
                state == WithError(old(state), CheckLogin(isEmail, email, password).message)
                && repository.currentUserEmail == old(repository.currentUserEmail)
      ensures CheckLogin(isEmail, email, password).Accepted? ==>
                var step := LoginStep(old(repository.State()), repository.hash, Trim(email), password);
                && repository.State() == step.0
                && state == AfterAuthCall(old(state), step.1.Success?, FailureMessage(step.1), LOGIN_FAILED)
    {
      var check := CheckLogin(isEmail, email, password);
      if check.Rejected? {
        state := WithError(state, check.message);
        return;
      }
      var result := repository.Login(Trim(email), password);
      state := AfterAuthCall(state, result.Success?, FailureMessage(result), LOGIN_FAILED);
    }

    /**
     * The as-written `register`: the length-only password check, so a
     * password of six spaces reaches the repository. `salt` and `now` are
     * passed through to the repository's registration.
     */
    method Register(email: string, username: string, yearInput: string, password: string, salt: string, now: int)
      requires Valid()
      modifies this`state, repository`currentUserEmail, repository.dao
      ensures Valid()
      ensures CheckRegister(isEmail, email, username, yearInput, password).Rejected? ==>
                state == WithError(old(state), CheckRegister(isEmail, email, username, yearInput, password).message)
                && repository.State() == old(repository.State())
      ensures CheckRegister(isEmail, email, username, yearInput, password).Accepted? ==>
                var year := CheckRegister(isEmail, email, username, yearInput, password).value;
                var step := RegisterStep(old(repository.State()), repository.hash, Trim(email), Trim(username),
                                         year, password, salt, now);
                && repository.State() == step.0
                && state == AfterAuthCall(old(state), step.1.Success?, FailureMessage(step.1), REGISTRATION_FAILED)
    {
      var check := CheckRegister(isEmail, email, username, yearInput, password);
      if check.Rejected? {
        state := WithError(state, check.message);
        return;
      }
      var result := repository.Register(Trim(email), Trim(username), check.value, password, salt, now);
      state := AfterAuthCall(state, result.Success?, FailureMessage(result), REGISTRATION_FAILED);
    }

    method Logout()
      requires Valid()
      modifies this`state, repository`currentUserEmail
      ensures Valid()
      ensures repository.currentUserEmail == None
      ensures state == LoggedOut(old(state))
    {
      repository.Logout();
      state := LoggedOut(state);
    }

    method ClearError()
      modifies this`state
      ensures state == old(state).(errorMessage := None)
    {
      state := state.(errorMessage := None);
    }

    method ClearProfileMessage()
      modifies this`state
      ensures state == old(state).(profileMessage := None, profileMessageIsError := false)
    {
      state := state.(profileMessage := None, profileMessageIsError := false);
    }

    /**
     * `avatarUri` is the newly picked picture, if any; `copied` is what
     * copying it into app storage yielded (the file's URI, or null when the
     * copy failed).
     */
    method UpdateProfile(name: string, yearInput: string, avatarUri: Option<string>, copied: Option<string>)
      requires Valid()
      modifies this`state, repository.dao
      ensures Valid()
      ensures CheckProfile(old(state), name, yearInput, avatarUri.Some?).Rejected? ==>
                state == WithProfileError(old(state), CheckProfile(old(state), name, yearInput, avatarUri.Some?).message)
                && repository.dao.users == old(repository.dao.users)
      ensures CheckProfile(old(state), name, yearInput, avatarUri.Some?).Accepted? ==>
                var (trimmedName, year, email) := CheckProfile(old(state), name, yearInput, avatarUri.Some?).value;
                var avatar := AvatarToPersist(old(state), avatarUri, copied);
                var step := UpdateProfileStep(old(repository.State()), email, trimmedName, year, avatar);
                && repository.State() == step.0
                && state == AfterProfileCall(old(state), step.1.Success?, FailureMessage(step.1),
                                             if step.1.Success? then Lookup(step.0.users, email) else None,
                                             trimmedName, year, avatar)
    {
      var check := CheckProfile(state, name, yearInput, avatarUri.Some?);
      if check.Rejected? {
        state := WithProfileError(state, check.message);
        return;
      }
      var (trimmedName, year, email) := check.value;
      var avatar := AvatarToPersist(state, avatarUri, copied);
      var result := repository.UpdateProfile(email, trimmedName, year, avatar);
      var refreshed: Option<UserEntity> := None;
      if result.Success? {
        refreshed := repository.GetUserByEmail(email);
      }
      state := AfterProfileCall(state, result.Success?, FailureMessage(result), refreshed, trimmedName, year, avatar);
    }
  }
}
