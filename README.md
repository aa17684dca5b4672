# Dream IAS Elite — a verified model of the app's core rules

Dream IAS Elite is an Android app (Kotlin, Jetpack Compose) for UPSC civil-services
aspirants. Behind its screens sit a small local account system and a handful of
deterministic state machines and rules. This project models them in Dafny and proves
what they guarantee:

- **Accounts.** A Room table of users keyed by email (`UserDao`, `UserEntity`). A
  repository registers, logs in, logs out and updates profiles against that table and a
  "current user" preference, with a salted password hash (`AuthRepository`).
- **Auth state.** `AuthViewModel`'s `AuthUiState` and its transitions: session
  restoration, the ordered input checks of login, register and profile update, success
  and failure updates, logout, and the clear operations. Also the avatar file name's
  sanitiser.
- **App shell.** What the root shows for each auth state, the bottom bar's root-route
  rule and selection, the top-bar title table, the drawer header fallbacks, drawer
  clicks, and the logout dialog (`MainActivity`).
- **Timed tests.** The question pools and their selection by subject keyword, the test
  session (answers, bookmarks, cursor, a 600-second countdown that submits at zero), the
  timer display, and the score (`TestSubjectScreen`).
- **Study planner.** The task list with toggle, add and edit, their guards and
  defaults, and the completed count (`StudyPlannerScreen`).
- **Notes.** The search filter, the cycling tip card, the reference-book catalogue, and
  the units lookup (`NotesScreen`).
- **Previous-year questions.** The tab filter, the paper list and its view actions, the
  paper-detail lookup, and the PDF export's line and page layout (`PyqScreen`).
- **Profile.** The header's display name, initials and fallbacks, the edit sheet's field
  filtering, validation and Save, and the requests sent for a new photo
  (`ProfileScreen`).

There is one module per source file:

- `TestSubject`, `StudyPlanner`, `UserStore`, `AuthRepo`, `AuthUi`, `MainShell`,
  `Notes`, `Pyq` and `Profile` model the source files.
- `Wrappers` (Kotlin's nullable `T?` as `Option`), `Strings` (the Kotlin string
  functions the app calls) and `Sequences` (order-preserving subsequences) are shared.

State that the source changes in place becomes a class with `modifies` clauses. Each
class method is specified by a pure function of the old state, and the lemmas about
those functions state what the app promises. Examples:

- `UserStore.UserDao.InsertUser` is specified by `UserStore.Insert`.
- `AuthRepo.AuthRepository.Login` is specified by `AuthRepo.LoginStep`.
- `Pyq.OpenPaperPdf` is proved against `Pyq.PdfLines` and `Pyq.PageCount`.

All source paths below are relative to the repository root.

## Model

| member | source | states |
|---|---|---|
| Strings.Trim | app/src/main/java/com/app/dreamiaselite/ui/screen/screens/studyplanner/StudyPlannerScreen.kt:155-156 | `trim()` removes whitespace at both ends: the result is empty exactly when the input is blank, otherwise starts and ends with a visible character, and is never longer than the input |
| Strings.TrimIsInfix | app/src/main/java/com/app/dreamiaselite/ui/screen/screens/studyplanner/StudyPlannerScreen.kt:155-156 | the trimmed string is the infix `s[i..j]` of the input, and every character outside it is whitespace |
| Strings.TrimIdempotent | app/src/main/java/com/app/dreamiaselite/ui/screen/screens/studyplanner/StudyPlannerScreen.kt:155-156 | trimming twice gives the same string as trimming once |
| Strings.TrimKeepsNonBlank | app/src/main/java/com/app/dreamiaselite/ui/screen/screens/auth/AuthViewModel.kt:196-197 | a trimmed string is blank exactly when the original is blank, so "trim, then check blank" agrees with "check blank" |
| Strings.OrIfBlank | app/src/main/java/com/app/dreamiaselite/MainActivity.kt:362-363 | `value?.ifBlank { null } ?: fallback`: the value when it is present and not blank, else the fallback |
| Strings.DigitsOnly | app/src/main/java/com/app/dreamiaselite/ui/screen/screens/profile/ProfileScreen.kt:366 | `filter { it.isDigit() }` keeps every digit of the input, in order, and drops everything else: the result is all digits, is a subsequence of the input, and holds each digit as often as the input does |
| Strings.DigitsOnlyIdempotent | app/src/main/java/com/app/dreamiaselite/ui/screen/screens/profile/ProfileScreen.kt:366 | filtering an already filtered field changes nothing |
| Strings.ToIntOrNull | app/src/main/java/com/app/dreamiaselite/ui/screen/screens/auth/AuthViewModel.kt:133 | `toIntOrNull()`: a digit string, or `+`/`-` followed by one, parses to its decimal value (negated after `-`) when that fits Kotlin's `Int`, and to null otherwise; every other input is null |
| Strings.IntToStringRoundTrip | app/src/main/java/com/app/dreamiaselite/ui/screen/screens/profile/ProfileScreen.kt:62 | for every Kotlin `Int`, `i.toString().toIntOrNull() == i` |
| Strings.Split | app/src/main/java/com/app/dreamiaselite/ui/screen/screens/profile/ProfileScreen.kt:60 | `split(" ")`: at least one piece, and no piece contains the separator |
| Strings.SplitJoin | app/src/main/java/com/app/dreamiaselite/ui/screen/screens/profile/ProfileScreen.kt:60 | splitting loses nothing: joining the pieces with the separator gives back the original string |
| TestSubject.Score | app/src/main/java/com/app/dreamiaselite/ui/screen/screens/tests/TestSubjectScreen.kt:779-781 | the score never exceeds the number of questions |
| TestSubject.CountCorrectIsCardinality | app/src/main/java/com/app/dreamiaselite/ui/screen/screens/tests/TestSubjectScreen.kt:779-781 | the running count equals the size of the set of indices answered with the correct option |
| TestSubject.ScoreCountsCorrectAnswers | app/src/main/java/com/app/dreamiaselite/ui/screen/screens/tests/TestSubjectScreen.kt:779-781 | the score is exactly the number of indices `i` with `selected[i] == questions[i].correctIndex` |
| TestSubject.PerfectScoreIff | app/src/main/java/com/app/dreamiaselite/ui/screen/screens/tests/TestSubjectScreen.kt:779-781 | full marks if and only if every question is answered correctly |
| TestSubject.UnansweredScoresZero | app/src/main/java/com/app/dreamiaselite/ui/screen/screens/tests/TestSubjectScreen.kt:779-781 | a null answer never counts, so an unanswered test scores 0 |
| TestSubject.OneAnswerMovesScoreByAtMostOne | app/src/main/java/com/app/dreamiaselite/ui/screen/screens/tests/TestSubjectScreen.kt:157 | changing one answer changes the score by at most one |
| TestSubject.TimerParts | app/src/main/java/com/app/dreamiaselite/ui/screen/screens/tests/TestSubjectScreen.kt:200-201 | `minutes = t / 60`, `seconds = t % 60`: seconds are below 60, and `minutes * 60 + seconds == t` |
| TestSubject.Pad2TwoDigits | app/src/main/java/com/app/dreamiaselite/ui/screen/screens/tests/TestSubjectScreen.kt:208 | `%02d` of a value below 100 is two digits that read back as the value |
| TestSubject.TimerText | app/src/main/java/com/app/dreamiaselite/ui/screen/screens/tests/TestSubjectScreen.kt:199-210 | `%02d:%02d` of `t / 60` and `t % 60`: at least five characters, a colon third from the end, and the last two characters are digits reading back as the seconds `t % 60` |
| TestSubject.TimerTextReadsBack | app/src/main/java/com/app/dreamiaselite/ui/screen/screens/tests/TestSubjectScreen.kt:199-210 | for a time under 100 minutes the pill shows five characters `mm:ss`, and the two digit fields read back as minutes and seconds adding up to the time left |
| TestSubject.Take | app/src/main/java/com/app/dreamiaselite/ui/screen/screens/tests/TestSubjectScreen.kt:316 | `take(n)` is a prefix of at most `n` elements, of exactly `n` when the list is long enough |
| TestSubject.GenerateQuestionsFor | app/src/main/java/com/app/dreamiaselite/ui/screen/screens/tests/TestSubjectScreen.kt:306-317 | a generated test has at most 10 questions |
| TestSubject.FirstKeywordFrom | app/src/main/java/com/app/dreamiaselite/ui/screen/screens/tests/TestSubjectScreen.kt:307-314 | the `when` picks the first keyword that the subject contains, ignoring case; no earlier keyword matches |
| TestSubject.GenerateUsesFirstMatchingKeyword | app/src/main/java/com/app/dreamiaselite/ui/screen/screens/tests/TestSubjectScreen.kt:306-317 | the test is the first 10 questions of the pool of the first matching keyword, in the order History, Geography, Polity, Economy, Environment, Science, with the general pool when none matches |
| TestSubject.BundledPoolsWellFormed | app/src/main/java/com/app/dreamiaselite/ui/screen/screens/tests/TestSubjectScreen.kt:319-758 | each of the seven bundled pools holds 10 questions, and every `correctIndex` is a valid index into its question's options |
| TestSubject.GeneratedTestShape | app/src/main/java/com/app/dreamiaselite/ui/screen/screens/tests/TestSubjectScreen.kt:77-82 | every subject gets exactly 10 questions, each with a valid correct index |
| TestSubject.TestSession.constructor | app/src/main/java/com/app/dreamiaselite/ui/screen/screens/tests/TestSubjectScreen.kt:77-84 | a session starts with 600 seconds, cursor 0, all answers null, no bookmarks, sized to the questions, and not completed |
| TestSubject.TestSession.Submit | app/src/main/java/com/app/dreamiaselite/ui/screen/screens/tests/TestSubjectScreen.kt:289-304 | submitting records the subject, questions, answers and `600 - timeLeft` as the time taken, and sets `completed` |
| TestSubject.TestSession.Select | app/src/main/java/com/app/dreamiaselite/ui/screen/screens/tests/TestSubjectScreen.kt:157 | choosing an option sets only `selected[currentIndex]` |
| TestSubject.TestSession.ToggleBookmark | app/src/main/java/com/app/dreamiaselite/ui/screen/screens/tests/TestSubjectScreen.kt:135 | the bookmark button flips only `bookmarks[currentIndex]` |
| TestSubject.TestSession.Previous | app/src/main/java/com/app/dreamiaselite/ui/screen/screens/tests/TestSubjectScreen.kt:168-169 | Previous is enabled only when the cursor is above 0, and then moves back by one |
| TestSubject.TestSession.Next | app/src/main/java/com/app/dreamiaselite/ui/screen/screens/tests/TestSubjectScreen.kt:180-185 | Next moves forward while the cursor is before the last question, and on the last question submits; the cursor stays in range |
| TestSubject.TestSession.Tick | app/src/main/java/com/app/dreamiaselite/ui/screen/screens/tests/TestSubjectScreen.kt:89-97 | one timer step: while not completed and time is left, the time drops by one, and reaching 0 submits with time taken 600 |
| TestSubject.TestSession.RunCountdown | app/src/main/java/com/app/dreamiaselite/ui/screen/screens/tests/TestSubjectScreen.kt:89-97 | the whole countdown loop ends completed; started uncompleted, it ends at 0 and records a time taken of 600 |
| StudyPlanner.CompletedCount | app/src/main/java/com/app/dreamiaselite/ui/screen/screens/studyplanner/StudyPlannerScreen.kt:58-61 | the completed count never exceeds the total |
| StudyPlanner.CompletedCountIsCardinality | app/src/main/java/com/app/dreamiaselite/ui/screen/screens/studyplanner/StudyPlannerScreen.kt:58-61 | it is the number of tasks whose `isDone` holds |
| StudyPlanner.SubtitleOrDefault | app/src/main/java/com/app/dreamiaselite/ui/screen/screens/studyplanner/StudyPlannerScreen.kt:149-156 | a blank subtitle becomes "Custom task", any other is trimmed; never blank |
| StudyPlanner.NewTask | app/src/main/java/com/app/dreamiaselite/ui/screen/screens/studyplanner/StudyPlannerScreen.kt:145-158 | a task is made exactly when the title is not blank: its title is trimmed and not blank, its subtitle defaulted, and it is not done |
| StudyPlanner.EditedTask | app/src/main/java/com/app/dreamiaselite/ui/screen/screens/studyplanner/StudyPlannerScreen.kt:254-262 | an edit applies exactly when the title is not blank, replacing title and subtitle and keeping `isDone` |
| StudyPlanner.ToggleMovesCompletedCount | app/src/main/java/com/app/dreamiaselite/ui/screen/screens/studyplanner/StudyPlannerScreen.kt:101-106 | toggling one task moves the completed count by exactly one, up or down |
| StudyPlanner.SameFlagKeepsCompletedCount | app/src/main/java/com/app/dreamiaselite/ui/screen/screens/studyplanner/StudyPlannerScreen.kt:254-265 | replacing a task by one with the same `isDone` keeps the completed count |
| StudyPlanner.AppendCompletedCount | app/src/main/java/com/app/dreamiaselite/ui/screen/screens/studyplanner/StudyPlannerScreen.kt:153-158 | appending a task adds one to the count exactly when it is done |
| StudyPlanner.WellFormedAfterUpdate | app/src/main/java/com/app/dreamiaselite/ui/screen/screens/studyplanner/StudyPlannerScreen.kt:148-158 | appending or replacing with a non-blank-titled task keeps every title non-blank |
| StudyPlanner.PlannerScreen.Counts | app/src/main/java/com/app/dreamiaselite/ui/screen/screens/studyplanner/StudyPlannerScreen.kt:58-61 | the header's completed/total pair, completed at most total |
| StudyPlanner.PlannerScreen.constructor | app/src/main/java/com/app/dreamiaselite/ui/screen/screens/studyplanner/StudyPlannerScreen.kt:64-71 | the list starts empty, with both dialogs and the picker closed and empty fields |
| StudyPlanner.PlannerScreen.TypeNewTitle | app/src/main/java/com/app/dreamiaselite/ui/screen/screens/studyplanner/StudyPlannerScreen.kt:132 | the add dialog's title field becomes exactly the typed text, nothing else changes |
| StudyPlanner.PlannerScreen.TypeNewSubtitle | app/src/main/java/com/app/dreamiaselite/ui/screen/screens/studyplanner/StudyPlannerScreen.kt:138 | the add dialog's subtitle field becomes exactly the typed text, nothing else changes |
| StudyPlanner.PlannerScreen.TypeEditTitle | app/src/main/java/com/app/dreamiaselite/ui/screen/screens/studyplanner/StudyPlannerScreen.kt:239 | the edit dialog's title field becomes exactly the typed text, nothing else changes |
| StudyPlanner.PlannerScreen.TypeEditSubtitle | app/src/main/java/com/app/dreamiaselite/ui/screen/screens/studyplanner/StudyPlannerScreen.kt:245 | the edit dialog's subtitle field becomes exactly the typed text, nothing else changes |
| StudyPlanner.PlannerScreen.ToggleTask | app/src/main/java/com/app/dreamiaselite/ui/screen/screens/studyplanner/StudyPlannerScreen.kt:101-106 | only `tasks[i].isDone` flips; the count moves by one |
| StudyPlanner.PlannerScreen.OpenAddDialog | app/src/main/java/com/app/dreamiaselite/ui/screen/screens/studyplanner/StudyPlannerScreen.kt:108 | the add button opens the add dialog |
| StudyPlanner.PlannerScreen.ConfirmAdd | app/src/main/java/com/app/dreamiaselite/ui/screen/screens/studyplanner/StudyPlannerScreen.kt:145-163 | a non-blank title appends exactly one new task; a blank one changes nothing; the fields reset and the dialog closes |
| StudyPlanner.PlannerScreen.CancelAdd | app/src/main/java/com/app/dreamiaselite/ui/screen/screens/studyplanner/StudyPlannerScreen.kt:169-174 | Cancel resets both fields and closes the dialog |
| StudyPlanner.PlannerScreen.DismissAdd | app/src/main/java/com/app/dreamiaselite/ui/screen/screens/studyplanner/StudyPlannerScreen.kt:124-125 | tapping outside closes the dialog |
| StudyPlanner.PlannerScreen.OpenEditPicker | app/src/main/java/com/app/dreamiaselite/ui/screen/screens/studyplanner/StudyPlannerScreen.kt:109-113 | the edit picker opens only when there is a task |
| StudyPlanner.PlannerScreen.PickTask | app/src/main/java/com/app/dreamiaselite/ui/screen/screens/studyplanner/StudyPlannerScreen.kt:194-199 | picking a task records its index, copies its title and subtitle into the fields, and swaps the picker for the edit dialog |
| StudyPlanner.PlannerScreen.CloseEditPicker | app/src/main/java/com/app/dreamiaselite/ui/screen/screens/studyplanner/StudyPlannerScreen.kt:220 | Close hides the picker |
| StudyPlanner.PlannerScreen.SaveEdit | app/src/main/java/com/app/dreamiaselite/ui/screen/screens/studyplanner/StudyPlannerScreen.kt:254-265 | with an index and a non-blank title, only that task's title and subtitle change; otherwise nothing; the index is always cleared |
| StudyPlanner.PlannerScreen.CloseEditDialog | app/src/main/java/com/app/dreamiaselite/ui/screen/screens/studyplanner/StudyPlannerScreen.kt:230-233 | dismissing or cancelling the edit dialog closes it and clears the index |
| UserStore.UserDao.constructor | app/src/main/java/com/app/dreamiaselite/data/local/UserDao.kt:8-9 | the `users` table starts empty |
| UserStore.Lookup | app/src/main/java/com/app/dreamiaselite/data/local/UserDao.kt:11-12 | `getUserByEmail` finds the row stored under the email, whose primary key is that email, or null |
| UserStore.Insert | app/src/main/java/com/app/dreamiaselite/data/local/UserDao.kt:14-15 | `insertUser` with `ABORT` fails exactly when the email is taken; otherwise it adds exactly that row |
| UserStore.Delete | app/src/main/java/com/app/dreamiaselite/data/local/UserDao.kt:17-18 | `deleteUser` removes that email's row and no other |
| UserStore.WithProfile | app/src/main/java/com/app/dreamiaselite/data/local/UserDao.kt:20-21 | `updateProfile` sets username, target year and avatar on the matching row only; the hash, salt and creation time are kept; an absent email changes nothing |
| UserStore.OperationsKeepKeying | app/src/main/java/com/app/dreamiaselite/data/local/UserEntity.kt:6-15 | insert, delete and update keep every row stored under its own `email` primary key |
| UserStore.LookupAfterInsert | app/src/main/java/com/app/dreamiaselite/data/local/UserDao.kt:11-15 | after an insert the new row is found under its email, and other emails find what they found before |
| UserStore.DeleteUndoesInsert | app/src/main/java/com/app/dreamiaselite/data/local/UserDao.kt:14-18 | deleting a freshly inserted row restores the table |
| UserStore.DeleteFreesKey | app/src/main/java/com/app/dreamiaselite/data/local/UserDao.kt:14-18 | after a delete, the email is absent and can be inserted again |
| UserStore.WithProfileIdempotent | app/src/main/java/com/app/dreamiaselite/data/local/UserDao.kt:20-21 | repeating a profile update changes nothing more |
| UserStore.UserDao.GetUserByEmail | app/src/main/java/com/app/dreamiaselite/data/local/UserDao.kt:11-12 | returns `Lookup` of the table, whose row carries the email asked for |
| UserStore.UserDao.InsertUser | app/src/main/java/com/app/dreamiaselite/data/local/UserDao.kt:14-15 | succeeds exactly for a new email, and then the table is `Insert` of the old one; on conflict the table is unchanged |
| UserStore.UserDao.DeleteUser | app/src/main/java/com/app/dreamiaselite/data/local/UserDao.kt:17-18 | the table becomes `Delete` of the old one |
| UserStore.UserDao.UpdateProfile | app/src/main/java/com/app/dreamiaselite/data/local/UserDao.kt:20-21 | the table becomes `WithProfile` of the old one |
| AuthRepo.RegisterStep | app/src/main/java/com/app/dreamiaselite/data/AuthRepository.kt:20-48 | registration fails with "Account already exists for this email", changing nothing, exactly when the email is taken; otherwise it stores one user with the given fields and the hash of `salt:password`, and signs that email in |
| AuthRepo.LoginStep | app/src/main/java/com/app/dreamiaselite/data/AuthRepository.kt:50-65 | login never changes the table; an unknown email gives "No account found for this email"; it succeeds exactly when the recomputed hash matches, and then signs the user in; a failure leaves the session as it was |
| AuthRepo.LogoutStep | app/src/main/java/com/app/dreamiaselite/data/AuthRepository.kt:67-69 | logout clears the current user and keeps the table |
| AuthRepo.UpdateProfileStep | app/src/main/java/com/app/dreamiaselite/data/AuthRepository.kt:75-90 | fails with "No account found" exactly when the email is absent; otherwise it applies the DAO's profile update; the session is kept |
| AuthRepo.RegisterThenLogin | app/src/main/java/com/app/dreamiaselite/data/AuthRepository.kt:32-61 | after a successful registration, logging in with the same email and password succeeds and signs that email in |
| AuthRepo.WrongPasswordIsRefused | app/src/main/java/com/app/dreamiaselite/data/AuthRepository.kt:55-58 | a password whose hash differs from the stored one gives "Incorrect password" and changes nothing |
| AuthRepo.RegisterTwiceFails | app/src/main/java/com/app/dreamiaselite/data/AuthRepository.kt:27-30 | registering the same email again fails with "Account already exists for this email" |
| AuthRepo.UpdateProfileKeepsCredentials | app/src/main/java/com/app/dreamiaselite/data/AuthRepository.kt:82-86 | a profile update keeps every user's password hash and salt, so login gives the same answer afterwards |
| AuthRepo.LogoutThenLogin | app/src/main/java/com/app/dreamiaselite/data/AuthRepository.kt:50-69 | a successful login leaves the same store whether or not a logout came first |
| AuthRepo.AuthRepository.constructor | app/src/main/java/com/app/dreamiaselite/data/AuthRepository.kt:12-17 | the repository starts with no current user |
| AuthRepo.AuthRepository.Register | app/src/main/java/com/app/dreamiaselite/data/AuthRepository.kt:20-48 | the new store and result are `RegisterStep` of the old store |
| AuthRepo.AuthRepository.Login | app/src/main/java/com/app/dreamiaselite/data/AuthRepository.kt:50-65 | the new store and result are `LoginStep` of the old store |
| AuthRepo.AuthRepository.Logout | app/src/main/java/com/app/dreamiaselite/data/AuthRepository.kt:67-69 | the new store is `LogoutStep` of the old one |
| AuthRepo.AuthRepository.GetUserByEmail | app/src/main/java/com/app/dreamiaselite/data/AuthRepository.kt:71-73 | delegates to the DAO's lookup |
| AuthRepo.AuthRepository.UpdateProfile | app/src/main/java/com/app/dreamiaselite/data/AuthRepository.kt:75-90 | the new store and result are `UpdateProfileStep` of the old store |
| AuthUi.CheckLogin | app/src/main/java/com/app/dreamiaselite/ui/screen/screens/auth/AuthViewModel.kt:94-101 | login input is accepted exactly when the email is valid and the password not blank; a bad email gives "Please enter a valid email" first, then a blank password gives "Password cannot be empty" |
| AuthUi.CheckRegister | app/src/main/java/com/app/dreamiaselite/ui/screen/screens/auth/AuthViewModel.kt:125-141 | registration input is checked in order (email, then name, then target year parsed and in 2024..2100, then password length at least 6), and the first failure gives its message; acceptance yields the parsed year |
| AuthUi.ResolveYear | app/src/main/java/com/app/dreamiaselite/ui/screen/screens/auth/AuthViewModel.kt:202-203 | the profile year is the parsed input, else the stored year, else 2024 when an avatar is given, else none |
| AuthUi.CheckProfile | app/src/main/java/com/app/dreamiaselite/ui/screen/screens/auth/AuthViewModel.kt:195-213 | a profile update is rejected for a blank trimmed name, then for a missing or out-of-range year, then for a missing or blank email ("You need to be signed in…"), each with its message exactly when its guard is the first to fail; acceptance yields the trimmed name, the year and the email |
| AuthUi.WithError | app/src/main/java/com/app/dreamiaselite/ui/screen/screens/auth/AuthViewModel.kt:249-251 | `setError` sets the message, clears `isLoading`, and changes nothing else |
| AuthUi.WithProfileError | app/src/main/java/com/app/dreamiaselite/ui/screen/screens/auth/AuthViewModel.kt:197-213 | a rejected profile update sets the profile message with the error flag, and changes nothing else |
| AuthUi.AfterAuthCall | app/src/main/java/com/app/dreamiaselite/ui/screen/screens/auth/AuthViewModel.kt:104-118 | success authenticates and clears the error and profile message; failure shows the exception's message or the default text; either way loading stops, and no other field changes (success touches only the six fields it sets, failure only loading and the error) |
| AuthUi.SessionState | app/src/main/java/com/app/dreamiaselite/ui/screen/screens/auth/AuthViewModel.kt:49-87 | every field is set: an email with no user gives "Session expired, please sign in again" with email, name, year and creation time cleared and the preference's avatar; authenticated exactly when an email with a user is non-empty; a found user gives its name, year, creation time, and its avatar or else the preference's; no email clears email, name, year, creation time and avatar; loading stops and the profile flags are cleared |
| AuthUi.LoggedOut | app/src/main/java/com/app/dreamiaselite/ui/screen/screens/auth/AuthViewModel.kt:169-185 | logout clears authentication, email, name, target year, creation time and the profile message, and keeps the avatar |
| AuthUi.AvatarToPersist | app/src/main/java/com/app/dreamiaselite/ui/screen/screens/auth/AuthViewModel.kt:217-219 | a new picture that was copied is saved as the copy; otherwise the current avatar is kept |
| AuthUi.AfterProfileCall | app/src/main/java/com/app/dreamiaselite/ui/screen/screens/auth/AuthViewModel.kt:222-245 | success shows "Profile updated" and the refreshed or submitted name and year, and the refreshed avatar, else the one sent, else the old one; failure shows the error, keeps name and year and takes the avatar sent, else the old one; saving stops; no field beyond name, year, avatar, saving flag and profile message changes |
| AuthUi.SafeName | app/src/main/java/com/app/dreamiaselite/ui/screen/screens/auth/AuthViewModel.kt:257 | every character outside `[A-Za-z0-9._-]` becomes `_`; the length is kept and the result is all safe |
| AuthUi.SafeNameKeepsSafe | app/src/main/java/com/app/dreamiaselite/ui/screen/screens/auth/AuthViewModel.kt:257 | an already safe email is unchanged |
| AuthUi.AvatarFileName | app/src/main/java/com/app/dreamiaselite/ui/screen/screens/auth/AuthViewModel.kt:258 | the file name is "avatar_", the safe name, then ".jpg" |
| AuthUi.BlankPasswordRegistersButCannotLogIn | app/src/main/java/com/app/dreamiaselite/ui/screen/screens/auth/AuthViewModel.kt:98-138 | as written, registration accepts a password of six spaces that login then refuses as empty |
| AuthUi.CheckRegisterFixed | app/src/main/java/com/app/dreamiaselite/ui/screen/screens/auth/AuthViewModel.kt:125-141 | the corrected check: as `CheckRegister`, and it also rejects a blank password with "Password cannot be empty" |
| AuthUi.RegisterAcceptedLoginAccepted | app/src/main/java/com/app/dreamiaselite/ui/screen/screens/auth/AuthViewModel.kt:94-141 | whatever the corrected registration check accepts, the login check accepts too |
| AuthUi.LogoutThenSessionClearsAvatar | app/src/main/java/com/app/dreamiaselite/ui/screen/screens/auth/AuthViewModel.kt:169-185 | logout keeps the avatar, but the session's next null emission clears it (the session collector is at lines 72-87) |
| AuthUi.StoredYearSuffices | app/src/main/java/com/app/dreamiaselite/ui/screen/screens/auth/AuthViewModel.kt:203-213 | with an unparsable year input, a stored in-range year and an email, the update goes through with the stored year |
| AuthUi.AuthViewModel.constructor | app/src/main/java/com/app/dreamiaselite/ui/screen/screens/auth/AuthViewModel.kt:21-33 | the state starts unauthenticated and loading |
| AuthUi.AuthViewModel.OnSessionEmail | app/src/main/java/com/app/dreamiaselite/ui/screen/screens/auth/AuthViewModel.kt:49-91 | one session emission: the state becomes `SessionState`, and an email with no user is logged out |
| AuthUi.AuthViewModel.Login | app/src/main/java/com/app/dreamiaselite/ui/screen/screens/auth/AuthViewModel.kt:93-122 | a rejected input sets the error without calling the repository; otherwise the repository logs in the trimmed email and the state follows `AfterAuthCall` |
| AuthUi.AuthViewModel.Register | app/src/main/java/com/app/dreamiaselite/ui/screen/screens/auth/AuthViewModel.kt:124-167 | as written: a rejected input of `CheckRegister` (length-only password check) sets the error and changes no store; otherwise the repository registers the trimmed email and name with the parsed year, so a six-space password reaches the repository |
| AuthUi.AuthViewModel.Logout | app/src/main/java/com/app/dreamiaselite/ui/screen/screens/auth/AuthViewModel.kt:169-185 | clears the repository's session, and the state becomes `LoggedOut` |
| AuthUi.AuthViewModel.ClearError | app/src/main/java/com/app/dreamiaselite/ui/screen/screens/auth/AuthViewModel.kt:187-189 | only the error message is cleared |
| AuthUi.AuthViewModel.ClearProfileMessage | app/src/main/java/com/app/dreamiaselite/ui/screen/screens/auth/AuthViewModel.kt:191-193 | only the profile message and its error flag are cleared |
| AuthUi.AuthViewModel.UpdateProfile | app/src/main/java/com/app/dreamiaselite/ui/screen/screens/auth/AuthViewModel.kt:195-247 | a rejected input sets the profile error and saves nothing; otherwise the repository updates the profile and the state follows `AfterProfileCall` |
| MainShell.ScreenFor | app/src/main/java/com/app/dreamiaselite/MainActivity.kt:135-156 | a spinner exactly while loading, the auth screen exactly while signed out, the main scaffold exactly otherwise |
| MainShell.RootForRoute | app/src/main/java/com/app/dreamiaselite/MainActivity.kt:486-495 | no route has no root; the rules are tried in order: dashboard and `subject_dashboard…` go to the dashboard, then `test_…` and tests to tests, then `pyq…` to pyq, then `notes…` to notes; a route no rule claims is its own root |
| MainShell.BottomItemsAreRoots | app/src/main/java/com/app/dreamiaselite/MainActivity.kt:486-495 | each bottom-bar route is its own root |
| MainShell.RootForRouteIdempotent | app/src/main/java/com/app/dreamiaselite/MainActivity.kt:486-495 | taking the root twice is taking it once |
| MainShell.AtMostOneItemSelected | app/src/main/java/com/app/dreamiaselite/MainActivity.kt:477-504 | at most one bottom-bar item is drawn selected (the item routes are declared at lines 100-104) |
| MainShell.TopBarTitle | app/src/main/java/com/app/dreamiaselite/MainActivity.kt:248-260 | the title is never blank; which title each route gets is the lemma `MainShell.TopBarTitleTable` |
| MainShell.TopBarTitleTable | app/src/main/java/com/app/dreamiaselite/MainActivity.kt:248-260 | the ten titled routes get their titles; every other route, or none, gets "Dream IAS Elite" |
| MainShell.AppTitleOnlyForUntitled | app/src/main/java/com/app/dreamiaselite/MainActivity.kt:248-260 | the app's name is shown exactly for routes outside the table |
| MainShell.DrawerHeaderLines | app/src/main/java/com/app/dreamiaselite/MainActivity.kt:362-363 | a null or blank name shows "Dream IAS Elite", a null or blank email "UPSC CSE • Free plan"; neither line is ever blank |
| MainShell.AppShell.constructor | app/src/main/java/com/app/dreamiaselite/MainActivity.kt:120-124 | the shell starts on the given view model with the logout dialog closed and nothing navigated |
| MainShell.AppShell.OnDrawerItemClick | app/src/main/java/com/app/dreamiaselite/MainActivity.kt:168-181 | "logout" only opens the dialog; no route or the current route does nothing; any other route is navigated to |
| MainShell.AppShell.ConfirmLogout | app/src/main/java/com/app/dreamiaselite/MainActivity.kt:211-229 | confirming closes the dialog, logs out, and navigates to the dashboard |
| MainShell.AppShell.DismissLogout | app/src/main/java/com/app/dreamiaselite/MainActivity.kt:213-232 | cancelling or tapping outside closes the dialog |
| Notes.FilteredNotes | app/src/main/java/com/app/dreamiaselite/ui/screen/screens/notes/NotesScreen.kt:140-145 | a note is kept exactly when the query is blank or title, preview or a tag contains it ignoring case; every copy of a kept note stays, none of a dropped one, and the result keeps the notes' order |
| Notes.BlankQueryShowsAll | app/src/main/java/com/app/dreamiaselite/ui/screen/screens/notes/NotesScreen.kt:140-141 | a blank query shows every note |
| Notes.FilterIdempotent | app/src/main/java/com/app/dreamiaselite/ui/screen/screens/notes/NotesScreen.kt:140-145 | filtering the filtered list again changes nothing |
| Notes.NextTip | app/src/main/java/com/app/dreamiaselite/ui/screen/screens/notes/NotesScreen.kt:667 | `(i + 1) % n` stays in range and wraps from the last tip to the first (the left swipe at line 699 is the same step) |
| Notes.PrevTip | app/src/main/java/com/app/dreamiaselite/ui/screen/screens/notes/NotesScreen.kt:698 | `(i - 1 + n) % n` stays in range and wraps from the first tip to the last |
| Notes.SwipesUndoEachOther | app/src/main/java/com/app/dreamiaselite/ui/screen/screens/notes/NotesScreen.kt:698-699 | a right swipe then a left swipe, or the reverse, returns to the same tip |
| Notes.AutoAdvanceCycles | app/src/main/java/com/app/dreamiaselite/ui/screen/screens/notes/NotesScreen.kt:646-669 | with three tips, auto-advance visits each tip and returns after three steps |
| Notes.TipCard.constructor | app/src/main/java/com/app/dreamiaselite/ui/screen/screens/notes/NotesScreen.kt:656 | the card starts on the first tip |
| Notes.TipCard.AutoAdvance | app/src/main/java/com/app/dreamiaselite/ui/screen/screens/notes/NotesScreen.kt:664-669 | one pass of the auto-advance loop moves to the next tip |
| Notes.TipCard.OnDragEnd | app/src/main/java/com/app/dreamiaselite/ui/screen/screens/notes/NotesScreen.kt:696-702 | a right swipe goes back, a left swipe forward, a short drag nowhere |
| Notes.BooksFor | app/src/main/java/com/app/dreamiaselite/ui/screen/screens/notes/NotesScreen.kt:966-973 | a configured subject has its seven books; any other subject has none (`?: emptyList()` at line 732) |
| Notes.EveryFolderHasBooks | app/src/main/java/com/app/dreamiaselite/ui/screen/screens/notes/NotesScreen.kt:107-116 | every folder is a key of the catalogue, so none shows "Reference books not configured yet." (the catalogue keys are at lines 966-973, the message at 814-821) |
| Notes.FirstWithTitle | app/src/main/java/com/app/dreamiaselite/ui/screen/screens/notes/NotesScreen.kt:827 | `firstOrNull { it.title == bookTitle }` finds the first book with that exact title, or none exactly when there is no such book |
| Notes.UnitsScreenBook | app/src/main/java/com/app/dreamiaselite/ui/screen/screens/notes/NotesScreen.kt:827-870 | the units screen finds a book exactly when the subject has one with that title, and then shows the first book in the list with that title; otherwise it shows "Units not found for this book." |
| Notes.UnitNumbers | app/src/main/java/com/app/dreamiaselite/ui/screen/screens/notes/NotesScreen.kt:872-884 | a book's units are labelled 1 to its unit count |
| Notes.SecondEconomyCardShowsFirstBook | app/src/main/java/com/app/dreamiaselite/ui/screen/screens/notes/NotesScreen.kt:827 | as written, tapping the second "Indian Economy" card opens the first one's units (the two books are at lines 937-938) |
| Notes.FirstWithTitleAndAuthor | app/src/main/java/com/app/dreamiaselite/ui/screen/screens/notes/NotesScreen.kt:827 | the first book with both the title and the author, or none exactly when there is no such book |
| Notes.HistoryTitleAuthorUnique | app/src/main/java/com/app/dreamiaselite/ui/screen/screens/notes/NotesScreen.kt:906-914 | no two History books share title and author |
| Notes.GeographyTitleAuthorUnique | app/src/main/java/com/app/dreamiaselite/ui/screen/screens/notes/NotesScreen.kt:916-924 | no two Geography books share title and author |
| Notes.PolityTitleAuthorUnique | app/src/main/java/com/app/dreamiaselite/ui/screen/screens/notes/NotesScreen.kt:926-934 | no two Polity books share title and author |
| Notes.EconomyTitleAuthorUnique | app/src/main/java/com/app/dreamiaselite/ui/screen/screens/notes/NotesScreen.kt:936-944 | no two Economy books share title and author, although two share a title |
| Notes.EnvironmentTitleAuthorUnique | app/src/main/java/com/app/dreamiaselite/ui/screen/screens/notes/NotesScreen.kt:946-954 | no two Environment books share title and author |
| Notes.ScienceTitleAuthorUnique | app/src/main/java/com/app/dreamiaselite/ui/screen/screens/notes/NotesScreen.kt:956-964 | no two Science books share title and author |
| Notes.CatalogueTitleAuthorUnique | app/src/main/java/com/app/dreamiaselite/ui/screen/screens/notes/NotesScreen.kt:902-974 | title and author identify a book within every subject's list |
| Notes.UnitsScreenBookFixed | app/src/main/java/com/app/dreamiaselite/ui/screen/screens/notes/NotesScreen.kt:827 | the corrected lookup by title and author: the book found has both, or none exactly when no book has both |
| Notes.TappedCardOpensItsBook | app/src/main/java/com/app/dreamiaselite/ui/screen/screens/notes/NotesScreen.kt:771-774 | with the corrected lookup, tapping any card opens that card's own book |
| Pyq.Select | app/src/main/java/com/app/dreamiaselite/ui/screen/screens/pyq/PyqScreen.kt:161-163 | `filter` keeps exactly the questions that satisfy the predicate, in their order |
| Pyq.SelectCounts | app/src/main/java/com/app/dreamiaselite/ui/screen/screens/pyq/PyqScreen.kt:161-163 | the filter keeps every copy of an accepted question and no copy of a rejected one |
| Pyq.TabQuestions | app/src/main/java/com/app/dreamiaselite/ui/screen/screens/pyq/PyqScreen.kt:161-163 | the Year-wise tab shows exactly the questions of the selected year, the other tab those of the selected paper, in order and with every copy |
| Pyq.PdfQuestions | app/src/main/java/com/app/dreamiaselite/ui/screen/screens/pyq/PyqScreen.kt:108 | the PDF takes exactly the questions whose paper equals the paper's title, case-sensitively, in order and with every copy |
| Pyq.DetailQuestions | app/src/main/java/com/app/dreamiaselite/ui/screen/screens/pyq/PyqScreen.kt:191 | the detail screen takes exactly the questions whose paper equals the title ignoring case, in order and with every copy; none when no paper was found |
| Pyq.SelectKeepsIdsDistinct | app/src/main/java/com/app/dreamiaselite/ui/screen/screens/pyq/PyqScreen.kt:161-173 | filtering a list with distinct ids keeps them distinct |
| Pyq.TabQuestionsKeepIdsDistinct | app/src/main/java/com/app/dreamiaselite/ui/screen/screens/pyq/PyqScreen.kt:161-173 | the tab's list keeps the distinct ids that `items(key = id)` needs |
| Pyq.PdfQuestionsOnDetail | app/src/main/java/com/app/dreamiaselite/ui/screen/screens/pyq/PyqScreen.kt:191 | every question in a paper's PDF is also on its detail screen (the PDF filter is at line 108) |
| Pyq.CaseOnlyDifferenceSplitsViews | app/src/main/java/com/app/dreamiaselite/ui/screen/screens/pyq/PyqScreen.kt:191 | a question whose paper differs from the title only in case is on the detail screen but not in the PDF (the PDF filter is at line 108) |
| Pyq.BankIdsDistinct | app/src/main/java/com/app/dreamiaselite/ui/screen/screens/pyq/PyqScreen.kt:793-839 | the bundled questions have distinct ids |
| Pyq.FirstEntryShowsTheYear2023Question | app/src/main/java/com/app/dreamiaselite/ui/screen/screens/pyq/PyqScreen.kt:793-839 | the screen as first shown (Year-wise, 2023) lists exactly the one 2023 question (the initial selection is at lines 97-101) |
| Pyq.WithViewActions | app/src/main/java/com/app/dreamiaselite/ui/screen/screens/pyq/PyqScreen.kt:104-111 | `papers` keeps the length and order of the base papers and changes only `onViewPaper`, which opens that paper's PDF with its questions |
| Pyq.FindPaperIndex | app/src/main/java/com/app/dreamiaselite/ui/screen/screens/pyq/PyqScreen.kt:190 | `find { it.id == paperId }` finds the first paper with the exact id, or none exactly when no paper has it |
| Pyq.FindPaper | app/src/main/java/com/app/dreamiaselite/ui/screen/screens/pyq/PyqScreen.kt:190 | `find`: none exactly when no paper has the id; otherwise the first paper in the list with that id |
| Pyq.DetailScreen | app/src/main/java/com/app/dreamiaselite/ui/screen/screens/pyq/PyqScreen.kt:187-207 | an unknown id shows "Paper not found." exactly; a known one shows the first paper with that id and its detail questions |
| Pyq.EveryBundledPaperFound | app/src/main/java/com/app/dreamiaselite/ui/screen/screens/pyq/PyqScreen.kt:750-791 | every bundled paper's id finds that same paper, so the ids are distinct |
| Pyq.EveryBundledPaperOpens | app/src/main/java/com/app/dreamiaselite/ui/screen/screens/pyq/PyqScreen.kt:187-207 | every bundled paper opens its own detail screen |
| Pyq.BundledViewsAgree | app/src/main/java/com/app/dreamiaselite/ui/screen/screens/pyq/PyqScreen.kt:750-839 | for the bundled data the detail screen and the PDF list the same questions |
| Pyq.PaperNamesMatchExactly | app/src/main/java/com/app/dreamiaselite/ui/screen/screens/pyq/PyqScreen.kt:191 | between the four paper names, matching ignoring case is the same as matching exactly |
| Pyq.QuestionLines | app/src/main/java/com/app/dreamiaselite/ui/screen/screens/pyq/PyqScreen.kt:892-897 | four lines per question, question `k`'s block being "Q(k+1): …", "Answer: …", "Explanation: …", "" |
| Pyq.PdfLines | app/src/main/java/com/app/dreamiaselite/ui/screen/screens/pyq/PyqScreen.kt:888-897 | the document is the title, the question count and a blank line, then each question's block: `3 + 4n` lines |
| Pyq.LaidOutLinesInMargins | app/src/main/java/com/app/dreamiaselite/ui/screen/screens/pyq/PyqScreen.kt:867-886 | on a laid-out page every baseline lies between 40 and 802 |
| Pyq.PageCount | app/src/main/java/com/app/dreamiaselite/ui/screen/screens/pyq/PyqScreen.kt:870-886 | the fewest 43-line pages that hold the lines, and one page when there are none |
| Pyq.PagesOfLayout | app/src/main/java/com/app/dreamiaselite/ui/screen/screens/pyq/PyqScreen.kt:870-886 | full pages followed by a non-empty last page are exactly `PageCount` pages |
| Pyq.FinishedLayout | app/src/main/java/com/app/dreamiaselite/ui/screen/screens/pyq/PyqScreen.kt:870-886 | full pages then a non-empty last page make `PageCount` of their line count pages, every baseline between 40 and 802 |
| Pyq.PdfWriter.constructor | app/src/main/java/com/app/dreamiaselite/ui/screen/screens/pyq/PyqScreen.kt:867-877 | the first page is started with `y` at 40 |
| Pyq.PdfWriter.WriteLine | app/src/main/java/com/app/dreamiaselite/ui/screen/screens/pyq/PyqScreen.kt:879-886 | `writeLine` adds its text to the document: on the open page at `y` while `y ≤ 802`, else on a new page at 40 |
| Pyq.WriteQuestion | app/src/main/java/com/app/dreamiaselite/ui/screen/screens/pyq/PyqScreen.kt:893-896 | one loop step writes exactly that question's four lines |
| Pyq.WriteQuestions | app/src/main/java/com/app/dreamiaselite/ui/screen/screens/pyq/PyqScreen.kt:892-897 | the `forEachIndexed` loop writes, after what was already written, exactly block `k` for question `k`, in order, and keeps the page layout valid |
| Pyq.OpenPaperPdf | app/src/main/java/com/app/dreamiaselite/ui/screen/screens/pyq/PyqScreen.kt:850-917 | the pages hold exactly `PdfLines` in order, there are `PageCount` of them, every one but the last full, each line between 40 and 802, in "pyq_<id>.pdf"; "No PDF viewer found." exactly when no viewer opens it |
| Pyq.PyqScreenState.constructor | app/src/main/java/com/app/dreamiaselite/ui/screen/screens/pyq/PyqScreen.kt:96-101 | the screen starts on Year-wise, 2023, GS Paper 1 |
| Pyq.PyqScreenState.SelectTab | app/src/main/java/com/app/dreamiaselite/ui/screen/screens/pyq/PyqScreen.kt:135 | selecting a tab records it |
| Pyq.PyqScreenState.SelectYear | app/src/main/java/com/app/dreamiaselite/ui/screen/screens/pyq/PyqScreen.kt:141 | selecting a year records it |
| Pyq.PyqScreenState.SelectSubject | app/src/main/java/com/app/dreamiaselite/ui/screen/screens/pyq/PyqScreen.kt:143 | selecting a paper records it |
| Pyq.PyqScreenState.Heading | app/src/main/java/com/app/dreamiaselite/ui/screen/screens/pyq/PyqScreen.kt:151 | "<year> Papers" on the Year-wise tab, "<paper> Papers" on the other |
| Pyq.PyqScreenState.Visible | app/src/main/java/com/app/dreamiaselite/ui/screen/screens/pyq/PyqScreen.kt:161-173 | the listed questions are the tab's questions of the bank, with distinct keys |
| Profile.DisplayName | app/src/main/java/com/app/dreamiaselite/ui/screen/screens/profile/ProfileScreen.kt:59 | the user's name, or "Dreamer" when it is null or blank; never blank |
| Profile.EmailLabel | app/src/main/java/com/app/dreamiaselite/ui/screen/screens/profile/ProfileScreen.kt:61 | the email, or "Not set" |
| Profile.TargetLabel | app/src/main/java/com/app/dreamiaselite/ui/screen/screens/profile/ProfileScreen.kt:62 | the year written out, or "Not set" |
| Profile.JoinedLabel | app/src/main/java/com/app/dreamiaselite/ui/screen/screens/profile/ProfileScreen.kt:63-65 | the formatted creation date, or "Since day one" |
| Profile.NonBlankWords | app/src/main/java/com/app/dreamiaselite/ui/screen/screens/profile/ProfileScreen.kt:60 | `split(" ").filter { it.isNotBlank() }`: keeps, in order, exactly the non-blank pieces |
| Profile.NonBlankWordsCounts | app/src/main/java/com/app/dreamiaselite/ui/screen/screens/profile/ProfileScreen.kt:60 | every copy of a non-blank piece is kept and no blank one, so "Ram Ram" gives two words |
| Profile.FirstLetters | app/src/main/java/com/app/dreamiaselite/ui/screen/screens/profile/ProfileScreen.kt:60 | one upper-cased first character per word |
| Profile.Initials | app/src/main/java/com/app/dreamiaselite/ui/screen/screens/profile/ProfileScreen.kt:60 | when one of the first two non-blank words has a visible upper-cased first letter, the initials are exactly those first letters, one per word; when all of them are blank the initials are "DE"; always one or two characters, never blank |
| Profile.InitialsOfTwoWords | app/src/main/java/com/app/dreamiaselite/ui/screen/screens/profile/ProfileScreen.kt:60 | "Asha Rao" gives "AR": two visible words give their two initials |
| Profile.InitialsIgnoreThirdWord | app/src/main/java/com/app/dreamiaselite/ui/screen/screens/profile/ProfileScreen.kt:60 | a third word changes nothing |
| Profile.InitialsIgnoreLeadingSpace | app/src/main/java/com/app/dreamiaselite/ui/screen/screens/profile/ProfileScreen.kt:60 | a leading space changes nothing |
| Profile.DefaultHeader | app/src/main/java/com/app/dreamiaselite/ui/screen/screens/profile/ProfileScreen.kt:59-60 | with no name, the header shows "Dreamer" and the initial "D" |
| Profile.TabLedNameFallsBack | app/src/main/java/com/app/dreamiaselite/ui/screen/screens/profile/ProfileScreen.kt:60 | a word starting with a tab has a blank initial, so "DE" shows |
| Profile.TargetError | app/src/main/java/com/app/dreamiaselite/ui/screen/screens/profile/ProfileScreen.kt:369 | the year field is in error exactly when it does not parse as an `Int` in 2024..2100; for a digit field, exactly when it is empty or its value is out of range |
| Profile.SheetSaveIsAccepted | app/src/main/java/com/app/dreamiaselite/ui/screen/screens/profile/ProfileScreen.kt:428 | whatever the sheet lets through, the view model's profile check accepts, with the trimmed name and the field's year (the sheet's checks are at lines 368-370) |
| Profile.NotSetOpensEmpty | app/src/main/java/com/app/dreamiaselite/ui/screen/screens/profile/ProfileScreen.kt:366 | "Not set" filters to an empty field, which is in error |
| Profile.StoredYearOpensSaveable | app/src/main/java/com/app/dreamiaselite/ui/screen/screens/profile/ProfileScreen.kt:366 | a stored year in range opens unchanged in the field, is not in error, and reads back as itself |
| Profile.EditProfileSheet.constructor | app/src/main/java/com/app/dreamiaselite/ui/screen/screens/profile/ProfileScreen.kt:365-366 | the fields start from the name and the digits of the target line |
| Profile.EditProfileSheet.OnNameChange | app/src/main/java/com/app/dreamiaselite/ui/screen/screens/profile/ProfileScreen.kt:396 | typing replaces the name |
| Profile.EditProfileSheet.OnTargetChange | app/src/main/java/com/app/dreamiaselite/ui/screen/screens/profile/ProfileScreen.kt:404 | typing keeps only the digits, so the field only ever holds digits |
| Profile.EditProfileSheet.Save | app/src/main/java/com/app/dreamiaselite/ui/screen/screens/profile/ProfileScreen.kt:368-370 | Save does something exactly when `canSave` holds (no name error, no year error, not saving), and then sends the trimmed, non-blank name and the trimmed year (the button at lines 428-429) |
| Profile.PhotoRequest | app/src/main/java/com/app/dreamiaselite/ui/screen/screens/profile/ProfileScreen.kt:137-140 | a confirmed photo re-sends the header's name and target line with the new picture |
| Profile.PhotoRequestKeepsProfile | app/src/main/java/com/app/dreamiaselite/ui/screen/screens/profile/ProfileScreen.kt:137-140 | for a signed-in user with a name and an in-range year, a photo update keeps both |
| Profile.PhotoWithoutYearSavesMinimum | app/src/main/java/com/app/dreamiaselite/ui/screen/screens/profile/ProfileScreen.kt:137-140 | with no stored year, the photo request sends "Not set" and 2024 is saved as the target year |
| Profile.ProfileScreen.constructor | app/src/main/java/com/app/dreamiaselite/ui/screen/screens/profile/ProfileScreen.kt:68-74 | the screen starts with both sheets closed, the stored avatar selected and no crop |
| Profile.ProfileScreen.OpenEditSheet | app/src/main/java/com/app/dreamiaselite/ui/screen/screens/profile/ProfileScreen.kt:193 | Edit opens the sheet |
| Profile.ProfileScreen.DismissEditSheet | app/src/main/java/com/app/dreamiaselite/ui/screen/screens/profile/ProfileScreen.kt:215 | dismissing closes the sheet |
| Profile.ProfileScreen.SaveFromSheet | app/src/main/java/com/app/dreamiaselite/ui/screen/screens/profile/ProfileScreen.kt:216-219 | the sheet's values are sent with the current photo, and the sheet closes |
| Profile.ProfileScreen.OnCropResult | app/src/main/java/com/app/dreamiaselite/ui/screen/screens/profile/ProfileScreen.kt:76-80 | a successful crop is kept and asks for confirmation; a failed one changes nothing |
| Profile.ProfileScreen.ConfirmCrop | app/src/main/java/com/app/dreamiaselite/ui/screen/screens/profile/ProfileScreen.kt:137-141 | "Set" shows the cropped photo, sends the photo request, and closes the dialog |
| Profile.ProfileScreen.DismissCrop | app/src/main/java/com/app/dreamiaselite/ui/screen/screens/profile/ProfileScreen.kt:142 | dismissing closes the dialog |

## Left out

- Character handling is simplified:
  - Case-insensitive `contains`/`equals` and `uppercase()` fold ASCII letters only. Kotlin folds Unicode, and `Char.uppercase()` can give more than one character.
  - `isDigit()` and `toIntOrNull()` accept ASCII digits only.
  - `Char.isWhitespace()` is modelled exactly.
- Strings are sequences of Unicode characters, not UTF-16 code units, so lengths of surrogate pairs are not modelled.
- The literal texts of the bundled test questions, reference-book summaries and unit names are not transcribed. Tests keep each question's option count and correct index. Books keep title, author and unit count. The previous-year questions and papers are transcribed in full.
- Floating point, animations and colours:
  - the auth card flip and colour animations;
  - progress fractions;
  - the PDF's paint.
  - The PDF's `y` is a float in the source, but it takes only the integral values 40 + 18k, so the model uses integers.
  - A drag on the tip card is reduced to a swipe direction (`dragDistance > 60` / `< -60`).
- Coroutines, `Flow` collection, `LaunchedEffect` and `delay`:
  - Each handler is one atomic step.
  - `isLoading` and `isProfileSaving` are set only where their final values are observable.
  - The tip card's endless `while (true)` loop is modelled as one iteration, `Notes.TipCard.AutoAdvance`.
  - The test countdown is `TestSubject.TestSession.Tick` (one iteration) and `RunCountdown` (the whole loop, with no user action in between).
- Navigation back-stack options (`popUpTo`, `saveState`, `launchSingleTop`), argument encoding (`Uri.encode`) and URI parsing are left out. Only the requested route is recorded.
- Persistence and the platform:
  - The Room database is a map held by `UserStore.UserDao`.
  - The DataStore session preference is a field of `AuthRepo.AuthRepository`.
  - `AuthPreferences.kt` is not part of this model.
  - Copying an avatar into app storage is the `copied` parameter of `AuthUi.AuthViewModel.UpdateProfile`.
  - PDF drawing, the file write, `FileProvider` and the view intent are reduced to drawn-line records and the `viewerOpened` parameter of `Pyq.OpenPaperPdf`.
  - The date format of the profile header is the `format` parameter of `Profile.JoinedLabel`.
  - Image decoding, the cropper, permissions and snackbars of the profile screen are left out.
- Foreign functions:
  - SHA-256 with Base64 in `hashPassword` is a function-valued field (`hash`) applied to `salt:password`.
  - `Patterns.EMAIL_ADDRESS` is the function-valued `isEmail`.
  - The UUID salt and the current time are parameters of `AuthRepo.AuthRepository.Register`.
- Strings.Trim: its own contract gives the ends and the blank case; that the result is the infix between whitespace ends is the separate lemma `Strings.TrimIsInfix`, because in `Trim`'s contract the quantifiers make the study planner's handlers too costly to verify.
- Pyq.Select: its own contract gives membership and order; that every copy of a kept question stays is the separate lemma `Pyq.SelectCounts` (stated again in the contracts of `TabQuestions`, `PdfQuestions` and `DetailQuestions`), because in the recursive filter's contract it makes the proofs over the literal question bank too costly.
- Profile.NonBlankWords: its own contract gives membership and order; that every copy of a non-blank piece stays is the separate lemma `Profile.NonBlankWordsCounts`, for the same reason with the proofs over concrete names.
- AuthUi.AuthViewModel.OnSessionEmail: the stored avatar is the `prefAvatar` parameter, because `getStoredAvatar` is called by the view model but is not defined in the repository source.
- Exceptions other than the failures the repository raises itself are shown only through the failure path with its default message; a database error is not modelled separately.
- AuthUi.CheckProfile: the target year is a Kotlin `Int`, and values are kept within `Int` range only through `toIntOrNull`. No arithmetic overflows.
- The icons and colours of the paper cards, and everything else on the purely presentational screens (dashboard, settings, help, about, theme, current affairs, tests list, auth form layout), are left out.
- The repository's one Python file, `tmp_count.py`, is a throwaway script that reads a file and counts regular-expression matches. It is not part of this model.

## Findings

| source | as written | input that shows it | evidently intended | confidence | as-written member | corrected member |
|---|---|---|---|---|---|---|
| app/src/main/java/com/app/dreamiaselite/ui/screen/screens/notes/NotesScreen.kt:827 | the units screen looks up the tapped book by title alone (`firstOrNull { it.title == bookTitle }`), but the Economy list has two books both titled "Indian Economy" (lines 936-938) | tap the second "Indian Economy" card (Sanjiv Verma) in the Economy folder: the first book's (Ramesh Singh's) units are shown | each card opens its own book, e.g. by looking it up by title and author | not executed | Notes.SecondEconomyCardShowsFirstBook | Notes.TappedCardOpensItsBook |
| app/src/main/java/com/app/dreamiaselite/ui/screen/screens/auth/AuthViewModel.kt:138 | registration checks only `password.length < 6`, while login rejects a blank password (line 98) | register with a valid email, name "Asha", year "2030" and password "      " (six spaces): accepted, but every later login with that password is refused with "Password cannot be empty" | registration rejects blank passwords too, so every account it creates can log in | not executed | AuthUi.BlankPasswordRegistersButCannotLogIn | AuthUi.RegisterAcceptedLoginAccepted |
