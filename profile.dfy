/**
 * The profile screen: the header's fallbacks and initials, the edit sheet's
 * digit-only year field and its save rule, and the requests the screen hands
 * to the view model's `updateProfile`.
 */
module Profile {
  import opened Wrappers
  import opened Strings
  import opened Sequences
  import opened AuthUi

  const DEFAULT_NAME: string := "Dreamer"
  const NOT_SET: string := "Not set"
  const SINCE_DAY_ONE: string := "Since day one"
  const DEFAULT_INITIALS: string := "DE"

  // ---------------------------------------------------------------------
  // Header
  // ---------------------------------------------------------------------

  /** `userName?.ifBlank { null } ?: "Dreamer"`: never blank. */
  function DisplayName(userName: Option<string>): (r: string)
    ensures userName.Some? && !IsBlank(userName.value) ==> r == userName.value
    ensures userName.None? || IsBlank(userName.value) ==> r == DEFAULT_NAME
    ensures !IsBlank(r)
  {
    assert !IsWhitespace(DEFAULT_NAME[0]);
    OrIfBlank(userName, DEFAULT_NAME)
  }

  /** The email line. */
  function EmailLabel(userEmail: Option<string>): (r: string)
    ensures userEmail.Some? ==> r == userEmail.value
    ensures userEmail.None? ==> r == NOT_SET
  {
    userEmail.GetOr(NOT_SET)
  }

  /** `targetYear?.toString() ?: "Not set"`. */
  function TargetLabel(targetYear: Option<int>): (r: string)
    ensures targetYear.Some? ==> r == IntToString(targetYear.value)
    ensures targetYear.None? ==> r == NOT_SET
  {
    match targetYear
    case Some(y) => IntToString(y)
    case None => NOT_SET
  }

  /** The join date; `format` stands for `SimpleDateFormat("dd MMM yyyy")` in the device's locale and zone. */
  function JoinedLabel(createdAt: Option<int>, format: int -> string): (r: string)
    ensures createdAt.Some? ==> r == format(createdAt.value)
    ensures createdAt.None? ==> r == SINCE_DAY_ONE
  {
    match createdAt
    case Some(t) => format(t)
    case None => SINCE_DAY_ONE
  }

  /** The space-separated pieces of `s` that are not blank, in order. */
  function NonBlankWords(s: string): (r: seq<string>)
    ensures forall k | 0 <= k < |r| :: r[k] != [] && !IsBlank(r[k])
    ensures SubsequenceOf(r, Split(s, ' '))
    ensures forall k | 0 <= k < |Split(s, ' ')| :: !IsBlank(Split(s, ' ')[k]) ==> Split(s, ' ')[k] in r
  {
    KeepNonBlank(Split(s, ' '))
  }

  function KeepNonBlank(ws: seq<string>): (r: seq<string>)
    ensures forall k | 0 <= k < |r| :: r[k] != [] && !IsBlank(r[k])
    ensures SubsequenceOf(r, ws)
    ensures forall k | 0 <= k < |ws| :: !IsBlank(ws[k]) ==> ws[k] in r
  {
    if ws == [] then []
    else
      var rest := KeepNonBlank(ws[1..]);
      assert ws == [ws[0]] + ws[1..];
      assert forall k | 1 <= k < |ws| :: ws[k] == ws[1..][k - 1];
      if IsBlank(ws[0]) then
        SubsequenceDropFront(rest, ws);
        rest
      else
        assert ([ws[0]] + rest)[1..] == rest;
        [ws[0]] + rest
  }

  /** The filter keeps every copy of a non-blank piece and no copy of a blank one. */
  lemma {:induction false} KeepNonBlankCounts(ws: seq<string>)
    ensures forall w :: multiset(KeepNonBlank(ws))[w] == if IsBlank(w) then 0 else multiset(ws)[w]
  {
    if ws != [] {
      KeepNonBlankCounts(ws[1..]);
      assert ws == [ws[0]] + ws[1..];
    }
  }

  /** Every copy of a non-blank piece is kept, so "Ram Ram" gives two words. */
  lemma NonBlankWordsCounts(s: string)
    ensures forall w :: multiset(NonBlankWords(s))[w] == if IsBlank(w) then 0 else multiset(Split(s, ' '))[w]
  {
    KeepNonBlankCounts(Split(s, ' '));
  }

  /** The upper-cased first characters of the words, one per word. */
  function FirstLetters(ws: seq<string>): (r: string)
    requires forall k | 0 <= k < |ws| :: ws[k] != []
    ensures |r| == |ws| && forall k | 0 <= k < |ws| :: r[k] == ToUpper(ws[k][0])
  {
    seq(|ws|, k requires 0 <= k < |ws| => ToUpper(ws[k][0]))
  }

  /**
   * The avatar's initials: the upper-cased first letters of at most the
   * first two non-blank words, or "DE" when those letters are blank.
   */
  function Initials(displayName: string): (r: string)
    ensures 1 <= |r| <= 2 && !IsBlank(r)
    ensures var ws := NonBlankWords(displayName);
            var n := if |ws| < 2 then |ws| else 2;
            (exists k | 0 <= k < n :: !IsWhitespace(ToUpper(ws[k][0]))) ==>
              |r| == n && forall k | 0 <= k < n :: r[k] == ToUpper(ws[k][0])
    ensures var ws := NonBlankWords(displayName);
            var n := if |ws| < 2 then |ws| else 2;
            (forall k | 0 <= k < n :: IsWhitespace(ToUpper(ws[k][0]))) ==> r == DEFAULT_INITIALS
  {
    var ws := NonBlankWords(displayName);
    var front := if |ws| <= 2 then ws else ws[..2];
    var letters := FirstLetters(front);
    assert forall k | 0 <= k < |front| :: letters[k] == ToUpper(ws[k][0]);
    assert !IsWhitespace(DEFAULT_INITIALS[0]);
    if IsBlank(letters) then DEFAULT_INITIALS else letters
  }

  /** Upper-casing never turns a visible character into whitespace. */
  lemma ToUpperKeepsVisible(c: char)
    requires !IsWhitespace(c)
    ensures !IsWhitespace(ToUpper(c))
  {
  }

  /** A piece without the separator splits into itself. */
  lemma {:induction false} SplitWithoutSeparator(a: string, sep: char)
    requires forall i | 0 <= i < |a| :: a[i] != sep
    ensures Split(a, sep) == [a]
  {
    if a != [] {
      SplitWithoutSeparator(a[1..], sep);
      assert [a[0]] + a[1..] == a;
    }
  }

  /** A separator-free piece, then the separator: the piece comes first, then the pieces of the rest. */
  lemma {:induction false} SplitAfterPiece(a: string, sep: char, rest: string)
    requires forall i | 0 <= i < |a| :: a[i] != sep
    ensures Split(a + [sep] + rest, sep) == [a] + Split(rest, sep)
  {
    var s := a + [sep] + rest;
    if a == [] {
      assert s[1..] == rest;
    } else {
      assert s[1..] == a[1..] + [sep] + rest;
      SplitAfterPiece(a[1..], sep, rest);
      assert [a[0]] + a[1..] == a;
    }
  }

  /** Two visible space-free words: their two initials. */
  lemma InitialsOfTwoWords(a: string, b: string)
    requires a != [] && b != [] && !IsWhitespace(a[0]) && !IsWhitespace(b[0])
    requires forall i | 0 <= i < |a| :: a[i] != ' '
    requires forall i | 0 <= i < |b| :: b[i] != ' '
    ensures Initials(a + " " + b) == [ToUpper(a[0]), ToUpper(b[0])]
  {
    SplitAfterPiece(a, ' ', b);
    SplitWithoutSeparator(b, ' ');
    assert Split(a + " " + b, ' ') == [a, b];
    assert KeepNonBlank([a, b][1..]) == [b];
    assert NonBlankWords(a + " " + b) == [a, b];
    ToUpperKeepsVisible(a[0]);
    ToUpperKeepsVisible(b[0]);
    assert FirstLetters([a, b]) == [ToUpper(a[0]), ToUpper(b[0])];
  }

  /** A third word changes nothing: only the first two count. */
  lemma InitialsIgnoreThirdWord(a: string, b: string, c: string)
    requires a != [] && b != [] && !IsWhitespace(a[0]) && !IsWhitespace(b[0])
    requires forall i | 0 <= i < |a| :: a[i] != ' '
    requires forall i | 0 <= i < |b| :: b[i] != ' '
    ensures Initials(a + " " + b + " " + c) == [ToUpper(a[0]), ToUpper(b[0])]
  {
    SplitTwoPieces(a, b, c);
    KeepTwoVisible(a, b, Split(c, ' '));
    var ws := NonBlankWords(a + " " + b + " " + c);
    assert ws[..2] == [a, b];
    ToUpperKeepsVisible(a[0]);
    ToUpperKeepsVisible(b[0]);
    assert FirstLetters([a, b]) == [ToUpper(a[0]), ToUpper(b[0])];
  }

  lemma SplitTwoPieces(a: string, b: string, c: string)
    requires forall i | 0 <= i < |a| :: a[i] != ' '
    requires forall i | 0 <= i < |b| :: b[i] != ' '
    ensures Split(a + " " + b + " " + c, ' ') == [a, b] + Split(c, ' ')
  {
    SplitAfterPiece(a, ' ', b + " " + c);
    SplitAfterPiece(b, ' ', c);
    assert a + " " + b + " " + c == a + [' '] + (b + [' '] + c);
  }

  lemma KeepTwoVisible(a: string, b: string, rest: seq<string>)
    requires !IsBlank(a) && !IsBlank(b)
    ensures KeepNonBlank([a, b] + rest) == [a, b] + KeepNonBlank(rest)
  {
    KeepVisibleHead(b, rest);
    KeepVisibleHead(a, [b] + rest);
    assert [a, b] + rest == [a] + ([b] + rest);
  }

  lemma KeepVisibleHead(w: string, rest: seq<string>)
    requires !IsBlank(w)
    ensures KeepNonBlank([w] + rest) == [w] + KeepNonBlank(rest)
  {
    assert ([w] + rest)[1..] == rest;
  }

  /** Leading spaces give empty pieces, which are dropped. */
  lemma InitialsIgnoreLeadingSpace(s: string)
    ensures Initials(" " + s) == Initials(s)
  {
    SplitAfterPiece("", ' ', s);
    assert "" + [' '] + s == " " + s;
    assert Split(" " + s, ' ') == [""] + Split(s, ' ');
    assert ([""] + Split(s, ' '))[1..] == Split(s, ' ');
  }

  /** With no usable name the header shows "Dreamer" and the initial D. */
  lemma DefaultHeader()
    ensures DisplayName(None) == DEFAULT_NAME && Initials(DisplayName(None)) == "D"
  {
    var d := DEFAULT_NAME;
    assert forall i | 0 <= i < |d| :: d[i] != ' ';
    SplitWithoutSeparator(d, ' ');
    assert KeepNonBlank([d][1..]) == [];
    assert NonBlankWords(d) == [d];
    assert FirstLetters([d]) == "D";
  }

  /** A word whose first character is a tab has a blank initial, so the fallback shows. */
  lemma TabLedNameFallsBack()
    ensures Initials("\tx") == DEFAULT_INITIALS
  {
    SplitWithoutSeparator("\tx", ' ');
    assert KeepNonBlank(["\tx"][1..]) == [];
    assert NonBlankWords("\tx") == ["\tx"];
    assert FirstLetters(["\tx"]) == "\t";
  }

  // ---------------------------------------------------------------------
  // Edit sheet
  // ---------------------------------------------------------------------

  /** `name.isBlank()`. */
  predicate NameError(name: string) {
    IsBlank(name)
  }

  /** `targetYear.toIntOrNull()?.let { it !in 2024..2100 } ?: true`. */
  function TargetError(targetYear: string): (r: bool)
    ensures !r <==> ToIntOrNull(targetYear).Some? && InYearRange(ToIntOrNull(targetYear).value)
    ensures AllDigits(targetYear) ==> (!r <==> targetYear != [] && InYearRange(DigitsValue(targetYear)))
  {
    match ToIntOrNull(targetYear)
    case None => true
    case Some(v) => !(MIN_TARGET_YEAR <= v <= MAX_TARGET_YEAR)
  }

  /** The Save button is enabled exactly when neither field is in error and no save is running. */
  predicate CanSave(name: string, targetYear: string, isSaving: bool) {
    !NameError(name) && !TargetError(targetYear) && !isSaving
  }

  /** A digit string has no whitespace to trim. */
  lemma TrimDigits(s: string)
    requires AllDigits(s)
    ensures Trim(s) == s
  {
    TrimOfTrimmed(s);
  }

  /**
   * Whatever the sheet lets through, the view model accepts: the trimmed
   * name and year pass `updateProfile`'s checks for a signed-in user, with
   * the year the field shows.
   */
  lemma SheetSaveIsAccepted(s: AuthUiState, name: string, targetYear: string, hasAvatar: bool)
    requires AllDigits(targetYear) && CanSave(name, targetYear, false)
    requires s.currentUserEmail.Some? && !IsBlank(s.currentUserEmail.value)
    ensures CheckProfile(s, Trim(name), Trim(targetYear), hasAvatar) ==
              Accepted((Trim(name), DigitsValue(targetYear), s.currentUserEmail.value))
  {
    TrimDigits(targetYear);
    TrimKeepsNonBlank(name);
    TrimIdempotent(name);
  }

  /** "Not set" has no digits, so a profile without a year opens with an empty, failing year field. */
  lemma NotSetOpensEmpty()
    ensures DigitsOnly(NOT_SET) == "" && TargetError(DigitsOnly(NOT_SET))
  {
    NotSetHasNoDigits();
    DigitsOnlyNoDigits(NOT_SET);
  }

  lemma NotSetHasNoDigits()
    ensures forall i | 0 <= i < |NOT_SET| :: !IsDigit(NOT_SET[i])
    ensures ToIntOrNull(NOT_SET) == None
  {
    var n := NOT_SET;
    assert n[0] == 'N' && n[1] == 'o' && n[2] == 't' && n[3] == ' ' && n[4] == 's' && n[5] == 'e' && n[6] == 't';
  }

  /** A stored year in range opens unchanged in the field and can be saved as it is. */
  lemma StoredYearOpensSaveable(y: int)
    requires InYearRange(y)
    ensures DigitsOnly(TargetLabel(Some(y))) == IntToString(y)
    ensures !TargetError(DigitsOnly(TargetLabel(Some(y))))
    ensures ToIntOrNull(Trim(DigitsOnly(TargetLabel(Some(y))))) == Some(y)
  {
    IntToStringRoundTrip(y);
    TrimDigits(IntToString(y));
  }

  /** `EditProfileSheet`'s two text fields. */
  class EditProfileSheet {
    var name: string
    var targetYear: string

    ghost predicate Valid()
      reads this
    {
      AllDigits(targetYear)
    }

    /** The fields start from the header's name and the digits of its target line. */
    constructor (currentName: string, currentTarget: string)
      ensures Valid() && name == currentName && targetYear == DigitsOnly(currentTarget)
    {
      name := currentName;
      targetYear := DigitsOnly(currentTarget);
    }

    method OnNameChange(value: string)
      modifies this`name
      ensures name == value
    {
      name := value;
    }

    /** Every edit of the year keeps only its digits. */
    method OnTargetChange(value: string)
      requires Valid()
      modifies this`targetYear
      ensures Valid() && targetYear == DigitsOnly(value)
    {
      targetYear := DigitsOnly(value);
    }

    /** The Save button: nothing while disabled, else the trimmed name and year. */
    method Save(isSaving: bool) returns (saved: Option<(string, string)>)
      requires Valid()
      ensures saved.Some? <==> CanSave(name, targetYear, isSaving)
      ensures saved.Some? ==> saved.value == (Trim(name), targetYear) && !IsBlank(saved.value.0)
    {
      if CanSave(name, targetYear, isSaving) {
        TrimDigits(targetYear);
        TrimKeepsNonBlank(name);
        saved := Some((Trim(name), Trim(targetYear)));
      } else {
        saved := None;
      }
    }
  }

  // ---------------------------------------------------------------------
  // The screen's requests to `onUpdateProfile`
  // ---------------------------------------------------------------------

  /** One `onUpdateProfile(name, year, uri)` call. */
  datatype ProfileRequest = ProfileRequest(name: string, yearInput: string, photoUri: Option<string>)

  /** A confirmed photo re-sends the header's name and target line with the new picture. */
  function PhotoRequest(userName: Option<string>, targetYear: Option<int>, uri: Option<string>): (r: ProfileRequest)
    ensures r.name == DisplayName(userName) && r.yearInput == TargetLabel(targetYear) && r.photoUri == uri
  {
    ProfileRequest(DisplayName(userName), TargetLabel(targetYear), uri)
  }

  /** For a signed-in user with a name and a year in range, a new photo keeps both. */
  lemma PhotoRequestKeepsProfile(s: AuthUiState, uri: string)
    requires s.currentUserName.Some? && !IsBlank(s.currentUserName.value)
    requires s.targetYear.Some? && InYearRange(s.targetYear.value)
    requires s.currentUserEmail.Some? && !IsBlank(s.currentUserEmail.value)
    ensures var req := PhotoRequest(s.currentUserName, s.targetYear, Some(uri));
            CheckProfile(s, req.name, req.yearInput, true) ==
              Accepted((Trim(s.currentUserName.value), s.targetYear.value, s.currentUserEmail.value))
  {
    IntToStringRoundTrip(s.targetYear.value);
    TrimKeepsNonBlank(s.currentUserName.value);
  }

  /** Without a stored year the photo request sends "Not set", and the year saved is 2024. */
  lemma PhotoWithoutYearSavesMinimum(s: AuthUiState, uri: string)
    requires s.targetYear.None?
    requires s.currentUserEmail.Some? && !IsBlank(s.currentUserEmail.value)
    ensures var req := PhotoRequest(s.currentUserName, s.targetYear, Some(uri));
            && CheckProfile(s, req.name, req.yearInput, true).Accepted?
            && CheckProfile(s, req.name, req.yearInput, true).value.1 == MIN_TARGET_YEAR
  {
    NotSetHasNoDigits();
    assert ResolveYear(NOT_SET, None, true) == Some(MIN_TARGET_YEAR);
  }

  /** `ProfileScreen`'s own state, for the header built from `userName`, `targetYear` and `avatarUrl`. */
  class ProfileScreen {
    const userName: Option<string>
    const targetYear: Option<int>
    var showEditSheet: bool
    var selectedPhotoUri: Option<string>
    var showConfirmDialog: bool
    var croppedImageUri: Option<string>
    /** The `onUpdateProfile` calls made so far, oldest first. */
    var requests: seq<ProfileRequest>

    constructor (userName: Option<string>, targetYear: Option<int>, avatarUrl: Option<string>)
      ensures this.userName == userName && this.targetYear == targetYear
      ensures !showEditSheet && !showConfirmDialog && selectedPhotoUri == avatarUrl && croppedImageUri == None
      ensures requests == []
    {
      this.userName := userName;
      this.targetYear := targetYear;
      showEditSheet := false;
      selectedPhotoUri := avatarUrl;
      showConfirmDialog := false;
      croppedImageUri := None;
      requests := [];
    }

    method OpenEditSheet()
      modifies this`showEditSheet
      ensures showEditSheet
    {
      showEditSheet := true;
    }

    method DismissEditSheet()
      modifies this`showEditSheet
      ensures !showEditSheet
    {
      showEditSheet := false;
    }

    /** The sheet's `onSave`: send the values with the current photo and close the sheet. */
    method SaveFromSheet(name: string, year: string)
      modifies this`showEditSheet, this`requests
      ensures !showEditSheet && requests == old(requests) + [ProfileRequest(name, year, selectedPhotoUri)]
    {
      requests := requests + [ProfileRequest(name, year, selectedPhotoUri)];
      showEditSheet := false;
    }

    /** The cropper's result: a successful crop is kept and asks for confirmation. */
    method OnCropResult(successful: bool, uri: Option<string>)
      modifies this`croppedImageUri, this`showConfirmDialog
      ensures successful ==> croppedImageUri == uri && showConfirmDialog
      ensures !successful ==> croppedImageUri == old(croppedImageUri) && showConfirmDialog == old(showConfirmDialog)
    {
      if successful {
        croppedImageUri := uri;
        showConfirmDialog := true;
      }
    }

    /** "Set": show the cropped photo, send it with the header's name and target, close the dialog. */
    method ConfirmCrop()
      modifies this`selectedPhotoUri, this`requests, this`showConfirmDialog
      ensures selectedPhotoUri == old(croppedImageUri) && !showConfirmDialog
      ensures requests == old(requests) + [PhotoRequest(userName, targetYear, old(croppedImageUri))]
    {
      selectedPhotoUri := croppedImageUri;
      requests := requests + [ProfileRequest(DisplayName(userName), TargetLabel(targetYear), croppedImageUri)];
      showConfirmDialog := false;
    }

    method DismissCrop()
      modifies this`showConfirmDialog
      ensures !showConfirmDialog
    {
      showConfirmDialog := false;
    }
  }
}
