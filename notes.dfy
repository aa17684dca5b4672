/**
 * The notes screen: the search filter over notes, the rotating tip card,
 * and the reference-book catalogue with its book and unit lookups.
 */
module Notes {
  import opened Wrappers
  import opened Strings
  import opened Sequences

  // ---------------------------------------------------------------------
  // Search filter
  // ---------------------------------------------------------------------

  datatype NoteItem = NoteItem(id: int, subjectTag: string, date: string, title: string, preview: string, tags: seq<string>)

  /** Some tag of the note contains the query, ignoring case. */
  predicate SomeTagMatches(tags: seq<string>, query: string) {
    exists k | 0 <= k < |tags| :: ContainsIgnoreCase(tags[k], query)
  }

  /** The filter's condition for one note. */
  predicate Keeps(note: NoteItem, query: string) {
    || IsBlank(query)
    || ContainsIgnoreCase(note.title, query)
    || ContainsIgnoreCase(note.preview, query)
    || SomeTagMatches(note.tags, query)
  }

  /** `notes.filter { … }`: the notes the query keeps, in their order. */
  function FilteredNotes(notes: seq<NoteItem>, query: string): (r: seq<NoteItem>)
    ensures |r| <= |notes|
    ensures forall n :: n in r <==> n in notes && Keeps(n, query)
    ensures forall n :: multiset(r)[n] == if Keeps(n, query) then multiset(notes)[n] else 0
    ensures SubsequenceOf(r, notes)
  {
    if notes == [] then []
    else
      var rest := FilteredNotes(notes[1..], query);
      assert notes == [notes[0]] + notes[1..];
      if Keeps(notes[0], query) then
        assert ([notes[0]] + rest)[1..] == rest;
        [notes[0]] + rest
      else
        SubsequenceDropFront(rest, notes);
        rest
  }

  /** A blank query shows every note, unchanged. */
  lemma {:induction false} BlankQueryShowsAll(notes: seq<NoteItem>, query: string)
    requires IsBlank(query)
    ensures FilteredNotes(notes, query) == notes
  {
    if notes != [] {
      BlankQueryShowsAll(notes[1..], query);
      assert notes == [notes[0]] + notes[1..];
    }
  }

  /** Filtering the filtered list again changes nothing. */
  lemma {:induction false} FilterIdempotent(notes: seq<NoteItem>, query: string)
    ensures FilteredNotes(FilteredNotes(notes, query), query) == FilteredNotes(notes, query)
  {
    if notes != [] {
      FilterIdempotent(notes[1..], query);
      var rest := FilteredNotes(notes[1..], query);
      if Keeps(notes[0], query) {
        assert ([notes[0]] + rest)[1..] == rest;
      }
    }
  }

  // ---------------------------------------------------------------------
  // Tip card
  // ---------------------------------------------------------------------

  /** The number of tips on the card. */
  const TIP_COUNT: nat := 3

  /** `(i + 1) % n`: the auto-advance and the left swipe. */
  function NextTip(i: nat, n: nat): (r: nat)
    requires i < n
    ensures r < n
    ensures i + 1 < n ==> r == i + 1
    ensures i + 1 == n ==> r == 0
  {
    (i + 1) % n
  }

  /** `(i - 1 + n) % n`: the right swipe. Its operand is never negative, so Kotlin's `%` agrees with this one. */
  function PrevTip(i: nat, n: nat): (r: nat)
    requires i < n
    ensures r < n
    ensures i > 0 ==> r == i - 1
    ensures i == 0 ==> r == n - 1
  {
    (i - 1 + n) % n
  }

  /** A right swipe then a left swipe, or the other way round, lands on the tip shown before. */
  lemma SwipesUndoEachOther(i: nat, n: nat)
    requires i < n
    ensures NextTip(PrevTip(i, n), n) == i
    ensures PrevTip(NextTip(i, n), n) == i
  {
  }

  /** Three auto-advances cycle through every tip and come back. */
  lemma AutoAdvanceCycles(i: nat)
    requires i < TIP_COUNT
    ensures NextTip(NextTip(NextTip(i, TIP_COUNT), TIP_COUNT), TIP_COUNT) == i
    ensures {i, NextTip(i, TIP_COUNT), NextTip(NextTip(i, TIP_COUNT), TIP_COUNT)} == {0, 1, 2}
  {
  }

  /**
   * How a horizontal drag ended: further than 60 to the right, further than
   * 60 to the left, or neither.
   */
  datatype Swipe = SwipeRight | SwipeLeft | NoSwipe

  /** The tip card's index, changed by the timer and by swipes. */
  class TipCard {
    var tipIndex: nat

    ghost predicate Valid()
      reads this
    {
      tipIndex < TIP_COUNT
    }

    constructor ()
      ensures Valid() && tipIndex == 0
    {
      tipIndex := 0;
    }

    /** One turn of the `while (true)` loop, after its 20-second delay. */
    method AutoAdvance()
      requires Valid()
      modifies this
      ensures Valid() && tipIndex == NextTip(old(tipIndex), TIP_COUNT)
    {
      tipIndex := (tipIndex + 1) % TIP_COUNT;
    }

    /** `onDragEnd`: a right swipe shows the previous tip, a left swipe the next. */
    method OnDragEnd(swipe: Swipe)
      requires Valid()
      modifies this
      ensures Valid()
      ensures swipe == SwipeRight ==> tipIndex == PrevTip(old(tipIndex), TIP_COUNT)
      ensures swipe == SwipeLeft ==> tipIndex == NextTip(old(tipIndex), TIP_COUNT)
      ensures swipe == NoSwipe ==> tipIndex == old(tipIndex)
    {
      match swipe
      case SwipeRight => tipIndex := (tipIndex - 1 + TIP_COUNT) % TIP_COUNT;
      case SwipeLeft => tipIndex := (tipIndex + 1) % TIP_COUNT;
      case NoSwipe =>
    }
  }

  // ---------------------------------------------------------------------
  // Reference books
  // ---------------------------------------------------------------------

  /** A catalogue entry; the summary and unit names are not kept, only how many units there are. */
  datatype ReferenceBook = ReferenceBook(title: string, author: string, unitCount: nat)

  /** The folder cards on the notes screen, in order. */
  const FOLDERS: seq<string> := [
    "History", "Polity", "Geography", "Economy", "Science & Technology", "Environment & Ecology"
  ]

  const HISTORY_BOOKS: seq<ReferenceBook> := [
    ReferenceBook("Spectrum \U{2013} Modern India", "Rajiv Ahir", 4),
    ReferenceBook("India's Struggle for Independence", "Bipan Chandra", 3),
    ReferenceBook("Ancient & Medieval India", "Poonam Dalal Dahiya", 4),
    ReferenceBook("Plassey to Partition", "Sekhar Bandyopadhyay", 3),
    ReferenceBook("History of Modern India", "Bipan Chandra", 3),
    ReferenceBook("A Brief History of Modern India", "Spectrum", 3),
    ReferenceBook("India Since Independence", "Bipan Chandra", 3)
  ]

  const GEOGRAPHY_BOOKS: seq<ReferenceBook> := [
    ReferenceBook("NCERT Fundamentals of Physical Geography", "NCERT", 3),
    ReferenceBook("G.C. Leong Physical Geography", "G.C. Leong", 3),
    ReferenceBook("India: Physical Environment", "NCERT", 3),
    ReferenceBook("India: People and Economy", "NCERT", 3),
    ReferenceBook("Oxford School Atlas", "Oxford", 3),
    ReferenceBook("Certificate Physical & Human Geography", "Goh Cheng Leong", 3),
    ReferenceBook("Savindra Singh Physical Geography", "Savindra Singh", 3)
  ]

  const POLITY_BOOKS: seq<ReferenceBook> := [
    ReferenceBook("Indian Polity", "M. Laxmikanth", 3),
    ReferenceBook("Introduction to the Constitution of India", "D.D. Basu", 3),
    ReferenceBook("PM Bakshi \U{2013} Constitution of India", "P.M. Bakshi", 3),
    ReferenceBook("Our Parliament", "Subhash Kashyap", 3),
    ReferenceBook("Governance in India", "M. Laxmikanth", 3),
    ReferenceBook("Polity Question Bank", "TMH/Arihant", 3),
    ReferenceBook("Working a Democratic Constitution", "Granville Austin", 3)
  ]

  const ECONOMY_BOOKS: seq<ReferenceBook> := [
    ReferenceBook("Indian Economy", "Ramesh Singh", 3),
    ReferenceBook("Indian Economy", "Sanjiv Verma", 3),
    ReferenceBook("Economic Survey (Key Chapters)", "MoF", 3),
    ReferenceBook("Sriram IAS Economy Notes", "Sriram IAS", 3),
    ReferenceBook("NCERT Economics (11-12)", "NCERT", 3),
    ReferenceBook("Indian Economy Key Concepts", "Shankar Ganesh", 3),
    ReferenceBook("Budget & Survey Digest", "Compilation", 3)
  ]

  const ENVIRONMENT_BOOKS: seq<ReferenceBook> := [
    ReferenceBook("Environment", "Shankar IAS", 3),
    ReferenceBook("PMF IAS Environment", "PMF IAS", 3),
    ReferenceBook("NCERT Bio Environment Units", "NCERT", 3),
    ReferenceBook("Majid Husain Environment", "Majid Husain", 3),
    ReferenceBook("Down To Earth Compendium", "CEE/DTL", 3),
    ReferenceBook("Environmental Studies", "R. Rajagopalan", 3),
    ReferenceBook("Report Summaries", "UNEP/WWF/IPCC", 3)
  ]

  const SCIENCE_BOOKS: seq<ReferenceBook> := [
    ReferenceBook("NCERT Science (9-10)", "NCERT", 3),
    ReferenceBook("NCERT Science (11-12) Condensed", "NCERT", 3),
    ReferenceBook("Lucent General Science", "Lucent", 3),
    ReferenceBook("Arihant General Science", "Arihant", 3),
    ReferenceBook("Science & Technology for UPSC", "TMH/McGraw Hill", 3),
    ReferenceBook("NCERT Exemplar (9-12)", "NCERT", 3),
    ReferenceBook("General Science for Civil Services", "Spectrum", 3)
  ]

  /** `buildReferenceBooks()`. */
  function ReferenceCatalogue(): map<string, seq<ReferenceBook>> {
    map[
      "History" := HISTORY_BOOKS,
      "Geography" := GEOGRAPHY_BOOKS,
      "Polity" := POLITY_BOOKS,
      "Economy" := ECONOMY_BOOKS,
      "Environment & Ecology" := ENVIRONMENT_BOOKS,
      "Science & Technology" := SCIENCE_BOOKS
    ]
  }

  /** `buildReferenceBooks()[subject] ?: emptyList()`: empty exactly when the subject has no entry. */
  function BooksFor(subject: string): (r: seq<ReferenceBook>)
    ensures subject in ReferenceCatalogue() ==> r == ReferenceCatalogue()[subject] && |r| == 7
    ensures subject !in ReferenceCatalogue() ==> r == []
  {
    var catalogue := ReferenceCatalogue();
    if subject in catalogue then catalogue[subject] else []
  }

  /** Every folder has catalogue entries, so no folder reaches "Reference books not configured yet.". */
  lemma EveryFolderHasBooks()
    ensures forall k | 0 <= k < |FOLDERS| :: FOLDERS[k] in ReferenceCatalogue() && BooksFor(FOLDERS[k]) != []
  {
  }

  /** `firstOrNull { it.title == title }`: the first book with that exact title, or none. */
  function FirstWithTitle(books: seq<ReferenceBook>, title: string): (r: Option<nat>)
    ensures r.Some? ==> r.value < |books| && books[r.value].title == title
    ensures r.Some? ==> forall k | 0 <= k < r.value :: books[k].title != title
    ensures r.None? <==> forall k | 0 <= k < |books| :: books[k].title != title
  {
    if books == [] then None
    else if books[0].title == title then Some(0)
    else
      match FirstWithTitle(books[1..], title)
      case None => None
      case Some(k) => Some(k + 1)
  }

  /** The book the units screen shows for a subject and a title; None shows "Units not found for this book.". */
  function UnitsScreenBook(subject: string, title: string): (r: Option<ReferenceBook>)
    ensures r.Some? <==> exists k | 0 <= k < |BooksFor(subject)| :: BooksFor(subject)[k].title == title
    ensures r.Some? ==> r.value in BooksFor(subject) && r.value.title == title
    ensures r.Some? ==> exists k | 0 <= k < |BooksFor(subject)| ::
                          && r.value == BooksFor(subject)[k]
                          && forall j | 0 <= j < k :: BooksFor(subject)[j].title != title
  {
    var books := BooksFor(subject);
    match FirstWithTitle(books, title)
    case None => None
    case Some(k) => Some(books[k])
  }

  /** The unit cards are labelled "Unit 1", "Unit 2", …: one number per unit, counting from 1. */
  function UnitNumbers(book: ReferenceBook): (r: seq<nat>)
    ensures |r| == book.unitCount
    ensures forall k | 0 <= k < |r| :: r[k] == k + 1
  {
    seq(book.unitCount, k requires 0 <= k < book.unitCount => k + 1)
  }

  /**
   * As written, the second economy card ("Indian Economy", Sanjiv Verma)
   * opens the units of the first ("Indian Economy", Ramesh Singh): both
   * cards carry the same title and the lookup takes the first match.
   */
  lemma SecondEconomyCardShowsFirstBook()
    ensures var books := BooksFor("Economy");
            && UnitsScreenBook("Economy", books[1].title) == Some(books[0])
            && books[0] != books[1]
  {
    var books := BooksFor("Economy");
    assert books == ECONOMY_BOOKS;
    assert books[0].author[0] != books[1].author[0];
  }

  /** The lookup keyed by what tells the cards apart: the first book with this title and author. */
  function FirstWithTitleAndAuthor(books: seq<ReferenceBook>, title: string, author: string): (r: Option<nat>)
    ensures r.Some? ==> r.value < |books| && books[r.value].title == title && books[r.value].author == author
    ensures r.Some? ==> forall k | 0 <= k < r.value :: books[k].title != title || books[k].author != author
    ensures r.None? <==> forall k | 0 <= k < |books| :: books[k].title != title || books[k].author != author
  {
    if books == [] then None
    else if books[0].title == title && books[0].author == author then Some(0)
    else
      match FirstWithTitleAndAuthor(books[1..], title, author)
      case None => None
      case Some(k) => Some(k + 1)
  }

  /** No two books of a list share both title and author. */
  ghost predicate TitleAuthorUnique(books: seq<ReferenceBook>) {
    forall i, j | 0 <= i < j < |books| :: books[i].title != books[j].title || books[i].author != books[j].author
  }

  /**
   * A cheap key per book: the lengths of its title and author and the
   * author's initial. Books with different keys differ in title or author,
   * so each per-subject lemma below proves (title, author) unique by
   * listing the seven keys of that subject and checking they are distinct.
   */
  function Fingerprint(b: ReferenceBook): (int, int, char) {
    (|b.title|, |b.author|, if b.author == "" then ' ' else b.author[0])
  }

  lemma HistoryTitleAuthorUnique()
    ensures TitleAuthorUnique(HISTORY_BOOKS)
  {
    var b := HISTORY_BOOKS;
    var keys := [(23, 10, 'R'), (33, 13, 'B'), (24, 19, 'P'), (20, 20, 'S'), (23, 13, 'B'), (31, 8, 'S'), (24, 13, 'B')];
    assert Fingerprint(b[0]) == keys[0] && Fingerprint(b[1]) == keys[1] && Fingerprint(b[2]) == keys[2];
    assert Fingerprint(b[3]) == keys[3] && Fingerprint(b[4]) == keys[4] && Fingerprint(b[5]) == keys[5];
    assert Fingerprint(b[6]) == keys[6];
    assert forall i, j | 0 <= i < j < |keys| :: keys[i] != keys[j];
    assert forall i, j | 0 <= i < j < |b| :: Fingerprint(b[i]) != Fingerprint(b[j]);
  }

  lemma GeographyTitleAuthorUnique()
    ensures TitleAuthorUnique(GEOGRAPHY_BOOKS)
  {
    var b := GEOGRAPHY_BOOKS;
    var keys := [(40, 5, 'N'), (29, 10, 'G'), (27, 5, 'N'), (25, 5, 'N'), (19, 6, 'O'), (38, 15, 'G'), (33, 14, 'S')];
    assert Fingerprint(b[0]) == keys[0] && Fingerprint(b[1]) == keys[1] && Fingerprint(b[2]) == keys[2];
    assert Fingerprint(b[3]) == keys[3] && Fingerprint(b[4]) == keys[4] && Fingerprint(b[5]) == keys[5];
    assert Fingerprint(b[6]) == keys[6];
    assert forall i, j | 0 <= i < j < |keys| :: keys[i] != keys[j];
    assert forall i, j | 0 <= i < j < |b| :: Fingerprint(b[i]) != Fingerprint(b[j]);
  }

  lemma PolityTitleAuthorUnique()
    ensures TitleAuthorUnique(POLITY_BOOKS)
  {
    var b := POLITY_BOOKS;
    var keys := [(13, 13, 'M'), (41, 9, 'D'), (33, 11, 'P'), (14, 15, 'S'), (19, 13, 'M'), (20, 11, 'T'), (33, 16, 'G')];
    assert Fingerprint(b[0]) == keys[0] && Fingerprint(b[1]) == keys[1] && Fingerprint(b[2]) == keys[2];
    assert Fingerprint(b[3]) == keys[3] && Fingerprint(b[4]) == keys[4] && Fingerprint(b[5]) == keys[5];
    assert Fingerprint(b[6]) == keys[6];
    assert forall i, j | 0 <= i < j < |keys| :: keys[i] != keys[j];
    assert forall i, j | 0 <= i < j < |b| :: Fingerprint(b[i]) != Fingerprint(b[j]);
  }

  lemma EconomyTitleAuthorUnique()
    ensures TitleAuthorUnique(ECONOMY_BOOKS)
  {
    var b := ECONOMY_BOOKS;
    var keys := [(14, 12, 'R'), (14, 12, 'S'), (30, 3, 'M'), (24, 10, 'S'), (23, 5, 'N'), (27, 14, 'S'), (22, 11, 'C')];
    assert Fingerprint(b[0]) == keys[0] && Fingerprint(b[1]) == keys[1] && Fingerprint(b[2]) == keys[2];
    assert Fingerprint(b[3]) == keys[3] && Fingerprint(b[4]) == keys[4] && Fingerprint(b[5]) == keys[5];
    assert Fingerprint(b[6]) == keys[6];
    assert forall i, j | 0 <= i < j < |keys| :: keys[i] != keys[j];
    assert forall i, j | 0 <= i < j < |b| :: Fingerprint(b[i]) != Fingerprint(b[j]);
  }

  lemma EnvironmentTitleAuthorUnique()
    ensures TitleAuthorUnique(ENVIRONMENT_BOOKS)
  {
    var b := ENVIRONMENT_BOOKS;
    var keys := [(11, 11, 'S'), (19, 7, 'P'), (27, 5, 'N'), (24, 12, 'M'), (24, 7, 'C'), (21, 14, 'R'), (16, 13, 'U')];
    assert Fingerprint(b[0]) == keys[0] && Fingerprint(b[1]) == keys[1] && Fingerprint(b[2]) == keys[2];
    assert Fingerprint(b[3]) == keys[3] && Fingerprint(b[4]) == keys[4] && Fingerprint(b[5]) == keys[5];
    assert Fingerprint(b[6]) == keys[6];
    assert forall i, j | 0 <= i < j < |keys| :: keys[i] != keys[j];
    assert forall i, j | 0 <= i < j < |b| :: Fingerprint(b[i]) != Fingerprint(b[j]);
  }

  lemma ScienceTitleAuthorUnique()
    ensures TitleAuthorUnique(SCIENCE_BOOKS)
  {
    var b := SCIENCE_BOOKS;
    var keys := [(20, 5, 'N'), (31, 5, 'N'), (22, 6, 'L'), (23, 7, 'A'), (29, 15, 'T'), (21, 5, 'N'), (34, 8, 'S')];
    assert Fingerprint(b[0]) == keys[0] && Fingerprint(b[1]) == keys[1] && Fingerprint(b[2]) == keys[2];
    assert Fingerprint(b[3]) == keys[3] && Fingerprint(b[4]) == keys[4] && Fingerprint(b[5]) == keys[5];
    assert Fingerprint(b[6]) == keys[6];
    assert forall i, j | 0 <= i < j < |keys| :: keys[i] != keys[j];
    assert forall i, j | 0 <= i < j < |b| :: Fingerprint(b[i]) != Fingerprint(b[j]);
  }

  /** Every subject's list has unique (title, author) pairs. */
  lemma CatalogueTitleAuthorUnique(subject: string)
    ensures TitleAuthorUnique(BooksFor(subject))
  {
    HistoryTitleAuthorUnique();
    GeographyTitleAuthorUnique();
    PolityTitleAuthorUnique();
    EconomyTitleAuthorUnique();
    EnvironmentTitleAuthorUnique();
    ScienceTitleAuthorUnique();
  }

  /** The units screen with the corrected lookup: None still shows "Units not found for this book.". */
  function UnitsScreenBookFixed(subject: string, title: string, author: string): (r: Option<ReferenceBook>)
    ensures r.Some? ==> r.value in BooksFor(subject) && r.value.title == title && r.value.author == author
    ensures r.None? <==> forall k | 0 <= k < |BooksFor(subject)| ::
                           BooksFor(subject)[k].title != title || BooksFor(subject)[k].author != author
  {
    var books := BooksFor(subject);
    match FirstWithTitleAndAuthor(books, title, author)
    case None => None
    case Some(k) => Some(books[k])
  }

  /** With the corrected lookup, tapping any card opens that very book's units. */
  lemma TappedCardOpensItsBook(subject: string, i: nat)
    requires i < |BooksFor(subject)|
    ensures UnitsScreenBookFixed(subject, BooksFor(subject)[i].title, BooksFor(subject)[i].author) == Some(BooksFor(subject)[i])
  {
    var books := BooksFor(subject);
    CatalogueTitleAuthorUnique(subject);
    var k := FirstWithTitleAndAuthor(books, books[i].title, books[i].author);
    assert k.Some?;
  }
}
