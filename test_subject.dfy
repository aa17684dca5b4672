/**
 * The timed test: question-pool selection by subject, the session's state
 * machine (answers, bookmarks, a bounded cursor, a countdown that submits
 * at zero), the timer display and the result screen's score.
 */
module TestSubject {
  import opened Wrappers
  import opened Strings

  /**
   * A bundled multiple-choice question, reduced to what the session and the
   * score read: how many options it offers and which one is right.
   */
  datatype TestQuestion = TestQuestion(optionCount: nat, correctIndex: int)

  /** What the session hands to the result screen. */
  datatype TestResultData = TestResultData(
    subject: string,
    questions: seq<TestQuestion>,
    selected: seq<Option<int>>,
    timeTakenSeconds: int)

  /** Ten minutes per test. */
  const TOTAL_TIME_SECONDS: int := 10 * 60

  /** A test never shows more than this many questions. */
  const MAX_QUESTIONS: nat := 10

  // ---------------------------------------------------------------------
  // Score
  // ---------------------------------------------------------------------

  /** `selected.getOrNull(idx) == questions[idx].correctIndex`: a null or missing answer never matches. */
  predicate AnsweredCorrectly(questions: seq<TestQuestion>, selected: seq<Option<int>>, idx: nat)
    requires idx < |questions|
  {
    idx < |selected| && selected[idx] == Some(questions[idx].correctIndex)
  }

  /** The number of correctly answered questions among the first `n`. */
  function CountCorrect(questions: seq<TestQuestion>, selected: seq<Option<int>>, n: nat): (c: nat)
    requires n <= |questions|
    ensures c <= n
  {
    if n == 0 then 0
    else CountCorrect(questions, selected, n - 1) + if AnsweredCorrectly(questions, selected, n - 1) then 1 else 0
  }

  /** The result screen's `questions.indices.count { … }`. */
  function Score(questions: seq<TestQuestion>, selected: seq<Option<int>>): (score: nat)
    ensures score <= |questions|
  {
    CountCorrect(questions, selected, |questions|)
  }

  /** The indices of the correctly answered questions: an independent reference for the score. */
  ghost function CorrectIndices(questions: seq<TestQuestion>, selected: seq<Option<int>>, n: nat): set<nat>
    requires n <= |questions|
  {
    set i: nat | i < n && AnsweredCorrectly(questions, selected, i)
  }

  lemma {:induction false} CountCorrectIsCardinality(questions: seq<TestQuestion>, selected: seq<Option<int>>, n: nat)
    requires n <= |questions|
    ensures CountCorrect(questions, selected, n) == |CorrectIndices(questions, selected, n)|
  {
    if n > 0 {
      CountCorrectIsCardinality(questions, selected, n - 1);
      var prev := CorrectIndices(questions, selected, n - 1);
      if AnsweredCorrectly(questions, selected, n - 1) {
        assert CorrectIndices(questions, selected, n) == prev + {n - 1};
      } else {
        assert CorrectIndices(questions, selected, n) == prev;
      }
    }
  }

  /** The score is exactly the number of indices whose answer equals the correct option. */
  lemma ScoreCountsCorrectAnswers(questions: seq<TestQuestion>, selected: seq<Option<int>>)
    ensures Score(questions, selected) == |CorrectIndices(questions, selected, |questions|)|
  {
    CountCorrectIsCardinality(questions, selected, |questions|);
  }

  lemma {:induction false} CountCorrectFull(questions: seq<TestQuestion>, selected: seq<Option<int>>, n: nat)
    requires n <= |questions|
    ensures CountCorrect(questions, selected, n) == n <==> forall i | 0 <= i < n :: AnsweredCorrectly(questions, selected, i)
  {
    if n > 0 {
      CountCorrectFull(questions, selected, n - 1);
    }
  }

  /** Full marks exactly when every question is answered correctly. */
  lemma PerfectScoreIff(questions: seq<TestQuestion>, selected: seq<Option<int>>)
    ensures Score(questions, selected) == |questions| <==>
            forall i | 0 <= i < |questions| :: AnsweredCorrectly(questions, selected, i)
  {
    CountCorrectFull(questions, selected, |questions|);
  }

  lemma {:induction false} CountCorrectUnanswered(questions: seq<TestQuestion>, selected: seq<Option<int>>, n: nat)
    requires n <= |questions|
    requires forall i | 0 <= i < |selected| :: selected[i] == None
    ensures CountCorrect(questions, selected, n) == 0
  {
    if n > 0 {
      CountCorrectUnanswered(questions, selected, n - 1);
    }
  }

  /** A test submitted with nothing answered scores zero: null answers never count. */
  lemma UnansweredScoresZero(questions: seq<TestQuestion>, selected: seq<Option<int>>)
    requires forall i | 0 <= i < |selected| :: selected[i] == None
    ensures Score(questions, selected) == 0
  {
    CountCorrectUnanswered(questions, selected, |questions|);
  }

  lemma {:induction false} CountCorrectUpdate(questions: seq<TestQuestion>, selected: seq<Option<int>>, k: nat, v: Option<int>, n: nat)
    requires n <= |questions| == |selected| && k < |selected|
    ensures var c := CountCorrect(questions, selected[k := v], n);
            var c0 := CountCorrect(questions, selected, n);
            c0 - 1 <= c <= c0 + 1
    ensures n <= k ==> CountCorrect(questions, selected[k := v], n) == CountCorrect(questions, selected, n)
  {
    if n > 0 {
      CountCorrectUpdate(questions, selected, k, v, n - 1);
    }
  }

  /** Changing one answer moves the score by at most one. */
  lemma OneAnswerMovesScoreByAtMostOne(questions: seq<TestQuestion>, selected: seq<Option<int>>, k: nat, v: Option<int>)
    requires |questions| == |selected| && k < |selected|
    ensures Score(questions, selected) - 1 <= Score(questions, selected[k := v]) <= Score(questions, selected) + 1
  {
    CountCorrectUpdate(questions, selected, k, v, |questions|);
  }

  // ---------------------------------------------------------------------
  // Timer display
  // ---------------------------------------------------------------------

  /** `TimerPill`'s `minutes = t / 60` and `seconds = t % 60`. */
  function TimerParts(t: nat): (r: (nat, nat))
    ensures r.1 < 60 && r.0 * 60 + r.1 == t
  {
    (t / 60, t % 60)
  }

  /** `%02d`: at least two digits, zero-padded. */
  function Pad2(n: nat): (r: string)
    ensures |r| >= 2 && AllDigits(r)
  {
    if n < 10 then "0" + NatToString(n) else NatToString(n)
  }

  /** `String.format("%02d:%02d", minutes, seconds)`. */
  function TimerText(t: nat): (r: string)
    ensures |r| >= 5 && r[|r| - 3] == ':'
    ensures AllDigits(r[|r| - 2..]) && DigitsValue(r[|r| - 2..]) == t % 60
  {
    var (m, s) := TimerParts(t);
    Pad2TwoDigits(s);
    var text := Pad2(m) + ":" + Pad2(s);
    assert text[|text| - 2..] == Pad2(s);
    text
  }

  lemma Pad2TwoDigits(n: nat)
    requires n < 100
    ensures |Pad2(n)| == 2 && AllDigits(Pad2(n)) && DigitsValue(Pad2(n)) == n
  {
    NatToStringValue(n);
    if n < 10 {
      assert Pad2(n)[..1] == "0";
    } else {
      assert NatToString(n) == NatToString(n / 10) + [DigitChar(n % 10)];
    }
  }

  /**
   * Below 100 minutes the pill reads `mm:ss`: five characters, and the two
   * fields read back as the remaining seconds.
   */
  lemma TimerTextReadsBack(t: nat)
    requires t < 6000
    ensures var text := TimerText(t);
            |text| == 5 && text[2] == ':' && AllDigits(text[..2]) && AllDigits(text[3..]) &&
            DigitsValue(text[..2]) * 60 + DigitsValue(text[3..]) == t
  {
    var (m, s) := TimerParts(t);
    Pad2TwoDigits(m);
    Pad2TwoDigits(s);
    var text := TimerText(t);
    assert text[..2] == Pad2(m);
    assert text[3..] == Pad2(s);
  }

  // ---------------------------------------------------------------------
  // Question pools
  // ---------------------------------------------------------------------

  function HistoryQuestions(): seq<TestQuestion> {
    [TestQuestion(4, 0), TestQuestion(4, 1), TestQuestion(4, 2), TestQuestion(4, 1), TestQuestion(4, 0),
     TestQuestion(4, 0), TestQuestion(4, 0), TestQuestion(4, 1), TestQuestion(4, 0), TestQuestion(4, 0)]
  }

  function GeographyQuestions(): seq<TestQuestion> {
    [TestQuestion(4, 2), TestQuestion(4, 0), TestQuestion(4, 0), TestQuestion(4, 2), TestQuestion(4, 1),
     TestQuestion(4, 1), TestQuestion(4, 1), TestQuestion(4, 2), TestQuestion(4, 2), TestQuestion(4, 2)]
  }

  function PolityQuestions(): seq<TestQuestion> {
    [TestQuestion(4, 2), TestQuestion(4, 1), TestQuestion(4, 0), TestQuestion(4, 2), TestQuestion(4, 2),
     TestQuestion(4, 1), TestQuestion(4, 1), TestQuestion(4, 3), TestQuestion(4, 1), TestQuestion(4, 0)]
  }

  function EconomyQuestions(): seq<TestQuestion> {
    [TestQuestion(4, 1), TestQuestion(4, 2), TestQuestion(4, 0), TestQuestion(4, 3), TestQuestion(4, 0),
     TestQuestion(4, 2), TestQuestion(4, 2), TestQuestion(4, 0), TestQuestion(4, 1), TestQuestion(4, 0)]
  }

  function EnvironmentQuestions(): seq<TestQuestion> {
    [TestQuestion(4, 1), TestQuestion(4, 1), TestQuestion(4, 1), TestQuestion(4, 1), TestQuestion(4, 0),
     TestQuestion(4, 1), TestQuestion(4, 2), TestQuestion(4, 0), TestQuestion(4, 1), TestQuestion(4, 1)]
  }

  function ScienceQuestions(): seq<TestQuestion> {
    [TestQuestion(4, 2), TestQuestion(4, 0), TestQuestion(4, 1), TestQuestion(4, 1), TestQuestion(4, 3),
     TestQuestion(4, 1), TestQuestion(4, 1), TestQuestion(4, 2), TestQuestion(4, 1), TestQuestion(4, 1)]
  }

  function GeneralQuestions(): seq<TestQuestion> {
    [TestQuestion(4, 1), TestQuestion(4, 0), TestQuestion(4, 1), TestQuestion(4, 1), TestQuestion(4, 1),
     TestQuestion(4, 2), TestQuestion(4, 0), TestQuestion(4, 2), TestQuestion(4, 0), TestQuestion(4, 1)]
  }

  /** The keywords `generateQuestionsFor` tries, in order. */
  const KEYWORDS: seq<string> := ["History", "Geography", "Polity", "Economy", "Environment", "Science"]

  /** The pool for each keyword, with the general pool last as the fallback. */
  function Pools(): (pools: seq<seq<TestQuestion>>)
    ensures |pools| == |KEYWORDS| + 1
  {
    [HistoryQuestions(), GeographyQuestions(), PolityQuestions(), EconomyQuestions(),
     EnvironmentQuestions(), ScienceQuestions(), GeneralQuestions()]
  }

  /** `take(n)`. */
  function Take<T>(s: seq<T>, n: nat): (r: seq<T>)
    ensures |r| <= n && |r| <= |s| && r == s[..|r|]
    ensures |s| >= n ==> |r| == n
  {
    if |s| <= n then s else s[..n]
  }

  /** `generateQuestionsFor`: the first pool whose keyword the subject contains, ignoring case; at most ten questions. */
  function GenerateQuestionsFor(subject: string): (r: seq<TestQuestion>)
    ensures |r| <= MAX_QUESTIONS
  {
    var pool :=
      if ContainsIgnoreCase(subject, "History") then HistoryQuestions()
      else if ContainsIgnoreCase(subject, "Geography") then GeographyQuestions()
      else if ContainsIgnoreCase(subject, "Polity") then PolityQuestions()
      else if ContainsIgnoreCase(subject, "Economy") then EconomyQuestions()
      else if ContainsIgnoreCase(subject, "Environment") then EnvironmentQuestions()
      else if ContainsIgnoreCase(subject, "Science") then ScienceQuestions()
      else GeneralQuestions();
    Take(pool, MAX_QUESTIONS)
  }

  /** The first keyword index at or after `k` that the subject contains, or `|KEYWORDS|` when none does. */
  function FirstKeywordFrom(subject: string, k: nat): (j: nat)
    requires k <= |KEYWORDS|
    ensures k <= j <= |KEYWORDS|
    ensures j < |KEYWORDS| ==> ContainsIgnoreCase(subject, KEYWORDS[j])
    ensures forall i | k <= i < j :: !ContainsIgnoreCase(subject, KEYWORDS[i])
    decreases |KEYWORDS| - k
  {
    if k == |KEYWORDS| then k
    else if ContainsIgnoreCase(subject, KEYWORDS[k]) then k
    else FirstKeywordFrom(subject, k + 1)
  }

  /**
   * The `when` chain is a first-match search over the keyword list: the test
   * uses the pool of the first keyword the subject contains (the general pool
   * when there is none), cut to ten questions.
   */
  lemma GenerateUsesFirstMatchingKeyword(subject: string)
    ensures GenerateQuestionsFor(subject) == Take(Pools()[FirstKeywordFrom(subject, 0)], MAX_QUESTIONS)
  {
    var j := FirstKeywordFrom(subject, 0);
    assert KEYWORDS[0] == "History" && KEYWORDS[1] == "Geography" && KEYWORDS[2] == "Polity";
    assert KEYWORDS[3] == "Economy" && KEYWORDS[4] == "Environment" && KEYWORDS[5] == "Science";
    if j < |KEYWORDS| {
      assert ContainsIgnoreCase(subject, KEYWORDS[j]);
    }
  }

  /** A question is usable when its answer key names one of its options. */
  predicate WellFormed(q: TestQuestion) {
    0 <= q.correctIndex < q.optionCount
  }

  /** Every bundled pool holds ten questions whose answer keys are valid option indices. */
  lemma BundledPoolsWellFormed()
    ensures forall p | 0 <= p < |Pools()| :: |Pools()[p]| == MAX_QUESTIONS
    ensures forall p, i | 0 <= p < |Pools()| && 0 <= i < |Pools()[p]| :: WellFormed(Pools()[p][i])
  {
  }

  /** Every test has exactly ten well-formed questions, whatever the subject. */
  lemma GeneratedTestShape(subject: string)
    ensures |GenerateQuestionsFor(subject)| == MAX_QUESTIONS
    ensures forall i | 0 <= i < |GenerateQuestionsFor(subject)| :: WellFormed(GenerateQuestionsFor(subject)[i])
  {
    GenerateUsesFirstMatchingKeyword(subject);
    BundledPoolsWellFormed();
  }

  // ---------------------------------------------------------------------
  // The session screen
  // ---------------------------------------------------------------------

  /** The state of `TestSessionScreen`, with one method per handler. */
  class TestSession {
    const subjectName: string
    const questions: seq<TestQuestion>
    var timeLeft: int
    var currentIndex: int
    var selected: seq<Option<int>>
    var bookmarks: seq<bool>
    var completed: bool
    /** The result last handed to the result screen by `submitTest`. */
    var lastResult: Option<TestResultData>

    /** Shapes and bounds of the state, whatever the timer and submission status. */
    ghost predicate Consistent()
      reads this
    {
      && |questions| > 0
      && |selected| == |questions| && |bookmarks| == |questions|
      && 0 <= currentIndex < |questions|
      && 0 <= timeLeft <= TOTAL_TIME_SECONDS
      && (forall i | 0 <= i < |selected| && selected[i].Some? ::
            0 <= selected[i].value < questions[i].optionCount)
    }

    /** The session invariant: a zero timer means the test is submitted, and the submission matches the session. */
    ghost predicate Valid()
      reads this
    {
      && Consistent()
      && (timeLeft == 0 ==> completed)
      && (completed <==> lastResult.Some?)
      && (lastResult.Some? ==>
            && lastResult.value.subject == subjectName
            && lastResult.value.questions == questions
            && |lastResult.value.selected| == |questions|
            && lastResult.value.timeTakenSeconds == TOTAL_TIME_SECONDS - timeLeft)
    }

    /** A fresh session: ten minutes, first question, nothing answered or bookmarked. */
    constructor (subjectName: string)
      ensures Valid()
      ensures this.subjectName == subjectName && questions == GenerateQuestionsFor(subjectName)
      ensures timeLeft == TOTAL_TIME_SECONDS && currentIndex == 0
      ensures selected == seq(|questions|, _ => None)
      ensures bookmarks == seq(|questions|, _ => false)
      ensures !completed && lastResult == None
    {
      GeneratedTestShape(subjectName);
      this.subjectName := subjectName;
      var qs := GenerateQuestionsFor(subjectName);
      questions := qs;
      timeLeft := TOTAL_TIME_SECONDS;
      currentIndex := 0;
      selected := seq(|qs|, _ => None);
      bookmarks := seq(|qs|, _ => false);
      completed := false;
      lastResult := None;
    }

    /** `submitTest`: hand the answers and the elapsed time to the result screen. */
    method Submit()
      requires Consistent()
      modifies this
      ensures Valid()
      ensures completed
      ensures lastResult == Some(TestResultData(subjectName, questions, selected, TOTAL_TIME_SECONDS - timeLeft))
      ensures timeLeft == old(timeLeft) && currentIndex == old(currentIndex)
      ensures selected == old(selected) && bookmarks == old(bookmarks)
    {
      lastResult := Some(TestResultData(subjectName, questions, selected, TOTAL_TIME_SECONDS - timeLeft));
      completed := true;
    }

    /** Choosing option `chosen` answers only the current question. */
    method Select(chosen: int)
      requires Valid()
      requires 0 <= chosen < questions[currentIndex].optionCount
      modifies this`selected
      ensures Valid()
      ensures selected == old(selected)[currentIndex := Some(chosen)]
    {
      selected := selected[currentIndex := Some(chosen)];
    }

    /** The star button flips only the current question's bookmark. */
    method ToggleBookmark()
      requires Valid()
      modifies this`bookmarks
      ensures Valid()
      ensures bookmarks == old(bookmarks)[currentIndex := !old(bookmarks)[currentIndex]]
    {
      var isBookmarked := bookmarks[currentIndex];
      bookmarks := bookmarks[currentIndex := !isBookmarked];
    }

    /** "Previous" is enabled only past the first question. */
    method Previous()
      requires Valid()
      modifies this`currentIndex
      ensures Valid()
      ensures currentIndex == if old(currentIndex) > 0 then old(currentIndex) - 1 else old(currentIndex)
    {
      if currentIndex > 0 {
        currentIndex := currentIndex - 1;
      }
    }

    /** "Next" advances until the last question, where it becomes "Submit". */
    method Next()
      requires Valid()
      modifies this
      ensures Valid()
      ensures old(currentIndex) < |questions| - 1 ==>
                currentIndex == old(currentIndex) + 1 && completed == old(completed) && lastResult == old(lastResult)
      ensures old(currentIndex) == |questions| - 1 ==>
                currentIndex == old(currentIndex) && completed &&
                lastResult == Some(TestResultData(subjectName, questions, selected, TOTAL_TIME_SECONDS - timeLeft))
      ensures timeLeft == old(timeLeft) && selected == old(selected) && bookmarks == old(bookmarks)
    {
      if currentIndex < |questions| - 1 {
        currentIndex := currentIndex + 1;
      } else {
        Submit();
      }
    }

    /** One second of the countdown: only while running, and it submits when it reaches zero. */
    method Tick()
      requires Valid()
      modifies this
      ensures Valid()
      ensures old(!completed && timeLeft > 0) ==> timeLeft == old(timeLeft) - 1
      ensures old(completed || timeLeft == 0) ==> timeLeft == old(timeLeft) && completed == old(completed) && lastResult == old(lastResult)
      ensures old(!completed && timeLeft > 0) ==>
                (completed <==> timeLeft == 0) &&
                (timeLeft == 0 ==> lastResult == Some(TestResultData(subjectName, questions, selected, TOTAL_TIME_SECONDS)))
      ensures currentIndex == old(currentIndex) && selected == old(selected) && bookmarks == old(bookmarks)
    {
      if !completed && timeLeft > 0 {
        timeLeft := timeLeft - 1;
        if timeLeft == 0 {
          Submit();
        }
      }
    }

    /** The timer loop left to run with no other input: it ends submitted, with the whole ten minutes used. */
    method RunCountdown()
      requires Valid()
      modifies this
      ensures Valid() && completed
      ensures old(completed) ==> timeLeft == old(timeLeft) && lastResult == old(lastResult)
      ensures !old(completed) ==>
                timeLeft == 0 && lastResult == Some(TestResultData(subjectName, questions, selected, TOTAL_TIME_SECONDS))
      ensures currentIndex == old(currentIndex) && selected == old(selected) && bookmarks == old(bookmarks)
    {
      while !completed && timeLeft > 0
        invariant Valid()
        invariant old(completed) ==> timeLeft == old(timeLeft) && lastResult == old(lastResult) && completed
        invariant completed && !old(completed) ==>
                    timeLeft == 0 && lastResult == Some(TestResultData(subjectName, questions, selected, TOTAL_TIME_SECONDS))
        invariant currentIndex == old(currentIndex) && selected == old(selected) && bookmarks == old(bookmarks)
        decreases timeLeft
      {
        timeLeft := timeLeft - 1;
        if timeLeft == 0 {
          Submit();
        }
      }
    }
  }
}
