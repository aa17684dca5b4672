/**
 * The previous-year-questions screens: the tab filter over the question
 * bank, the papers list with its "View Paper" actions, the paper detail
 * lookup, and the PDF export's lines and pagination.
 */
module Pyq {
  import opened Wrappers
  import opened Strings
  import opened Sequences

  // ---------------------------------------------------------------------
  // Data
  // ---------------------------------------------------------------------

  datatype PyqQuestion = PyqQuestion(
    id: string,
    year: string,
    paper: string,
    subject: string,
    question: string,
    answer: string,
    explanation: string)

  /** What a paper's "View Paper" button does: nothing, or export this paper with these questions. */
  datatype ViewAction = NoAction | OpenPdf(paper: PyqPaper, questions: seq<PyqQuestion>)

  /** A paper card; the icon and its colours are not kept. */
  datatype PyqPaper = PyqPaper(
    id: string,
    title: string,
    questions: string,
    statusLabel: Option<string>,
    score: Option<int>,
    onViewPaper: ViewAction)

  const YEAR_WISE: string := "Year-wise"
  const SUBJECT_WISE: string := "Subject-wise"
  const TABS: seq<string> := [YEAR_WISE, SUBJECT_WISE]
  const YEARS: seq<string> := ["2024", "2023", "2022", "2021", "2020"]
  const SUBJECTS: seq<string> := ["GS Paper 1", "GS Paper 2", "GS Paper 3", "CSAT"]

  /** `providePyqPapers()`, whose buttons do nothing until the screen wires them. */
  const PAPERS: seq<PyqPaper> := [
    PyqPaper("gs_paper_1", "GS Paper 1", "100 Questions", Some("Downloaded"), Some(68), NoAction),
    PyqPaper("gs_paper_2", "GS Paper 2", "100 Questions", Some("Downloaded"), None, NoAction),
    PyqPaper("gs_paper_3", "GS Paper 3", "100 Questions", None, None, NoAction),
    PyqPaper("csat", "CSAT", "80 Questions", Some("Downloaded"), Some(72), NoAction)
  ]

  /** `providePyqQuestions()`. */
  const QUESTIONS: seq<PyqQuestion> := [
    PyqQuestion("2024_gs1_1", "2024", "GS Paper 1", "History",
      "With reference to the Indian National Movement, what was the immediate cause of launching the Non-Cooperation Movement in 1920?",
      "The Rowlatt Act and Jallianwala Bagh massacre",
      "Gandhi launched the Non-Cooperation Movement after the repressive Rowlatt Act and the Jallianwala Bagh massacre in 1919."),
    PyqQuestion("2023_gs1_1", "2023", "GS Paper 1", "Geography",
      "Why do tropical cyclones not originate in the South Atlantic and South Eastern Pacific Oceans?",
      "Due to weak Coriolis force and cooler sea surface temperatures",
      "Cooler waters and weak Coriolis force near the equator in these basins inhibit cyclone formation."),
    PyqQuestion("2022_gs2_1", "2022", "GS Paper 2", "Polity",
      "Discuss the significance of the 102nd Constitutional Amendment for the backward class commissions in India.",
      "It gave constitutional status to the National Commission for Backward Classes under Article 338B.",
      "The amendment introduced Articles 338B and 342A, making NCBC a constitutional body and detailing central and state lists of SEBCs."),
    PyqQuestion("2021_gs3_1", "2021", "GS Paper 3", "Economy",
      "What are Minimum Support Prices (MSP) and how do they impact farmers' income?",
      "MSP is a pre-announced price at which government procures crops; it provides price assurance and reduces income volatility.",
      "MSP cushions farmers against market crashes, incentivises crop choices, and stabilises incomes when procurement occurs."),
    PyqQuestion("2020_csat_1", "2020", "CSAT", "Reasoning",
      "If A is thrice as good a worker as B, and together they finish a work in 18 days, how long would B alone take?",
      "72 days",
      "A's rate = 3B. Combined rate 4B = 1/18 -> B = 1/72, so B alone takes 72 days.")
  ]

  // ---------------------------------------------------------------------
  // Filters
  // ---------------------------------------------------------------------

  /** `qs.filter(keep)`: the questions `keep` accepts, in their order. */
  function Select(qs: seq<PyqQuestion>, keep: PyqQuestion -> bool): (r: seq<PyqQuestion>)
    ensures |r| <= |qs|
    ensures forall q :: q in r <==> q in qs && keep(q)
    ensures SubsequenceOf(r, qs)
  {
    if qs == [] then []
    else
      var rest := Select(qs[1..], keep);
      assert qs == [qs[0]] + qs[1..];
      if keep(qs[0]) then
        assert ([qs[0]] + rest)[1..] == rest;
        [qs[0]] + rest
      else
        SubsequenceDropFront(rest, qs);
        rest
  }

  /** The filter keeps every copy of an accepted question and no copy of a rejected one. */
  lemma {:induction false} SelectCounts(qs: seq<PyqQuestion>, keep: PyqQuestion -> bool)
    ensures forall q :: multiset(Select(qs, keep))[q] == if keep(q) then multiset(qs)[q] else 0
  {
    if qs != [] {
      SelectCounts(qs[1..], keep);
      assert qs == [qs[0]] + qs[1..];
    }
  }

  /** The list under the tabs: the selected year's questions on "Year-wise", else the selected paper's. */
  predicate ShownOnTab(q: PyqQuestion, tab: string, year: string, subject: string) {
    if tab == YEAR_WISE then q.year == year else q.paper == subject
  }

  function TabQuestions(qs: seq<PyqQuestion>, tab: string, year: string, subject: string): (r: seq<PyqQuestion>)
    ensures SubsequenceOf(r, qs)
    ensures tab == YEAR_WISE ==> forall q :: q in r <==> q in qs && q.year == year
    ensures tab != YEAR_WISE ==> forall q :: q in r <==> q in qs && q.paper == subject
    ensures forall q :: multiset(r)[q] == if ShownOnTab(q, tab, year, subject) then multiset(qs)[q] else 0
  {
    SelectCounts(qs, (q: PyqQuestion) => ShownOnTab(q, tab, year, subject));
    Select(qs, (q: PyqQuestion) => ShownOnTab(q, tab, year, subject))
  }

  /** The questions the PDF export is given: paper name equal to the title, case and all. */
  function PdfQuestions(qs: seq<PyqQuestion>, title: string): (r: seq<PyqQuestion>)
    ensures SubsequenceOf(r, qs)
    ensures forall q :: q in r <==> q in qs && q.paper == title
    ensures forall q :: multiset(r)[q] == if q.paper == title then multiset(qs)[q] else 0
  {
    SelectCounts(qs, (q: PyqQuestion) => q.paper == title);
    Select(qs, (q: PyqQuestion) => q.paper == title)
  }

  /** The detail screen's list: paper name equal to the title ignoring case, and nothing without a paper. */
  function DetailQuestions(qs: seq<PyqQuestion>, paper: Option<PyqPaper>): (r: seq<PyqQuestion>)
    ensures SubsequenceOf(r, qs)
    ensures forall q :: q in r <==> q in qs && paper.Some? && EqualsIgnoreCase(q.paper, paper.value.title)
    ensures paper.None? ==> r == []
    ensures forall q :: multiset(r)[q] ==
              if paper.Some? && EqualsIgnoreCase(q.paper, paper.value.title) then multiset(qs)[q] else 0
  {
    match paper
    case None => []  // `equals(null)` holds for no paper name
    case Some(p) =>
      SelectCounts(qs, (q: PyqQuestion) => EqualsIgnoreCase(q.paper, p.title));
      Select(qs, (q: PyqQuestion) => EqualsIgnoreCase(q.paper, p.title))
  }

  /** No two questions share an id, as the list's item keys require. */
  predicate IdsDistinct(qs: seq<PyqQuestion>) {
    forall i, j | 0 <= i < j < |qs| :: qs[i].id != qs[j].id
  }

  /** Filtering never introduces a repeated id. */
  lemma {:induction false} SelectKeepsIdsDistinct(qs: seq<PyqQuestion>, keep: PyqQuestion -> bool)
    requires IdsDistinct(qs)
    ensures IdsDistinct(Select(qs, keep))
  {
    if qs != [] {
      var rest := Select(qs[1..], keep);
      assert IdsDistinct(qs[1..]) by {
        forall i, j | 0 <= i < j < |qs[1..]| ensures qs[1..][i].id != qs[1..][j].id {
          assert qs[1..][i] == qs[i + 1] && qs[1..][j] == qs[j + 1];
        }
      }
      SelectKeepsIdsDistinct(qs[1..], keep);
      if keep(qs[0]) {
        var r := [qs[0]] + rest;
        forall i, j | 0 <= i < j < |r| ensures r[i].id != r[j].id {
          if i == 0 {
            assert r[j] == rest[j - 1] && rest[j - 1] in qs[1..];
            var k :| 0 <= k < |qs[1..]| && qs[1..][k] == r[j];
            assert qs[k + 1] == r[j];
          } else {
            assert r[i] == rest[i - 1] && r[j] == rest[j - 1];
          }
        }
      }
    }
  }

  /** The tab list never repeats an id of a bank without repeats. */
  lemma TabQuestionsKeepIdsDistinct(qs: seq<PyqQuestion>, tab: string, year: string, subject: string)
    requires IdsDistinct(qs)
    ensures IdsDistinct(TabQuestions(qs, tab, year, subject))
  {
    SelectKeepsIdsDistinct(qs, (q: PyqQuestion) => ShownOnTab(q, tab, year, subject));
  }

  /** Every match the PDF takes is also on the detail screen: equal names are equal ignoring case. */
  lemma PdfQuestionsOnDetail(qs: seq<PyqQuestion>, paper: PyqPaper, q: PyqQuestion)
    requires q in PdfQuestions(qs, paper.title)
    ensures q in DetailQuestions(qs, Some(paper))
  {
  }

  /** A question filed as "csat" is on the CSAT detail screen but not in the CSAT PDF. */
  lemma CaseOnlyDifferenceSplitsViews()
    ensures var q := PyqQuestion("x", "2020", "csat", "Reasoning", "", "", "");
            var paper := PAPERS[3];
            q in DetailQuestions([q], Some(paper)) && q !in PdfQuestions([q], paper.title)
  {
    var q := PyqQuestion("x", "2020", "csat", "Reasoning", "", "", "");
    assert LowerStr("csat") == LowerStr("CSAT") by {
      assert LowerStr("csat") == "csat" && LowerStr("CSAT") == "csat";
    }
    assert q.paper != PAPERS[3].title by { assert q.paper[0] != PAPERS[3].title[0]; }
  }

  /** The bundled bank's ids are distinct, so the tab list's keys are too. */
  lemma BankIdsDistinct()
    ensures IdsDistinct(QUESTIONS)
  {
    var q := QUESTIONS;
    assert q[0].id[3] == '4' && q[1].id[3] == '3' && q[2].id[3] == '2' && q[3].id[3] == '1' && q[4].id[3] == '0';
  }

  /** The list shown on first entry: year-wise, 2023. */
  lemma FirstEntryShowsTheYear2023Question()
    ensures TabQuestions(QUESTIONS, YEAR_WISE, "2023", SUBJECTS[0]) == [QUESTIONS[1]]
  {
    var q := QUESTIONS;
    var keep := (x: PyqQuestion) => ShownOnTab(x, YEAR_WISE, "2023", SUBJECTS[0]);
    assert Select(q[5..], keep) == [];
    SelectDrop(q, 4, keep);
    SelectDrop(q, 3, keep);
    SelectDrop(q, 2, keep);
    SelectTake(q, 1, keep);
    SelectDrop(q, 0, keep);
    assert q[0..] == q;
  }

  /** One step of the filter from position `i`: an element `keep` refuses is skipped. */
  lemma SelectDrop(qs: seq<PyqQuestion>, i: nat, keep: PyqQuestion -> bool)
    requires i < |qs| && !keep(qs[i])
    ensures Select(qs[i..], keep) == Select(qs[i + 1..], keep)
  {
    assert qs[i..][1..] == qs[i + 1..];
  }

  /** One step of the filter from position `i`: an element `keep` accepts is kept in front. */
  lemma SelectTake(qs: seq<PyqQuestion>, i: nat, keep: PyqQuestion -> bool)
    requires i < |qs| && keep(qs[i])
    ensures Select(qs[i..], keep) == [qs[i]] + Select(qs[i + 1..], keep)
  {
    assert qs[i..][1..] == qs[i + 1..];
  }

  // ---------------------------------------------------------------------
  // Papers and the detail screen
  // ---------------------------------------------------------------------

  /** `basePapers.map { paper.copy(onViewPaper = …) }`: every button exports its own paper's questions. */
  function WithViewActions(base: seq<PyqPaper>, qs: seq<PyqQuestion>): (r: seq<PyqPaper>)
    ensures |r| == |base|
    ensures forall i | 0 <= i < |r| :: r[i].(onViewPaper := base[i].onViewPaper) == base[i]
    ensures forall i | 0 <= i < |r| :: r[i].onViewPaper == OpenPdf(base[i], PdfQuestions(qs, base[i].title))
  {
    seq(|base|, i requires 0 <= i < |base| => base[i].(onViewPaper := OpenPdf(base[i], PdfQuestions(qs, base[i].title))))
  }

  /** The position `papers.find { it.id == id }` stops at. */
  function FindPaperIndex(papers: seq<PyqPaper>, id: string): (r: Option<nat>)
    ensures r.None? <==> forall i | 0 <= i < |papers| :: papers[i].id != id
    ensures r.Some? ==> r.value < |papers| && papers[r.value].id == id
    ensures r.Some? ==> forall j | 0 <= j < r.value :: papers[j].id != id
  {
    if papers == [] then None
    else if papers[0].id == id then Some(0)
    else match FindPaperIndex(papers[1..], id)
      case None => None
      case Some(k) => Some(k + 1)
  }

  /** `papers.find { it.id == id }`. */
  function FindPaper(papers: seq<PyqPaper>, id: string): (r: Option<PyqPaper>)
    ensures r.None? <==> forall i | 0 <= i < |papers| :: papers[i].id != id
    ensures r.Some? ==> r.value in papers && r.value.id == id
    ensures r.Some? ==> exists i | 0 <= i < |papers| :: r.value == papers[i] && forall j | 0 <= j < i :: papers[j].id != id
  {
    match FindPaperIndex(papers, id)
    case None => None
    case Some(k) => Some(papers[k])
  }

  const PAPER_NOT_FOUND: string := "Paper not found."

  datatype DetailView = NotFound(message: string) | PaperDetail(paper: PyqPaper, questions: seq<PyqQuestion>)

  /** `PyqPaperDetailScreen`: the paper with the id and its case-insensitive matches, or the not-found message. */
  function DetailScreen(papers: seq<PyqPaper>, qs: seq<PyqQuestion>, paperId: string): (r: DetailView)
    ensures r.NotFound? <==> forall i | 0 <= i < |papers| :: papers[i].id != paperId
    ensures r.NotFound? ==> r.message == PAPER_NOT_FOUND
    ensures r.PaperDetail? ==> r.paper in papers && r.paper.id == paperId
    ensures r.PaperDetail? ==> exists i | 0 <= i < |papers| ::
              r.paper == papers[i] && forall j | 0 <= j < i :: papers[j].id != paperId
    ensures r.PaperDetail? ==> r.questions == DetailQuestions(qs, Some(r.paper))
  {
    match FindPaper(papers, paperId)
    case None => NotFound(PAPER_NOT_FOUND)
    case Some(p) => PaperDetail(p, DetailQuestions(qs, Some(p)))
  }

  /** The four paper ids differ, and each one is found at its own position. */
  lemma EveryBundledPaperFound(i: nat)
    requires i < |PAPERS|
    ensures FindPaperIndex(PAPERS, PAPERS[i].id) == Some(i)
  {
    var p := PAPERS;
    assert p[0].id[0] == 'g' && p[1].id[0] == 'g' && p[2].id[0] == 'g' && p[3].id[0] == 'c';
    assert p[0].id[9] == '1' && p[1].id[9] == '2' && p[2].id[9] == '3';
  }

  /** Each bundled paper's detail screen shows that paper. */
  lemma EveryBundledPaperOpens(i: nat)
    requires i < |PAPERS|
    ensures DetailScreen(PAPERS, QUESTIONS, PAPERS[i].id) == PaperDetail(PAPERS[i], DetailQuestions(QUESTIONS, Some(PAPERS[i])))
  {
    EveryBundledPaperFound(i);
  }

  /** On the bundled data the two filters agree: each paper's detail list is exactly what its PDF gets. */
  lemma BundledViewsAgree(i: nat)
    requires i < |PAPERS|
    ensures DetailQuestions(QUESTIONS, Some(PAPERS[i])) == PdfQuestions(QUESTIONS, PAPERS[i].title)
  {
    var title := PAPERS[i].title;
    assert title == SUBJECTS[i];
    forall k | 0 <= k < |QUESTIONS| ensures EqualsIgnoreCase(QUESTIONS[k].paper, title) <==> QUESTIONS[k].paper == title {
      assert QUESTIONS[k].paper in SUBJECTS by {
        assert QUESTIONS[k].paper == SUBJECTS[[0, 0, 1, 2, 3][k]];
      }
      PaperNamesMatchExactly(QUESTIONS[k].paper, title);
    }
    SelectSameOnAll(QUESTIONS, (q: PyqQuestion) => EqualsIgnoreCase(q.paper, title), (q: PyqQuestion) => q.paper == title);
  }

  /** Among the four paper names, equality ignoring case is plain equality. */
  lemma PaperNamesMatchExactly(a: string, b: string)
    requires a in SUBJECTS && b in SUBJECTS
    ensures EqualsIgnoreCase(a, b) <==> a == b
  {
    var lows := ["gs paper 1", "gs paper 2", "gs paper 3", "csat"];
    LowerSubjects();
    var i :| 0 <= i < |SUBJECTS| && SUBJECTS[i] == a;
    var j :| 0 <= j < |SUBJECTS| && SUBJECTS[j] == b;
    assert LowerStr(a) == lows[i] && LowerStr(b) == lows[j];
    assert lows[0][9] == '1' && lows[1][9] == '2' && lows[2][9] == '3' && |lows[3]| == 4;
    assert SUBJECTS[0][9] == '1' && SUBJECTS[1][9] == '2' && SUBJECTS[2][9] == '3' && |SUBJECTS[3]| == 4;
  }

  lemma LowerSubjects()
    ensures LowerStr(SUBJECTS[0]) == "gs paper 1" && LowerStr(SUBJECTS[1]) == "gs paper 2"
    ensures LowerStr(SUBJECTS[2]) == "gs paper 3" && LowerStr(SUBJECTS[3]) == "csat"
  {
  }

  /** Two predicates that agree on the list select the same questions. */
  lemma {:induction false} SelectSameOnAll(qs: seq<PyqQuestion>, p: PyqQuestion -> bool, p2: PyqQuestion -> bool)
    requires forall k | 0 <= k < |qs| :: p(qs[k]) == p2(qs[k])
    ensures Select(qs, p) == Select(qs, p2)
  {
    if qs != [] {
      assert forall k | 0 <= k < |qs[1..]| :: p(qs[1..][k]) == p2(qs[1..][k]) by {
        forall k | 0 <= k < |qs[1..]| ensures p(qs[1..][k]) == p2(qs[1..][k]) {
          assert qs[1..][k] == qs[k + 1];
        }
      }
      SelectSameOnAll(qs[1..], p, p2);
      assert p(qs[0]) == p2(qs[0]);
    }
  }

  // ---------------------------------------------------------------------
  // PDF export
  // ---------------------------------------------------------------------

  const PAGE_WIDTH: int := 595
  const PAGE_HEIGHT: int := 842
  /** The baseline of a page's first line, and the left margin. */
  const TOP: int := 40
  const LINE_HEIGHT: int := 18
  /** The lowest baseline a line may start at: a line below it goes to a new page. */
  const LAST_Y: int := PAGE_HEIGHT - 40
  /** Baselines 40, 58, …, 796 fit; the next, 814, is past 802. */
  const LINES_PER_PAGE: nat := 43

  /** The four lines written for question number `index + 1`. */
  function QuestionBlock(index: nat, q: PyqQuestion): seq<string> {
    ["Q" + NatToString(index + 1) + ": " + q.question, "Answer: " + q.answer, "Explanation: " + q.explanation, ""]
  }

  /** The lines of `questions.forEachIndexed`, block `k` for question `k`. */
  function QuestionLines(qs: seq<PyqQuestion>): (r: seq<string>)
    ensures |r| == 4 * |qs|
    ensures forall k | 0 <= k < |qs| :: r[4 * k .. 4 * k + 4] == QuestionBlock(k, qs[k])
  {
    if qs == [] then []
    else
      var front := QuestionLines(qs[..|qs| - 1]);
      var r := front + QuestionBlock(|qs| - 1, qs[|qs| - 1]);
      assert forall k | 0 <= k < |qs| - 1 :: r[4 * k .. 4 * k + 4] == front[4 * k .. 4 * k + 4];
      r
  }

  /** Everything `openPaperPdf` writes: title, question count, a blank line, then four lines per question. */
  function PdfLines(paper: PyqPaper, qs: seq<PyqQuestion>): (r: seq<string>)
    ensures |r| == 3 + 4 * |qs|
    ensures r[..3] == [paper.title, paper.questions, ""]
    ensures forall k | 0 <= k < |qs| :: r[3 + 4 * k .. 7 + 4 * k] == QuestionBlock(k, qs[k])
  {
    var r := [paper.title, paper.questions, ""] + QuestionLines(qs);
    assert forall k | 0 <= k < |qs| :: r[3 + 4 * k .. 7 + 4 * k] == QuestionLines(qs)[4 * k .. 4 * k + 4];
    r
  }

  /** The exported file's name. */
  function PdfFileName(paper: PyqPaper): string {
    "pyq_" + paper.id + ".pdf"
  }

  const NO_PDF_VIEWER: string := "No PDF viewer found."

  datatype DrawnLine = DrawnLine(text: string, y: int)

  /** A page's lines sit at consecutive baselines from the top, and no more than fit. */
  ghost predicate PageLaidOut(p: seq<DrawnLine>) {
    |p| <= LINES_PER_PAGE && forall k | 0 <= k < |p| :: p[k].y == TOP + LINE_HEIGHT * k
  }

  /** On a laid-out page every baseline is between the top margin and the last allowed one. */
  lemma LaidOutLinesInMargins(p: seq<DrawnLine>)
    requires PageLaidOut(p)
    ensures forall k | 0 <= k < |p| :: TOP <= p[k].y <= LAST_Y
  {
  }

  function Texts(p: seq<DrawnLine>): (r: seq<string>)
    ensures |r| == |p| && forall k | 0 <= k < |p| :: r[k] == p[k].text
  {
    seq(|p|, k requires 0 <= k < |p| => p[k].text)
  }

  lemma TextsAppend(p: seq<DrawnLine>, line: DrawnLine)
    ensures Texts(p + [line]) == Texts(p) + [line.text]
  {
  }

  /** The texts of all pages, page after page. */
  function Flatten(pages: seq<seq<DrawnLine>>): seq<string> {
    if pages == [] then [] else Flatten(pages[..|pages| - 1]) + Texts(pages[|pages| - 1])
  }

  lemma FlattenAppend(pages: seq<seq<DrawnLine>>, p: seq<DrawnLine>)
    ensures Flatten(pages + [p]) == Flatten(pages) + Texts(p)
  {
    assert (pages + [p])[..|pages|] == pages;
  }

  /** Full pages hold 43 lines each. */
  lemma {:induction false} FlattenFullPages(pages: seq<seq<DrawnLine>>)
    requires forall i | 0 <= i < |pages| :: |pages[i]| == LINES_PER_PAGE
    ensures |Flatten(pages)| == LINES_PER_PAGE * |pages|
  {
    if pages != [] {
      FlattenFullPages(pages[..|pages| - 1]);
    }
  }

  /** The number of pages `n` lines take: one page even for none, else the fewest 43-line pages that hold them. */
  function PageCount(n: nat): (r: nat)
    ensures r >= 1
    ensures n > 0 ==> LINES_PER_PAGE * (r - 1) < n <= LINES_PER_PAGE * r
  {
    if n == 0 then 1 else (n - 1) / LINES_PER_PAGE + 1
  }

  /** Full pages followed by a non-empty last page are exactly `PageCount` pages. */
  lemma PagesOfLayout(full: nat, last: nat)
    requires 1 <= last <= LINES_PER_PAGE
    ensures PageCount(LINES_PER_PAGE * full + last) == full + 1
  {
  }

  /** `newPage` / `writeLine` over a `PdfDocument`: the finished pages, the open page and its `y`. */
  class PdfWriter {
    var finished: seq<seq<DrawnLine>>
    var page: seq<DrawnLine>
    var y: int

    ghost predicate Valid()
      reads this
    {
      && y == TOP + LINE_HEIGHT * |page|
      && PageLaidOut(page)
      && forall i | 0 <= i < |finished| :: |finished[i]| == LINES_PER_PAGE && PageLaidOut(finished[i])
    }

    /** The lines written so far, in order. */
    ghost function Written(): seq<string>
      reads this
    {
      Flatten(finished) + Texts(page)
    }

    /** A fresh document with its first page started. */
    constructor ()
      ensures Valid() && finished == [] && page == [] && y == TOP
    {
      finished := [];
      page := [];
      y := TOP;
    }

    /** Start a new page below `y > 802`, then draw at `y` and move down one line. */
    method WriteLine(text: string)
      requires Valid()
      modifies this
      ensures Valid()
      ensures Written() == old(Written()) + [text]
      ensures old(|page|) < LINES_PER_PAGE ==> finished == old(finished) && page == old(page) + [DrawnLine(text, old(y))]
      ensures old(|page|) == LINES_PER_PAGE ==> finished == old(finished) + [old(page)] && page == [DrawnLine(text, TOP)]
    {
      if y > LAST_Y {
        FlattenAppend(finished, page);
        finished := finished + [page];
        page := [];
        y := TOP;
      }
      TextsAppend(page, DrawnLine(text, y));
      page := page + [DrawnLine(text, y)];
      y := y + LINE_HEIGHT;
    }

    /** The last `finishPage`: every page of the document. */
    function Pages(): seq<seq<DrawnLine>>
      reads this
    {
      finished + [page]
    }
  }

  /** The loop's step: the lines for one more question are its block after the earlier ones. */
  lemma QuestionLinesStep(qs: seq<PyqQuestion>, i: nat)
    requires i < |qs|
    ensures QuestionLines(qs[..i + 1]) == QuestionLines(qs[..i]) + QuestionBlock(i, qs[i])
  {
    assert qs[..i + 1][..i] == qs[..i];
  }

  /** Full pages then a non-empty last page: `PageCount` of their lines, every baseline inside the margins. */
  lemma FinishedLayout(pages: seq<seq<DrawnLine>>)
    requires pages != [] && pages[|pages| - 1] != []
    requires forall i | 0 <= i < |pages| - 1 :: |pages[i]| == LINES_PER_PAGE
    requires forall i | 0 <= i < |pages| :: PageLaidOut(pages[i])
    ensures |pages| == PageCount(|Flatten(pages)|)
    ensures forall i, k | 0 <= i < |pages| && 0 <= k < |pages[i]| :: TOP <= pages[i][k].y <= LAST_Y
  {
    var full := pages[..|pages| - 1];
    var last := pages[|pages| - 1];
    assert full + [last] == pages;
    FlattenAppend(full, last);
    FlattenFullPages(full);
    PagesOfLayout(|full|, |last|);
    forall j | 0 <= j < |pages| ensures forall k | 0 <= k < |pages[j]| :: TOP <= pages[j][k].y <= LAST_Y {
      LaidOutLinesInMargins(pages[j]);
    }
  }

  /** Writes the four lines of question `i`'s block. */
  method WriteQuestion(w: PdfWriter, i: nat, q: PyqQuestion)
    requires w.Valid()
    modifies w
    ensures w.Valid() && w.page != []
    ensures w.Written() == old(w.Written()) + QuestionBlock(i, q)
  {
    w.WriteLine("Q" + NatToString(i + 1) + ": " + q.question);
    w.WriteLine("Answer: " + q.answer);
    w.WriteLine("Explanation: " + q.explanation);
    w.WriteLine("");
  }

  /** The `questions.forEachIndexed` loop: block `k` for question `k`, in order. */
  method WriteQuestions(w: PdfWriter, qs: seq<PyqQuestion>)
    requires w.Valid() && w.page != []
    modifies w
    ensures w.Valid() && w.page != []
    ensures w.Written() == old(w.Written()) + QuestionLines(qs)
  {
    var i := 0;
    while i < |qs|
      invariant 0 <= i <= |qs|
      invariant w.Valid() && w.page != []
      invariant w.Written() == old(w.Written()) + QuestionLines(qs[..i])
    {
      QuestionLinesStep(qs, i);
      WriteQuestion(w, i, qs[i]);
      i := i + 1;
    }
    assert qs[..i] == qs;
  }

  /**
   * `openPaperPdf` up to handing the file to a viewer: the pages drawn, the
   * file name, and the toast shown when no viewer opens it (`viewerOpened`
   * stands for the platform's answer).
   */
  method OpenPaperPdf(paper: PyqPaper, qs: seq<PyqQuestion>, viewerOpened: bool)
    returns (pages: seq<seq<DrawnLine>>, fileName: string, toast: Option<string>)
    ensures Flatten(pages) == PdfLines(paper, qs)
    ensures |pages| == PageCount(|PdfLines(paper, qs)|)
    ensures forall i | 0 <= i < |pages| :: pages[i] != [] && PageLaidOut(pages[i])
    ensures forall i | 0 <= i < |pages| - 1 :: |pages[i]| == LINES_PER_PAGE
    ensures forall i, k | 0 <= i < |pages| && 0 <= k < |pages[i]| :: TOP <= pages[i][k].y <= LAST_Y
    ensures fileName == PdfFileName(paper)
    ensures toast == (if viewerOpened then None else Some(NO_PDF_VIEWER))
  {
    fileName := PdfFileName(paper);
    var w := new PdfWriter();
    w.WriteLine(paper.title);
    w.WriteLine(paper.questions);
    w.WriteLine("");
    assert w.Written() == [paper.title, paper.questions, ""];
    WriteQuestions(w, qs);
    assert w.Written() == PdfLines(paper, qs);
    pages := w.Pages();
    FlattenAppend(w.finished, w.page);
    FinishedLayout(pages);
    toast := if viewerOpened then None else Some(NO_PDF_VIEWER);
  }

  // ---------------------------------------------------------------------
  // Screen state
  // ---------------------------------------------------------------------

  /** The three `remember`ed selections of `PyqScreen`. */
  class PyqScreenState {
    var selectedTab: string
    var selectedYear: string
    var selectedSubject: string

    constructor ()
      ensures selectedTab == YEAR_WISE && selectedYear == "2023" && selectedSubject == SUBJECTS[0]
    {
      selectedTab := YEAR_WISE;
      selectedYear := "2023";
      selectedSubject := SUBJECTS[0];
    }

    method SelectTab(tab: string)
      modifies this`selectedTab
      ensures selectedTab == tab
    {
      selectedTab := tab;
    }

    method SelectYear(year: string)
      modifies this`selectedYear
      ensures selectedYear == year
    {
      selectedYear := year;
    }

    method SelectSubject(subject: string)
      modifies this`selectedSubject
      ensures selectedSubject == subject
    {
      selectedSubject := subject;
    }

    /** The heading over the paper cards. */
    function Heading(): (r: string)
      reads this
      ensures selectedTab == YEAR_WISE ==> r == selectedYear + " Papers"
      ensures selectedTab != YEAR_WISE ==> r == selectedSubject + " Papers"
    {
      (if selectedTab == YEAR_WISE then selectedYear else selectedSubject) + " Papers"
    }

    /** The question cards under the papers, keyed by distinct ids. */
    function Visible(): (r: seq<PyqQuestion>)
      reads this
      ensures r == TabQuestions(QUESTIONS, selectedTab, selectedYear, selectedSubject)
      ensures IdsDistinct(r)
    {
      BankIdsDistinct();
      TabQuestionsKeepIdsDistinct(QUESTIONS, selectedTab, selectedYear, selectedSubject);
      TabQuestions(QUESTIONS, selectedTab, selectedYear, selectedSubject)
    }
  }
}
