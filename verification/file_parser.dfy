/** `services/file_parser.py`: what is done with a CV's pages once the PDF
    reader has extracted them, with a questions spreadsheet once pandas has
    read it, and the two plausibility checks on the results. */
module FileParser {
  import opened Common
  import opened Sheets

  // ---------------------------------------------------------------- parse_pdf

  /** What `page.extract_text()` gives for one page: a text, possibly empty or
      `None`, or the exception it raised. */
  datatype PageText = Extracted(text: Option<string>) | ExtractionFailed(reason: string)

  /** The document as the PDF reader sees it: unreadable, or its pages in order. */
  datatype Pdf = Unparsable(reason: string) | Pages(pages: seq<PageText>)

  const PDF_ERROR: string := "Erreur lors de la lecture du PDF: "

  /** The first extraction failure among the pages, if any. */
  function FirstFailure(pages: seq<PageText>): Option<string>
  {
    if pages == [] then None
    else if pages[0].ExtractionFailed? then Some(pages[0].reason)
    else FirstFailure(pages[1..])
  }

  /** There is a failure exactly when some page fails, and it is the failure of
      such a page, with every page before it extracted. */
  lemma {:induction false} FirstFailureSpec(pages: seq<PageText>)
    ensures FirstFailure(pages).None? <==> forall k | 0 <= k < |pages| :: pages[k].Extracted?
    ensures FirstFailure(pages).Some? ==> exists k | 0 <= k < |pages| ::
      pages[k] == ExtractionFailed(FirstFailure(pages).value) && forall j | 0 <= j < k :: pages[j].Extracted?
  {
    if pages != [] && pages[0].Extracted? {
      FirstFailureSpec(pages[1..]);
      assert forall k | 1 <= k < |pages| :: pages[k] == pages[1..][k - 1];
      if FirstFailure(pages).Some? {
        var k :| 0 <= k < |pages[1..]| && pages[1..][k] == ExtractionFailed(FirstFailure(pages).value) && forall j | 0 <= j < k :: pages[1..][j].Extracted?;
        assert pages[k + 1] == ExtractionFailed(FirstFailure(pages).value) && forall j | 0 <= j < k + 1 :: pages[j].Extracted?;
      }
    } else if pages != [] {
      assert pages[0] == ExtractionFailed(FirstFailure(pages).value);
    }
  }

  /** The text of a page, with `None` read as the empty text; a page that
      fails has none. */
  function TextOf(page: PageText): string
  {
    if page.Extracted? then page.text.GetOr("") else ""
  }

  /** The text of each page. */
  function PageTexts(pages: seq<PageText>): (r: seq<string>)
    ensures |r| == |pages| && forall k | 0 <= k < |pages| :: r[k] == TextOf(pages[k])
  {
    seq(|pages|, k requires 0 <= k < |pages| => TextOf(pages[k]))
  }

  /** What `parse_pdf` returns: the non-empty page texts, in page order, joined
      by a blank line; any failure becomes a `ValueError` with the message
      prefixed. */
  function PdfText(doc: Pdf): (r: Result<string, string>)
  {
    match doc
    case Unparsable(reason) => Failure(PDF_ERROR + reason)
    case Pages(pages) =>
      match FirstFailure(pages)
      case Some(reason) => Failure(PDF_ERROR + reason)
      case None => Success(Join(NonBlank(PageTexts(pages)), "\n\n"))
  }

  /** `parse_pdf` fails exactly when the document or one of its pages cannot be
      read, with the message of the reader's exception behind the prefix. */
  lemma PdfFailures(doc: Pdf)
    ensures PdfText(doc).Failure? <==> doc.Unparsable? || exists k | 0 <= k < |doc.pages| :: doc.pages[k].ExtractionFailed?
    ensures doc.Unparsable? ==> PdfText(doc) == Failure(PDF_ERROR + doc.reason)
    ensures PdfText(doc).Failure? ==> exists reason :: PdfText(doc).error == PDF_ERROR + reason
  {
    if doc.Pages? {
      FirstFailureSpec(doc.pages);
    }
  }

  /** The parts `parse_pdf` joins are exactly the non-empty texts of the
      pages, in page order, each as many times as pages carry it; an empty
      page or one without text adds nothing. */
  lemma PdfParts(pages: seq<PageText>)
    ensures forall t :: t in NonBlank(PageTexts(pages)) <==> t != "" && exists k | 0 <= k < |pages| :: pages[k] == Extracted(Some(t))
    ensures forall t :: multiset(NonBlank(PageTexts(pages)))[t] == if t == "" then 0 else multiset(PageTexts(pages))[t]
    ensures IsSubsequence(NonBlank(PageTexts(pages)), PageTexts(pages))
  {
    var texts := PageTexts(pages);
    NonBlankSpec(texts);
    forall t
      ensures t in NonBlank(texts) <==> t != "" && exists k | 0 <= k < |pages| :: pages[k] == Extracted(Some(t))
    {
      if t != "" {
        PageWithText(pages, t);
      }
    }
  }

  /** A non-empty text is among the page texts exactly when some page was extracted with it. */
  lemma PageWithText(pages: seq<PageText>, t: string)
    requires t != ""
    ensures t in PageTexts(pages) <==> exists k | 0 <= k < |pages| :: pages[k] == Extracted(Some(t))
  {
    var texts := PageTexts(pages);
    if t in texts {
      var k :| 0 <= k < |texts| && texts[k] == t;
      assert pages[k] == Extracted(Some(t));
    }
    if exists k | 0 <= k < |pages| :: pages[k] == Extracted(Some(t)) {
      var k :| 0 <= k < |pages| && pages[k] == Extracted(Some(t));
      assert texts[k] == t;
    }
  }

  /** Reading from page `i` on is reading page `i` and then the rest. */
  lemma PagesStep(pages: seq<PageText>, i: nat)
    requires i < |pages|
    ensures pages[i].ExtractionFailed? ==> FirstFailure(pages[i..]) == Some(pages[i].reason)
    ensures pages[i].Extracted? ==> FirstFailure(pages[i..]) == FirstFailure(pages[i + 1..])
    ensures NonBlank(PageTexts(pages[i..])) ==
      (if TextOf(pages[i]) != "" then [TextOf(pages[i])] else []) + NonBlank(PageTexts(pages[i + 1..]))
  {
    assert pages[i..][1..] == pages[i + 1..];
    assert PageTexts(pages[i..]) == [TextOf(pages[i])] + PageTexts(pages[i + 1..]);
  }

  /** The page loop of `parse_pdf`: reads the pages in order, keeping each
      non-empty text; the first page that cannot be read ends the loop with
      its error. */
  method CollectPages(pages: seq<PageText>) returns (r: Result<seq<string>, string>)
    ensures FirstFailure(pages).Some? ==> r == Failure(FirstFailure(pages).value)
    ensures FirstFailure(pages).None? ==> r == Success(NonBlank(PageTexts(pages)))
  {
    var textParts: seq<string> := [];
    var i := 0;
    while i < |pages|
      invariant 0 <= i <= |pages|
      invariant FirstFailure(pages) == FirstFailure(pages[i..])
      invariant textParts + NonBlank(PageTexts(pages[i..])) == NonBlank(PageTexts(pages))
    {
      PagesStep(pages, i);
      match pages[i]
      case ExtractionFailed(reason) =>
        return Failure(reason);
      case Extracted(pageText) =>
        ghost var rest := NonBlank(PageTexts(pages[i + 1..]));
        if Truthy(pageText) {
          assert (textParts + [pageText.value]) + rest == textParts + ([pageText.value] + rest);
          textParts := textParts + [pageText.value];
        }
      i := i + 1;
    }
    assert PageTexts(pages[i..]) == [];
    assert textParts + [] == textParts;
    return Success(textParts);
  }

  /** `parse_pdf`. */
  method ParsePdf(doc: Pdf) returns (r: Result<string, string>)
    ensures r == PdfText(doc)
  {
    if doc.Unparsable? {
      return Failure(PDF_ERROR + doc.reason);
    }
    var parts := CollectPages(doc.pages);
    match parts
    case Failure(reason) =>
      return Failure(PDF_ERROR + reason);
    case Success(textParts) =>
      return Success(Join(textParts, "\n\n"));
  }

  // ---------------------------------------------------------------- parse_excel_questions

  /** The names tried, in this order, for the answer column. */
  const ANSWER_COLUMNS: seq<string> := ["reponse", "réponse", "reponses", "réponses", "answer", "answers", "r"]

  const EXCEL_ERROR: string := "Erreur lors de la lecture du fichier Excel: "

  /** The message of the `IndexError` that `df.columns[0]` raises on a sheet without columns. */
  const NO_COLUMN: string := "index 0 is out of bounds for axis 0 with size 0"

  /** The questions, and the prepared answer of each question that has one. */
  datatype Parsed = Parsed(questions: seq<string>, answers: map<string, string>)

  /** The stripped text of each row's cell in column `col`, empty where missing. */
  function CellTexts(rows: seq<seq<Cell>>, col: nat): (r: seq<string>)
    ensures |r| == |rows|
    ensures forall k | 0 <= k < |rows| :: r[k] == CellText(CellAt(rows[k], col))
  {
    if rows == [] then [] else [CellText(CellAt(rows[0], col))] + CellTexts(rows[1..], col)
  }

  /** The stripped question and answer text of each row, empty where missing. */
  function AnswerPairs(rows: seq<seq<Cell>>, questionCol: nat, answerCol: nat): (r: seq<(string, string)>)
    ensures |r| == |rows|
    ensures forall k | 0 <= k < |rows| :: r[k] == (CellText(CellAt(rows[k], questionCol)), CellText(CellAt(rows[k], answerCol)))
  {
    seq(|rows|, k requires 0 <= k < |rows| => (CellText(CellAt(rows[k], questionCol)), CellText(CellAt(rows[k], answerCol))))
  }

  /** Whether a row's pair is recorded: `if q and a`. */
  predicate Answered(pair: (string, string))
  {
    pair.0 != "" && pair.1 != ""
  }

  /** The answers map after the pairs, filled in order, a later pair
      overwriting an earlier one with the same question. */
  function AnswerMap(pairs: seq<(string, string)>): map<string, string>
  {
    if pairs == [] then map[]
    else
      var earlier := AnswerMap(pairs[..|pairs| - 1]);
      var last := pairs[|pairs| - 1];
      if Answered(last) then earlier[last.0 := last.1] else earlier
  }

  /** The map holds the questions of the answered pairs and no other, each
      with a non-empty answer. */
  lemma {:induction false} AnswerMapDomain(pairs: seq<(string, string)>)
    ensures forall q :: q in AnswerMap(pairs) <==> exists i | 0 <= i < |pairs| :: Answered(pairs[i]) && pairs[i].0 == q
    ensures forall q | q in AnswerMap(pairs) :: q != "" && AnswerMap(pairs)[q] != ""
  {
    if pairs != [] {
      var n := |pairs| - 1;
      var front := pairs[..n];
      AnswerMapDomain(front);
      var m := AnswerMap(pairs);
      forall q
        ensures q in m <==> exists i | 0 <= i < |pairs| :: Answered(pairs[i]) && pairs[i].0 == q
      {
        if q in AnswerMap(front) {
          var i :| 0 <= i < |front| && Answered(front[i]) && front[i].0 == q;
          assert pairs[i] == front[i];
        }
        if exists i | 0 <= i < |pairs| :: Answered(pairs[i]) && pairs[i].0 == q {
          var i :| 0 <= i < |pairs| && Answered(pairs[i]) && pairs[i].0 == q;
          if i < n {
            assert front[i] == pairs[i];
          }
        }
      }
    }
  }

  /** No pair after `i` answers the same question. */
  ghost predicate LastFor(pairs: seq<(string, string)>, i: int)
    requires 0 <= i < |pairs|
  {
    forall j | i < j < |pairs| :: !(Answered(pairs[j]) && pairs[j].0 == pairs[i].0)
  }

  /** A question answered by several rows keeps the answer of the last of them. */
  lemma {:induction false} AnswerMapLastWins(pairs: seq<(string, string)>, i: nat)
    requires i < |pairs| && Answered(pairs[i]) && LastFor(pairs, i)
    ensures pairs[i].0 in AnswerMap(pairs) && AnswerMap(pairs)[pairs[i].0] == pairs[i].1
  {
    var n := |pairs| - 1;
    if i < n {
      var front := pairs[..n];
      assert front[i] == pairs[i];
      assert LastFor(front, i) by {
        forall j | i < j < |front|
          ensures !(Answered(front[j]) && front[j].0 == front[i].0)
        {
          assert front[j] == pairs[j];
        }
      }
      AnswerMapLastWins(front, i);
    }
  }

  /** What `parse_excel_questions` returns for the spreadsheet. */
  function ExcelQuestions(book: Workbook): (r: Result<Parsed, string>)
  {
    match book
    case Unreadable(reason) => Failure(EXCEL_ERROR + reason)
    case Readable(sheet) =>
      var headers := NormaliseHeaders(sheet.headers);
      match QuestionColumn(headers)
      case None => Failure(EXCEL_ERROR + NO_COLUMN)
      case Some(questionName) =>
        var questionCol := ColumnIndex(headers, questionName);
        var questions := NonBlank(CellTexts(sheet.rows, questionCol));
        match FirstPresent(ANSWER_COLUMNS, headers)
        case None => Success(Parsed(questions, map[]))
        case Some(answerName) => Success(Parsed(questions, AnswerMap(AnswerPairs(sheet.rows, questionCol, ColumnIndex(headers, answerName)))))
  }

  /** `parse_excel_questions` fails only when the spreadsheet cannot be read
      or has no column at all, with the message behind the prefix. */
  lemma ExcelFailures(book: Workbook)
    ensures ExcelQuestions(book).Failure? <==> book.Unreadable? || book.sheet.headers == []
    ensures book.Unreadable? ==> ExcelQuestions(book) == Failure(EXCEL_ERROR + book.reason)
    ensures ExcelQuestions(book).Failure? ==> exists reason :: ExcelQuestions(book).error == EXCEL_ERROR + reason
  {
  }

  /** The questions of a column are its stripped non-blank cells: each one is
      non-empty with no white space at either end, they keep the row order,
      every row whose cell is not blank contributes its text, and a text that
      several rows carry is kept as many times. */
  lemma ColumnQuestions(rows: seq<seq<Cell>>, col: nat)
    ensures forall t | t in NonBlank(CellTexts(rows, col)) :: t != "" && !IsSpace(t[0]) && !IsSpace(t[|t| - 1])
    ensures IsSubsequence(NonBlank(CellTexts(rows, col)), CellTexts(rows, col))
    ensures forall t :: multiset(NonBlank(CellTexts(rows, col)))[t] == if t == "" then 0 else multiset(CellTexts(rows, col))[t]
    ensures forall k | 0 <= k < |rows| && CellText(CellAt(rows[k], col)) != "" :: CellText(CellAt(rows[k], col)) in NonBlank(CellTexts(rows, col))
  {
    var texts := CellTexts(rows, col);
    NonBlankSpec(texts);
    forall t | t in NonBlank(texts)
      ensures t != "" && !IsSpace(t[0]) && !IsSpace(t[|t| - 1])
    {
      var k :| 0 <= k < |texts| && texts[k] == t;
      var cell := CellAt(rows[k], col);
      assert t == Strip(cell.value);
    }
    forall k | 0 <= k < |rows| && CellText(CellAt(rows[k], col)) != ""
      ensures CellText(CellAt(rows[k], col)) in NonBlank(texts)
    {
      assert texts[k] in texts;
    }
  }

  /** Without an answer column the answers map is empty; with one, it maps
      only non-empty questions to non-empty answers. */
  lemma ExcelAnswers(book: Workbook)
    requires ExcelQuestions(book).Success?
    ensures FirstPresent(ANSWER_COLUMNS, NormaliseHeaders(book.sheet.headers)).None? ==> ExcelQuestions(book).value.answers == map[]
    ensures forall q | q in ExcelQuestions(book).value.answers :: q != "" && ExcelQuestions(book).value.answers[q] != ""
  {
    var headers := NormaliseHeaders(book.sheet.headers);
    var answerName := FirstPresent(ANSWER_COLUMNS, headers);
    if answerName.Some? {
      var questionCol := ColumnIndex(headers, QuestionColumn(headers).value);
      AnswerMapDomain(AnswerPairs(book.sheet.rows, questionCol, ColumnIndex(headers, answerName.value)));
    }
  }

  /** The answer-filling loop of `parse_excel_questions`. */
  method FillAnswers(rows: seq<seq<Cell>>, questionCol: nat, answerCol: nat) returns (answers: map<string, string>)
    ensures answers == AnswerMap(AnswerPairs(rows, questionCol, answerCol))
  {
    ghost var pairs := AnswerPairs(rows, questionCol, answerCol);
    answers := map[];
    var i := 0;
    while i < |rows|
      invariant 0 <= i <= |rows|
      invariant answers == AnswerMap(pairs[..i])
    {
      assert pairs[..i + 1][..i] == pairs[..i];
      var q := CellText(CellAt(rows[i], questionCol));
      var a := CellText(CellAt(rows[i], answerCol));
      if q != "" && a != "" {
        answers := answers[q := a];
      }
      i := i + 1;
    }
    assert pairs[..i] == pairs;
  }

  /** `parse_excel_questions`. */
  method ParseExcelQuestions(book: Workbook) returns (r: Result<Parsed, string>)
    ensures r == ExcelQuestions(book)
  {
    if book.Unreadable? {
      return Failure(EXCEL_ERROR + book.reason);
    }
    var headers := NormaliseHeaders(book.sheet.headers);
    var questionName := FindColumn(headers, QUESTION_COLUMNS);
    if questionName.None? {
      if headers == [] {
        return Failure(EXCEL_ERROR + NO_COLUMN);
      }
      questionName := Some(headers[0]);
    }
    var answerName := FindColumn(headers, ANSWER_COLUMNS);
    var questionCol := ColumnIndex(headers, questionName.value);
    var questions := NonBlank(CellTexts(book.sheet.rows, questionCol));
    var answers: map<string, string> := map[];
    if answerName.Some? {
      answers := FillAnswers(book.sheet.rows, questionCol, ColumnIndex(headers, answerName.value));
    }
    return Success(Parsed(questions, answers));
  }

  // ---------------------------------------------------------------- validators

  const CV_KEYWORDS: seq<string> := ["expérience", "experience", "formation", "education", "compétence", "skill", "projet", "project"]

  /** Whether one of `keywords` occurs in `text`. */
  function AnyKeyword(keywords: seq<string>, text: string): (r: bool)
    ensures r <==> exists k | 0 <= k < |keywords| :: IsSubstring(keywords[k], text)
  {
    if keywords == [] then false
    else
      assert forall k | 1 <= k < |keywords| :: keywords[k] == keywords[1..][k - 1];
      Contains(text, keywords[0]) || AnyKeyword(keywords[1..], text)
  }

  /** `validate_cv`: false for a text whose stripped length is under 100
      (the empty text included); otherwise true exactly when the lower-cased
      text contains one of the eight keywords. */
  function ValidateCv(cvText: string): (r: bool)
    ensures |Strip(cvText)| < 100 ==> !r
    ensures |Strip(cvText)| >= 100 ==> (r <==> exists k | 0 <= k < |CV_KEYWORDS| :: IsSubstring(CV_KEYWORDS[k], Lower(cvText)))
  {
    if cvText == [] || |Strip(cvText)| < 100 then false
    else AnyKeyword(CV_KEYWORDS, Lower(cvText))
  }

  /** `sum(1 for q in questions if '?' in q)`. */
  function MarkedCount(questions: seq<string>): nat
  {
    if questions == [] then 0
    else MarkedCount(questions[..|questions| - 1]) + (if '?' in questions[|questions| - 1] then 1 else 0)
  }

  /** The positions of the questions that contain a question mark. */
  function MarkedPositions(questions: seq<string>): set<nat>
  {
    set k: nat | k < |questions| && '?' in questions[k]
  }

  /** The count is the number of positions holding a question with a question mark. */
  lemma {:induction false} MarkedCountIsPositions(questions: seq<string>)
    ensures MarkedCount(questions) == |MarkedPositions(questions)| <= |questions|
  {
    if questions != [] {
      var n := |questions| - 1;
      var front := questions[..n];
      MarkedCountIsPositions(front);
      var before := MarkedPositions(front);
      assert before == set k: nat | k < n && '?' in questions[k] by {
        forall k: nat | k < n
          ensures questions[k] == front[k]
        {
        }
      }
      if '?' in questions[n] {
        assert MarkedPositions(questions) == before + {n};
      } else {
        assert MarkedPositions(questions) == before;
      }
    }
  }

  /** `validate_questions`: false for fewer than three questions; otherwise
      true exactly when at least half of the positions hold a question mark. */
  function ValidateQuestions(questions: seq<string>): (r: bool)
    ensures r <==> |questions| >= 3 && 2 * |MarkedPositions(questions)| >= |questions|
  {
    MarkedCountIsPositions(questions);
    if questions == [] || |questions| < 3 then false
    else 2 * MarkedCount(questions) >= |questions|
  }
}
