/** The question bank of `services/questions_db.py`: the questions read from
    `data/questions.xlsx` (or the twelve built-in ones when that fails), the
    queries over them, and the lazily created process-wide instance. */
module QuestionsDb {
  import opened Common
  import opened Sheets

  datatype Question = Question(question: string, theme: string, difficulty: string)

  const THEME_COLUMNS: seq<string> := ["theme", "thème", "category", "categorie"]
  const DIFFICULTY_COLUMNS: seq<string> := ["difficulte", "difficulté", "difficulty", "niveau"]
  const DEFAULT_THEME: string := "Général"
  const DEFAULT_DIFFICULTY: string := "Moyen"

  /** The questions used when the spreadsheet is missing or cannot be loaded. */
  function DefaultQuestions(): (r: seq<Question>)
    ensures |r| == 12
  {
    [ Question("Pourquoi souhaitez-vous rejoindre le programme X-HEC Entrepreneurs ?", "Motivation", "Facile"),
      Question("Parlez-moi de votre projet entrepreneurial.", "Projet", "Moyen"),
      Question("Quelle est votre plus grande réussite professionnelle ou personnelle ?", "Parcours", "Moyen"),
      Question("Comment gérez-vous l'échec ? Donnez un exemple concret.", "Soft Skills", "Difficile"),
      Question("Où vous voyez-vous dans 5 ans ?", "Vision", "Moyen"),
      Question("Quelles compétences pensez-vous développer grâce à ce programme ?", "Motivation", "Facile"),
      Question("Comment votre parcours vous a-t-il préparé à l'entrepreneuriat ?", "Parcours", "Moyen"),
      Question("Quel est le plus grand défi que vous avez surmonté ?", "Soft Skills", "Difficile"),
      Question("Comment comptez-vous contribuer à la communauté X-HEC ?", "Motivation", "Moyen"),
      Question("Qu'est-ce qui vous différencie des autres candidats ?", "Personnel", "Difficile"),
      Question("Parlez-moi d'une situation où vous avez dû convaincre quelqu'un.", "Soft Skills", "Moyen"),
      Question("Comment définissez-vous le succès ?", "Vision", "Moyen") ]
  }

  // ---------------------------------------------------------------- columns and rows

  /** The positions of the question column and of the optional theme and
      difficulty columns. */
  datatype Columns = Columns(question: nat, theme: Option<nat>, difficulty: Option<nat>)

  function PositionOf(headers: seq<string>, name: Option<string>): (r: Option<nat>)
    requires name.Some? ==> name.value in headers
  {
    if name.None? then None else Some(ColumnIndex(headers, name.value))
  }

  /** The column-selection rule of `load_questions`, over normalised headers;
      `None` when there is no column, where the lookup of the first column raises. */
  function SelectColumns(headers: seq<string>): (r: Option<Columns>)
    ensures r.None? <==> headers == []
    ensures r.Some? ==> r.value.question < |headers|
    ensures r.Some? && r.value.theme.Some? ==> r.value.theme.value < |headers| && headers[r.value.theme.value] in THEME_COLUMNS
    ensures r.Some? ==> (r.value.theme.None? <==> forall c | c in THEME_COLUMNS :: c !in headers)
    ensures r.Some? && r.value.difficulty.Some? ==> r.value.difficulty.value < |headers| && headers[r.value.difficulty.value] in DIFFICULTY_COLUMNS
    ensures r.Some? ==> (r.value.difficulty.None? <==> forall c | c in DIFFICULTY_COLUMNS :: c !in headers)
  {
    match QuestionColumn(headers)
    case None => None
    case Some(q) =>
      Some(Columns(ColumnIndex(headers, q),
                   PositionOf(headers, FirstPresent(THEME_COLUMNS, headers)),
                   PositionOf(headers, FirstPresent(DIFFICULTY_COLUMNS, headers))))
  }

  /** The text of an optional column in a row, or `default` when the sheet has
      no such column or the cell is missing. A present cell that strips to
      nothing gives the empty text, not the default. */
  function OptionalText(row: seq<Cell>, col: Option<nat>, default: string): string
  {
    if col.Some? && CellAt(row, col.value).Some? then CellText(CellAt(row, col.value)) else default
  }

  /** The question a row gives, or `None` when its question text is missing or blank. */
  function RowQuestion(row: seq<Cell>, cols: Columns): (r: Option<Question>)
  {
    var q := RowText(row, cols);
    if q.question == "" then None else Some(q)
  }

  /** The questions of all kept rows, in file order. */
  function RowQuestions(rows: seq<seq<Cell>>, cols: Columns): seq<Question>
  {
    if rows == [] then []
    else match RowQuestion(rows[0], cols)
      case None => RowQuestions(rows[1..], cols)
      case Some(q) => [q] + RowQuestions(rows[1..], cols)
  }

  /** Row normalisation: every question kept has non-empty text, is the
      question of some row, keeps the order of the rows, and every row with a
      question text yields one; a question that several rows give is kept as
      many times. Missing themes read "Général", missing difficulties "Moyen". */
  lemma RowQuestionsSpec(rows: seq<seq<Cell>>, cols: Columns)
    ensures forall q | q in RowQuestions(rows, cols) :: q.question != "" && exists i | 0 <= i < |rows| :: RowQuestion(rows[i], cols) == Some(q)
    ensures forall i | 0 <= i < |rows| && RowQuestion(rows[i], cols).Some? :: RowQuestion(rows[i], cols).value in RowQuestions(rows, cols)
    ensures forall q :: multiset(RowQuestions(rows, cols))[q] == if q.question == "" then 0 else multiset(RowCandidates(rows, cols))[q]
    ensures IsSubsequence(RowQuestions(rows, cols), RowCandidates(rows, cols))
  {
    RowQuestionsMembers(rows, cols);
    RowQuestionsFilter(rows, cols);
    FilterSpec(HasText, RowCandidates(rows, cols));
  }

  /** A candidate with question text, the ones the row loop keeps. */
  predicate HasText(q: Question)
  {
    q.question != ""
  }

  /** The kept questions are the candidates with question text. */
  lemma {:induction false} RowQuestionsFilter(rows: seq<seq<Cell>>, cols: Columns)
    ensures RowQuestions(rows, cols) == Filter(HasText, RowCandidates(rows, cols))
  {
    if rows != [] {
      RowQuestionsFilter(rows[1..], cols);
      assert RowCandidates(rows, cols) == [RowText(rows[0], cols)] + RowCandidates(rows[1..], cols);
    }
  }

  /** Which questions the rows give, and from which rows. */
  lemma RowQuestionsMembers(rows: seq<seq<Cell>>, cols: Columns)
    ensures forall q | q in RowQuestions(rows, cols) :: q.question != "" && exists i | 0 <= i < |rows| :: RowQuestion(rows[i], cols) == Some(q)
    ensures forall i | 0 <= i < |rows| && RowQuestion(rows[i], cols).Some? :: RowQuestion(rows[i], cols).value in RowQuestions(rows, cols)
  {
    forall q | q in RowQuestions(rows, cols)
      ensures q.question != "" && exists i | 0 <= i < |rows| :: RowQuestion(rows[i], cols) == Some(q)
    {
      RowQuestionFrom(rows, cols, q);
    }
    forall i | 0 <= i < |rows| && RowQuestion(rows[i], cols).Some?
      ensures RowQuestion(rows[i], cols).value in RowQuestions(rows, cols)
    {
      RowQuestionKept(rows, cols, i);
    }
  }

  lemma RowQuestionFrom(rows: seq<seq<Cell>>, cols: Columns, q: Question)
    requires q in RowQuestions(rows, cols)
    ensures q.question != "" && exists i | 0 <= i < |rows| :: RowQuestion(rows[i], cols) == Some(q)
  {
    var cands := RowCandidates(rows, cols);
    RowQuestionsFilter(rows, cols);
    FilterSpec(HasText, cands);
    RowCandidatesAt(rows, cols);
    assert multiset(RowQuestions(rows, cols))[q] > 0;
    assert q in cands;
    var i :| 0 <= i < |cands| && cands[i] == q;
    assert RowQuestion(rows[i], cols) == Some(q);
  }

  lemma RowQuestionKept(rows: seq<seq<Cell>>, cols: Columns, i: nat)
    requires i < |rows| && RowQuestion(rows[i], cols).Some?
    ensures RowQuestion(rows[i], cols).value in RowQuestions(rows, cols)
  {
    var cands := RowCandidates(rows, cols);
    RowQuestionsFilter(rows, cols);
    FilterSpec(HasText, cands);
    RowCandidatesAt(rows, cols);
    var q := cands[i];
    assert q in cands;
    assert multiset(RowQuestions(rows, cols))[q] > 0;
  }

  /** One candidate per row, in row order. */
  lemma {:induction false} RowCandidatesAt(rows: seq<seq<Cell>>, cols: Columns)
    ensures |RowCandidates(rows, cols)| == |rows|
    ensures forall i | 0 <= i < |rows| :: RowCandidates(rows, cols)[i] == RowText(rows[i], cols)
  {
    if rows != [] {
      RowCandidatesAt(rows[1..], cols);
      forall i | 0 < i < |rows|
        ensures RowCandidates(rows, cols)[i] == RowText(rows[i], cols)
      {
        assert rows[1..][i - 1] == rows[i];
      }
    }
  }

  /** The question each row would give if it were kept. */
  function RowText(row: seq<Cell>, cols: Columns): Question
  {
    Question(CellText(CellAt(row, cols.question)), OptionalText(row, cols.theme, DEFAULT_THEME), OptionalText(row, cols.difficulty, DEFAULT_DIFFICULTY))
  }

  function RowCandidates(rows: seq<seq<Cell>>, cols: Columns): seq<Question>
  {
    if rows == [] then [] else [RowText(rows[0], cols)] + RowCandidates(rows[1..], cols)
  }

  /** What `load_questions` leaves in `self.questions`, given the spreadsheet
      (`None` when the file does not exist). */
  function Loaded(file: Option<Workbook>): seq<Question>
  {
    match file
    case None => DefaultQuestions()
    case Some(Unreadable(_)) => DefaultQuestions()
    case Some(Readable(sheet)) =>
      match SelectColumns(NormaliseHeaders(sheet.headers))
      case None => DefaultQuestions()
      case Some(cols) => RowQuestions(sheet.rows, cols)
  }

  // ---------------------------------------------------------------- queries

  /** `[q["question"] for q in questions]`. */
  function Texts(qs: seq<Question>): (r: seq<string>)
    ensures |r| == |qs| && forall k | 0 <= k < |qs| :: r[k] == qs[k].question
  {
    if qs == [] then [] else [qs[0].question] + Texts(qs[1..])
  }

  /** `[q["question"] for q in questions if q["theme"].lower() == theme.lower()]`. */
  function OfTheme(qs: seq<Question>, theme: string): seq<string>
  {
    if qs == [] then []
    else if Lower(qs[0].theme) == Lower(theme) then [qs[0].question] + OfTheme(qs[1..], theme)
    else OfTheme(qs[1..], theme)
  }

  /** The question records whose theme equals `theme` up to case. */
  function ThemeRecords(qs: seq<Question>, theme: string): seq<Question>
  {
    Filter((q: Question) => Lower(q.theme) == Lower(theme), qs)
  }

  /** The theme filter keeps exactly the questions whose theme equals the
      argument up to case, in stored order: the texts of the matching
      records, each record as many times as it is stored. */
  lemma OfThemeSpec(qs: seq<Question>, theme: string)
    ensures forall t :: t in OfTheme(qs, theme) <==> exists k | 0 <= k < |qs| :: qs[k].question == t && Lower(qs[k].theme) == Lower(theme)
    ensures IsSubsequence(OfTheme(qs, theme), Texts(qs))
    ensures OfTheme(qs, theme) == Texts(ThemeRecords(qs, theme))
    ensures forall q :: multiset(ThemeRecords(qs, theme))[q] == if Lower(q.theme) == Lower(theme) then multiset(qs)[q] else 0
    ensures IsSubsequence(ThemeRecords(qs, theme), qs)
  {
    OfThemeMembers(qs, theme);
    OfThemeTexts(qs, theme);
    FilterSpec((q: Question) => Lower(q.theme) == Lower(theme), qs);
  }

  /** The texts the theme filter lists are those of the matching records. */
  lemma {:induction false} OfThemeTexts(qs: seq<Question>, theme: string)
    ensures OfTheme(qs, theme) == Texts(ThemeRecords(qs, theme))
  {
    if qs != [] {
      OfThemeTexts(qs[1..], theme);
      var rest := ThemeRecords(qs[1..], theme);
      if Lower(qs[0].theme) == Lower(theme) {
        assert ThemeRecords(qs, theme) == [qs[0]] + rest;
        assert Texts([qs[0]] + rest) == [qs[0].question] + Texts(rest);
      } else {
        assert ThemeRecords(qs, theme) == rest;
      }
    }
  }

  /** Which texts the theme filter lists, and in which order. */
  lemma {:induction false} OfThemeMembers(qs: seq<Question>, theme: string)
    ensures forall t :: t in OfTheme(qs, theme) <==> exists k | 0 <= k < |qs| :: qs[k].question == t && Lower(qs[k].theme) == Lower(theme)
    ensures IsSubsequence(OfTheme(qs, theme), Texts(qs))
  {
    if qs != [] {
      OfThemeMembers(qs[1..], theme);
      var r := OfTheme(qs, theme);
      var rest := OfTheme(qs[1..], theme);
      assert Texts(qs) == [qs[0].question] + Texts(qs[1..]);
      forall t
        ensures t in r <==> exists k | 0 <= k < |qs| :: qs[k].question == t && Lower(qs[k].theme) == Lower(theme)
      {
        if exists k | 0 <= k < |qs| :: qs[k].question == t && Lower(qs[k].theme) == Lower(theme) {
          var k :| 0 <= k < |qs| && qs[k].question == t && Lower(qs[k].theme) == Lower(theme);
          if k > 0 {
            assert qs[1..][k - 1] == qs[k];
          }
        }
        if t in rest {
          var k :| 0 <= k < |qs[1..]| && qs[1..][k].question == t && Lower(qs[1..][k].theme) == Lower(theme);
          assert qs[k + 1] == qs[1..][k];
        }
      }
      if Lower(qs[0].theme) != Lower(theme) {
        SubsequenceDrop(r, qs[0].question, Texts(qs[1..]));
      }
    }
  }

  /** The column searches of `load_questions`: the question column (or the
      first column), then the theme and difficulty columns. */
  method FindColumns(headers: seq<string>) returns (cols: Option<Columns>)
    ensures cols == SelectColumns(headers)
  {
    var questionCol := FindColumn(headers, QUESTION_COLUMNS);
    if questionCol.None? {
      if |headers| == 0 {
        return None;
      }
      questionCol := Some(headers[0]);
    }
    var themeCol := FindColumn(headers, THEME_COLUMNS);
    var difficultyCol := FindColumn(headers, DIFFICULTY_COLUMNS);
    cols := Some(Columns(ColumnIndex(headers, questionCol.value), PositionOf(headers, themeCol), PositionOf(headers, difficultyCol)));
  }

  /** The row loop of `load_questions`: appends the question of each row whose
      question text is not blank. */
  method CollectRows(rows: seq<seq<Cell>>, cols: Columns) returns (qs: seq<Question>)
    ensures qs == RowQuestions(rows, cols)
  {
    qs := [];
    var i := 0;
    while i < |rows|
      invariant 0 <= i <= |rows|
      invariant qs + RowQuestions(rows[i..], cols) == RowQuestions(rows, cols)
    {
      assert rows[i..][1..] == rows[i + 1..];
      var q := RowText(rows[i], cols);
      if q.question != "" {
        qs := qs + [q];
      }
      i := i + 1;
    }
  }

  /** `QuestionsDatabase`: the loaded question records. */
  class QuestionsDatabase {
    var questions: seq<Question>

    /** `__init__`: loads the questions at once. */
    constructor (file: Option<Workbook>)
      ensures questions == Loaded(file)
    {
      questions := [];
      new;
      LoadQuestions(file);
    }

    /** `load_questions`: rebuilds `questions` from the spreadsheet, row by
        row, or falls back to the defaults. */
    method LoadQuestions(file: Option<Workbook>)
      modifies this
      ensures questions == Loaded(file)
      ensures file.None? || file.value.Unreadable? ==> questions == DefaultQuestions() && |questions| == 12
    {
      if file.None? {
        questions := DefaultQuestions();
        return;
      }
      if file.value.Unreadable? {
        questions := DefaultQuestions();
        return;
      }
      var sheet := file.value.sheet;
      var cols := FindColumns(NormaliseHeaders(sheet.headers));
      if cols.None? {
        // `df.columns[0]` raises IndexError, caught by the fallback.
        questions := DefaultQuestions();
        return;
      }
      questions := CollectRows(sheet.rows, cols.value);
    }

    /** `get_all_questions`: the question texts in stored order, as many as `get_questions_count`. */
    function AllQuestions(): (r: seq<string>)
      reads this
      ensures |r| == |questions|
      ensures forall k | 0 <= k < |r| :: r[k] == questions[k].question
    {
      Texts(questions)
    }

    /** `get_questions_by_theme`. */
    function QuestionsByTheme(theme: string): (r: seq<string>)
      reads this
      ensures forall t :: t in r <==> exists k | 0 <= k < |questions| :: questions[k].question == t && Lower(questions[k].theme) == Lower(theme)
      ensures IsSubsequence(r, AllQuestions())
      ensures r == Texts(ThemeRecords(questions, theme))
      ensures forall q :: multiset(ThemeRecords(questions, theme))[q] == if Lower(q.theme) == Lower(theme) then multiset(questions)[q] else 0
    {
      OfThemeSpec(questions, theme);
      OfTheme(questions, theme)
    }

    /** `get_questions_count`: as many as `get_all_questions` lists. */
    function QuestionsCount(): (r: nat)
      reads this
      ensures r == |AllQuestions()|
      ensures r == 0 <==> AllQuestions() == []
    {
      |questions|
    }

    /** `get_random_questions`: all questions when there are no more than
        `count`; otherwise `count` of them drawn from distinct positions. */
    method RandomQuestions(count: nat) returns (r: seq<string>)
      ensures QuestionsCount() <= count ==> r == AllQuestions()
      ensures QuestionsCount() > count ==> |r| == count && exists idx :: DrawnFrom(r, AllQuestions(), idx)
    {
      var all := AllQuestions();
      if |all| <= count {
        return all;
      }
      var positions := seq(count, k requires 0 <= k < count => k);
      assert DistinctPositions(positions, |all|);
      var idx: seq<nat> :| |idx| == count && DistinctPositions(idx, |all|);
      assert DistinctPositions(idx, |all|);
      assert forall k | 0 <= k < count :: idx[k] < |all|;
      r := seq(count, k requires 0 <= k < count => all[idx[k]]);
      assert DrawnFrom(r, all, idx);
    }
  }

  /** `idx` lists distinct positions below `n`. */
  predicate DistinctPositions(idx: seq<nat>, n: nat)
  {
    && (forall k | 0 <= k < |idx| :: idx[k] < n)
    && (forall j, k | 0 <= j < k < |idx| :: idx[j] != idx[k])
  }

  /** `r` is the sample of `all` at the distinct positions `idx`. */
  ghost predicate DrawnFrom(r: seq<string>, all: seq<string>, idx: seq<nat>)
  {
    && |idx| == |r|
    && DistinctPositions(idx, |all|)
    && forall k | 0 <= k < |r| :: r[k] == all[idx[k]]
  }

  /** The module-level `_questions_db`, created on first use. */
  class DatabaseSlot {
    var instance: QuestionsDatabase?

    constructor ()
      ensures instance == null
    {
      instance := null;
    }

    /** `get_questions_db`: the same instance on every call after the first. */
    method GetQuestionsDb(file: Option<Workbook>) returns (db: QuestionsDatabase)
      modifies this
      ensures old(instance) != null ==> db == old(instance) && instance == old(instance)
      ensures old(instance) == null ==> fresh(db) && instance == db && db.questions == Loaded(file)
    {
      if instance == null {
        db := new QuestionsDatabase(file);
        instance := db;
      } else {
        db := instance;
      }
    }

    /** `get_interview_questions`: a sample of `count` questions (10 by
        default in the source) from the shared database. */
    method InterviewQuestions(file: Option<Workbook>, count: nat) returns (r: seq<string>)
      modifies this
      ensures instance != null && (old(instance) != null ==> instance == old(instance))
      ensures instance.QuestionsCount() <= count ==> r == instance.AllQuestions()
      ensures instance.QuestionsCount() > count ==> |r| == count && exists idx :: DrawnFrom(r, instance.AllQuestions(), idx)
    {
      var db := GetQuestionsDb(file);
      r := db.RandomQuestions(count);
    }

    /** The module-level `get_all_questions`: every question of the shared database. */
    method AllQuestions(file: Option<Workbook>) returns (r: seq<string>)
      modifies this
      ensures instance != null && (old(instance) != null ==> instance == old(instance))
      ensures old(instance) == null ==> r == Texts(Loaded(file))
      ensures r == instance.AllQuestions()
    {
      var db := GetQuestionsDb(file);
      r := db.AllQuestions();
    }
  }
}
