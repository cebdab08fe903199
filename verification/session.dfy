/** Coaching sessions of `services/session.py`: the session record with its
    question cursor and its exchange log, its text rendering, and the manager
    that keeps the sessions by id. */
module Sessions {
  import opened Common

  datatype SessionMode = QuestionByQuestion | FullInterview {
    /** The enum's `.value`. */
    function Value(): string {
      match this
      case QuestionByQuestion => "question_by_question"
      case FullInterview => "full_interview"
    }
  }

  /** `QuestionResponse`; `timestamp` is the creation time as its ISO text. */
  datatype QuestionResponse = QuestionResponse(
    question: string, response: string, feedback: Option<string>,
    timestamp: string, score: Option<int>, issues: seq<string>)

  /** The dict `add_exchange` appends to `transcript`. */
  datatype ExchangeRecord = ExchangeRecord(timestamp: string, question: string, response: string, feedback: Option<string>)

  /** The exchange and the transcript record stand for the same question and answer. */
  predicate Matches(ex: QuestionResponse, rec: ExchangeRecord)
  {
    rec == ExchangeRecord(ex.timestamp, ex.question, ex.response, ex.feedback)
  }

  // ---------------------------------------------------------------- the question cursor

  /** One call of `get_next_question` on a cursor at `index`: the question and the new index. */
  function NextQuestion(questions: seq<string>, index: nat): (r: (Option<string>, nat))
  {
    if index < |questions| then (Some(questions[index]), index + 1) else (None, index)
  }

  /** The answers of `n` successive calls from `index`. */
  function Successive(questions: seq<string>, index: nat, n: nat): seq<Option<string>>
    decreases n
  {
    if n == 0 then [] else [NextQuestion(questions, index).0] + Successive(questions, NextQuestion(questions, index).1, n - 1)
  }

  /** The cursor after `n` successive calls from `index`. */
  function IndexAfter(questions: seq<string>, index: nat, n: nat): nat
    decreases n
  {
    if n == 0 then index else IndexAfter(questions, NextQuestion(questions, index).1, n - 1)
  }

  /** Successive calls yield the rest of the list in order and then `None`;
      the cursor never passes the end of the list. */
  lemma {:induction false} SuccessiveInOrder(questions: seq<string>, index: nat, n: nat)
    requires index <= |questions|
    ensures |Successive(questions, index, n)| == n
    ensures forall k | 0 <= k < n :: Successive(questions, index, n)[k] == if index + k < |questions| then Some(questions[index + k]) else None
    ensures IndexAfter(questions, index, n) == if index + n <= |questions| then index + n else |questions|
    decreases n
  {
    if n > 0 {
      var next := NextQuestion(questions, index).1;
      SuccessiveInOrder(questions, next, n - 1);
      var s := Successive(questions, index, n);
      forall k | 0 <= k < n
        ensures s[k] == if index + k < |questions| then Some(questions[index + k]) else None
      {
        if k > 0 {
          assert s[k] == Successive(questions, next, n - 1)[k - 1];
        }
      }
    }
  }

  // ---------------------------------------------------------------- the text transcript

  function QuestionHeader(n: nat): string
  {
    "--- Question " + NatToString(n) + " ---"
  }

  /** The lines of the `n`-th exchange. */
  function Block(n: nat, ex: QuestionResponse): (r: seq<string>)
  {
    [QuestionHeader(n), "Q: " + ex.question, "R: " + ex.response]
    + (if Truthy(ex.feedback) then ["Feedback: " + ex.feedback.value] else [])
    + [""]
  }

  /** A block is four lines, or five when the feedback is not empty; its
      feedback line, if any, is the fourth. */
  function BlockSize(ex: QuestionResponse): nat
  {
    if Truthy(ex.feedback) then 5 else 4
  }

  /** The blocks of `exs`, numbered from `n`. */
  function ExchangeLines(exs: seq<QuestionResponse>, n: nat): seq<string>
  {
    if exs == [] then [] else Block(n, exs[0]) + ExchangeLines(exs[1..], n + 1)
  }

  /** Rendering from exchange `i` on is its block followed by the rest. */
  lemma ExchangeLinesStep(exs: seq<QuestionResponse>, i: nat)
    requires i < |exs|
    ensures ExchangeLines(exs[i..], i + 1) == Block(i + 1, exs[i]) + ExchangeLines(exs[i + 1..], i + 2)
  {
    assert exs[i..][1..] == exs[i + 1..];
  }

  /** Where the block of exchange `k` starts. */
  function Offset(exs: seq<QuestionResponse>, k: nat): nat
    requires k <= |exs|
  {
    if k == 0 then 0 else BlockSize(exs[0]) + Offset(exs[1..], k - 1)
  }

  /** The `k`-th exchange (from 0) is rendered, at its place, as the block
      numbered `n + k`: its header, its question, its answer, a `Feedback:`
      line exactly when the feedback is not empty, and an empty line. */
  lemma {:induction false} ExchangeLinesAt(exs: seq<QuestionResponse>, n: nat, k: nat)
    requires k < |exs|
    ensures Offset(exs, k) + BlockSize(exs[k]) <= |ExchangeLines(exs, n)|
    ensures ExchangeLines(exs, n)[Offset(exs, k)] == QuestionHeader(n + k)
    ensures ExchangeLines(exs, n)[Offset(exs, k) + 1] == "Q: " + exs[k].question
    ensures ExchangeLines(exs, n)[Offset(exs, k) + 2] == "R: " + exs[k].response
    ensures Truthy(exs[k].feedback) <==> ExchangeLines(exs, n)[Offset(exs, k) + 3] != ""
    ensures Truthy(exs[k].feedback) ==> ExchangeLines(exs, n)[Offset(exs, k) + 3] == "Feedback: " + exs[k].feedback.value
    ensures ExchangeLines(exs, n)[Offset(exs, k) + BlockSize(exs[k]) - 1] == ""
  {
    var b := Block(n, exs[0]);
    assert |b| == BlockSize(exs[0]);
    if k > 0 {
      ExchangeLinesAt(exs[1..], n + 1, k - 1);
      assert exs[1..][k - 1] == exs[k];
    }
  }

  /** The lines the loop of `get_transcript_text` appends for the `n`-th exchange,
      one `append` at a time as the source does; `Block` is the same lines as a
      value, for the lemmas about where each exchange lands. */
  method AppendBlock(lines: seq<string>, n: nat, ex: QuestionResponse) returns (r: seq<string>)
    ensures r == lines + Block(n, ex)
  {
    r := lines + [QuestionHeader(n)];
    r := r + ["Q: " + ex.question];
    r := r + ["R: " + ex.response];
    if Truthy(ex.feedback) {
      r := r + ["Feedback: " + ex.feedback.value];
    }
    r := r + [""];
  }

  const TITLE := "=== Session d'entraînement X-HEC ==="
  const PRESENTATION_HEADING := "--- Présentation ---"
  const SUMMARY_HEADING := "--- Résumé Final ---"

  /** The lines `get_transcript_text` writes before the exchanges, one
      `append` at a time as the source does; `HeadLines` is the same lines as a
      value, for `TranscriptLines`. */
  method HeadOf(createdAt: string, mode: SessionMode, presentation: Option<string>) returns (lines: seq<string>)
    ensures lines == HeadLines(createdAt, mode, presentation)
  {
    lines := [TITLE];
    lines := lines + ["Date: " + createdAt];
    lines := lines + ["Mode: " + mode.Value()];
    lines := lines + [""];
    if Truthy(presentation) {
      lines := lines + [PRESENTATION_HEADING];
      lines := lines + [presentation.value];
      lines := lines + [""];
    }
  }

  /** The `for` loop of `get_transcript_text`: one block per exchange, numbered from 1. */
  method AppendExchanges(head: seq<string>, exchanges: seq<QuestionResponse>) returns (lines: seq<string>)
    ensures lines == head + ExchangeLines(exchanges, 1)
  {
    lines := head;
    var i := 0;
    while i < |exchanges|
      invariant 0 <= i <= |exchanges|
      invariant lines + ExchangeLines(exchanges[i..], i + 1) == head + ExchangeLines(exchanges, 1)
    {
      var exchange := exchanges[i];
      ExchangeLinesStep(exchanges, i);
      ghost var block, rest := Block(i + 1, exchange), ExchangeLines(exchanges[i + 1..], i + 2);
      assert (lines + block) + rest == lines + (block + rest);
      lines := AppendBlock(lines, i + 1, exchange);
      i := i + 1;
    }
    assert exchanges[i..] == [];
  }

  /** The whole rendering of `get_transcript_text`, line by line. */
  function TranscriptLines(createdAt: string, mode: SessionMode, presentation: Option<string>,
                           exchanges: seq<QuestionResponse>, summary: Option<string>): seq<string>
  {
    HeadLines(createdAt, mode, presentation)
    + ExchangeLines(exchanges, 1)
    + (if Truthy(summary) then [SUMMARY_HEADING, summary.value] else [])
  }

  /** The header: title, date, mode and a blank line, then the presentation
      block when there is one. */
  function HeadLines(createdAt: string, mode: SessionMode, presentation: Option<string>): seq<string>
  {
    [TITLE, "Date: " + createdAt, "Mode: " + mode.Value(), ""]
    + (if Truthy(presentation) then [PRESENTATION_HEADING, presentation.value, ""] else [])
  }

  // ---------------------------------------------------------------- the session

  class Session {
    const id: string
    const mode: SessionMode
    const cvContent: string
    const questionsList: seq<string>
    const userAnswers: map<string, string>
    /** `created_at`, as `strftime('%Y-%m-%d %H:%M')` renders it. */
    const createdAt: string

    var currentQuestionIndex: nat
    var exchanges: seq<QuestionResponse>
    var presentationDone: bool
    var presentationContent: Option<string>
    var isActive: bool
    var finalSummary: Option<string>
    var transcript: seq<ExchangeRecord>

    constructor (id: string, mode: SessionMode, cvContent: string, questionsList: seq<string>,
                 userAnswers: map<string, string>, createdAt: string)
      ensures this.id == id && this.mode == mode && this.cvContent == cvContent
      ensures this.questionsList == questionsList && this.userAnswers == userAnswers && this.createdAt == createdAt
      ensures currentQuestionIndex == 0 && exchanges == [] && transcript == []
      ensures !presentationDone && presentationContent.None? && isActive && finalSummary.None?
      ensures InStep()
    {
      this.id, this.mode, this.cvContent := id, mode, cvContent;
      this.questionsList, this.userAnswers, this.createdAt := questionsList, userAnswers, createdAt;
      currentQuestionIndex := 0;
      exchanges, transcript := [], [];
      presentationDone, presentationContent := false, None;
      isActive, finalSummary := true, None;
    }

    /** `exchanges` and `transcript` run in step: one record per exchange, for the same exchange. */
    ghost predicate InStep()
      reads this
    {
      |exchanges| == |transcript| && forall k | 0 <= k < |exchanges| :: Matches(exchanges[k], transcript[k])
    }

    /** `add_exchange`: one exchange and its record at the end of each list;
        earlier items are unchanged. */
    method AddExchange(question: string, response: string, feedback: Option<string>, now: string)
      modifies this`exchanges, this`transcript
      ensures exchanges == old(exchanges) + [QuestionResponse(question, response, feedback, now, None, [])]
      ensures transcript == old(transcript) + [ExchangeRecord(now, question, response, feedback)]
      ensures old(InStep()) ==> InStep()
    {
      var exchange := QuestionResponse(question, response, feedback, now, None, []);
      exchanges := exchanges + [exchange];
      transcript := transcript + [ExchangeRecord(exchange.timestamp, question, response, feedback)];
    }

    /** `get_next_question`: the question under the cursor, which moves one
        step; `None` at or past the end, where the cursor stays. */
    method GetNextQuestion() returns (q: Option<string>)
      modifies this`currentQuestionIndex
      ensures (q, currentQuestionIndex) == NextQuestion(questionsList, old(currentQuestionIndex))
      ensures old(currentQuestionIndex) < |questionsList| ==> q == Some(questionsList[old(currentQuestionIndex)])
    {
      if currentQuestionIndex < |questionsList| {
        q := Some(questionsList[currentQuestionIndex]);
        currentQuestionIndex := currentQuestionIndex + 1;
        return;
      }
      q := None;
    }

    /** `get_random_question`: `None` exactly when the list is empty, otherwise one of its questions. */
    method GetRandomQuestion() returns (q: Option<string>)
      ensures q.None? <==> questionsList == []
      ensures q.Some? ==> q.value in questionsList
    {
      if questionsList != [] {
        assert questionsList[0] in questionsList;
        var choice :| choice in questionsList;
        return Some(choice);
      }
      return None;
    }

    /** `get_transcript_text`: the lines of the rendering joined by newlines. */
    method GetTranscriptText() returns (text: string)
      ensures text == Join(TranscriptLines(createdAt, mode, presentationContent, exchanges, finalSummary), "\n")
    {
      var lines := HeadOf(createdAt, mode, presentationContent);
      lines := AppendExchanges(lines, exchanges);
      ghost var body := lines;
      if Truthy(finalSummary) {
        lines := lines + [SUMMARY_HEADING];
        lines := lines + [finalSummary.value];
        assert lines == body + [SUMMARY_HEADING, finalSummary.value];
      }
      assert lines == TranscriptLines(createdAt, mode, presentationContent, exchanges, finalSummary);
      text := Join(lines, "\n");
    }
  }

  // ---------------------------------------------------------------- the manager

  /** `SessionManager`: the sessions by id. */
  class SessionManager {
    var sessions: map<string, Session>

    /** Every session is filed under its own id, so no two ids share a session. */
    ghost predicate Valid()
      reads this
    {
      forall k | k in sessions :: sessions[k].id == k
    }

    constructor ()
      ensures sessions == map[] && Valid()
    {
      sessions := map[];
    }

    /** `create_session`: a new session under the fresh id `freshId` (the
        `uuid4` the source draws), with the cursor at 0, no exchanges, active. */
    method CreateSession(mode: SessionMode, cvContent: string, questionsList: seq<string>,
                         userAnswers: map<string, string>, freshId: string, now: string) returns (s: Session)
      requires Valid()
      modifies this
      ensures Valid() && fresh(s)
      ensures sessions == old(sessions)[freshId := s]
      ensures GetSession(freshId) == Some(s)
      ensures s.id == freshId && s.mode == mode && s.cvContent == cvContent
      ensures s.questionsList == questionsList && s.userAnswers == userAnswers && s.createdAt == now
      ensures s.currentQuestionIndex == 0 && s.exchanges == [] && s.transcript == [] && s.isActive
    {
      s := new Session(freshId, mode, cvContent, questionsList, userAnswers, now);
      sessions := sessions[freshId := s];
    }

    /** `get_session`: the session filed under `id`, whose own id is `id`. */
    function GetSession(id: string): (r: Option<Session>)
      reads this
      ensures r.Some? <==> id in sessions
      ensures Valid() && r.Some? ==> r.value.id == id
    {
      if id in sessions then Some(sessions[id]) else None
    }

    /** `end_session`: marks the session under `id` inactive and keeps it;
        no other field of it and no other session changes, and an unknown id
        changes nothing. */
    method EndSession(id: string)
      requires Valid()
      modifies (if id in sessions then {sessions[id]} else {})`isActive
      ensures sessions == old(sessions) && Valid()
      ensures id in sessions ==> !sessions[id].isActive && GetSession(id) == Some(sessions[id])
      ensures forall k | k in sessions && k != id :: unchanged(sessions[k])
    {
      if id in sessions {
        sessions[id].isActive := false;
      }
    }

    /** `delete_session`: removes `id` only; an unknown id changes nothing. */
    method DeleteSession(id: string)
      requires Valid()
      modifies this
      ensures sessions == old(sessions) - {id} && Valid()
      ensures GetSession(id) == None
      ensures forall k | k != id :: GetSession(k) == old(GetSession(k))
    {
      if id in sessions {
        sessions := map k | k in sessions && k != id :: sessions[k];
      }
    }
  }
}
