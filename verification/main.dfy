/** The session logic of the HTTP back end (`main.py`): the in-memory
    sessions, and what each route handler checks, changes and answers. The
    routing, the uploads, the speech synthesis and the language-model calls
    are left out; the texts those calls produce arrive as parameters. */
module App {
  import opened Common
  import opened QuestionsDb

  /** A transcript entry, the dict `{"role": role, "content": content}`. */
  datatype Message = Message(role: string, content: string)

  /** An `HTTPException`: its status code and detail. */
  datatype HttpError = HttpError(status: nat, detail: string)

  const MODES: seq<string> := ["question_by_question", "full_interview"]
  const SESSION_NOT_FOUND: HttpError := HttpError(404, "Session non trouvée")
  const NO_THEME: HttpError := HttpError(400, "Sélectionne d'abord un thème")
  const QUESTION_UNAVAILABLE: HttpError := HttpError(400, "Question non disponible")
  const TOO_SHORT_FOR_DEBRIEF: HttpError := HttpError(400, "Pas assez d'échanges pour un débrief")
  const THEME_EXHAUSTED_MESSAGE: string := "Plus de questions disponibles dans ce thème"
  const THEME_EXHAUSTED_TEXT: string := "Tu as fait le tour de ce thème ! Tu veux passer à un autre thème ou faire le débrief ?"
  const ALL_ASKED_TEXT: string := "On a fait le tour ! Tu veux faire le débrief ?"

  /** No question occurs twice. */
  predicate NoDuplicates(qs: seq<string>)
  {
    forall i, j | 0 <= i < j < |qs| :: qs[i] != qs[j]
  }

  /** The in-memory `Session`. */
  class Session {
    const sessionId: string
    const mode: string
    const dossierText: string

    var transcript: seq<Message>
    var currentTheme: Option<string>
    var currentQuestion: Option<string>
    var askedQuestions: seq<string>
    var started: bool

    constructor (sessionId: string, mode: string, dossierText: string)
      ensures this.sessionId == sessionId && this.mode == mode && this.dossierText == dossierText
      ensures transcript == [] && currentTheme.None? && currentQuestion.None? && askedQuestions == [] && !started
      ensures Valid()
    {
      this.sessionId, this.mode, this.dossierText := sessionId, mode, dossierText;
      transcript, currentTheme, currentQuestion, askedQuestions, started := [], None, None, [], false;
    }

    /** No question is asked twice in a session, and the current question is
        one of the asked ones. */
    ghost predicate Valid()
      reads this
    {
      NoDuplicates(askedQuestions) && (currentQuestion.Some? ==> currentQuestion.value in askedQuestions)
    }

    /** Makes a question not asked before the current one, at the end of the asked list. */
    method Ask(q: string)
      requires Valid() && q !in askedQuestions
      modifies this`currentQuestion, this`askedQuestions
      ensures currentQuestion == Some(q) && askedQuestions == old(askedQuestions) + [q]
      ensures Valid()
    {
      currentQuestion := Some(q);
      askedQuestions := askedQuestions + [q];
    }

    /** The move to the next question of `respond_to_session`: the first
        question of `pool` not asked yet, if there is one, becomes the
        current one and the coach's words for it are stored. */
    method MoveOn(pool: seq<string>, nextText: string) returns (moved: bool)
      requires Valid()
      modifies this`currentQuestion, this`askedQuestions, this`transcript
      ensures Valid()
      ensures moved <==> Remaining(pool, old(askedQuestions)) != []
      ensures moved ==> var next := Remaining(pool, old(askedQuestions))[0];
        && next in pool && next !in old(askedQuestions)
        && currentQuestion == Some(next) && askedQuestions == old(askedQuestions) + [next]
        && transcript == old(transcript) + [Message("assistant", nextText)]
      ensures !moved ==> currentQuestion == old(currentQuestion) && askedQuestions == old(askedQuestions)
                         && transcript == old(transcript)
    {
      var available := Remaining(pool, askedQuestions);
      RemainingSpec(pool, askedQuestions);
      if available == [] {
        return false;
      }
      Ask(available[0]);
      Say("assistant", nextText);
      return true;
    }

    /** The change `select_theme` makes: the theme becomes current and the
        announcement of its questions not asked yet is stored. */
    method StartTheme(theme: string, questions: seq<string>) returns (available: seq<string>, text: string)
      modifies this`currentTheme, this`transcript
      ensures currentTheme == Some(theme)
      ensures available == Remaining(questions, askedQuestions)
      ensures forall q :: q in available <==> q in questions && q !in askedQuestions
      ensures forall q :: multiset(available)[q] == if q in askedQuestions then 0 else multiset(questions)[q]
      ensures IsSubsequence(available, questions)
      ensures text == ThemeAnnouncement(theme, |available|)
      ensures transcript == old(transcript) + [Message("assistant", text)]
    {
      available := Remaining(questions, askedQuestions);
      RemainingSpec(questions, askedQuestions);
      text := ThemeAnnouncement(theme, |available|);
      currentTheme := Some(theme);
      transcript := transcript + [Message("assistant", text)];
    }

    /** The choice `select_question` makes among the questions of `pool` not
        asked yet: the exhausted answer when none is left, the refusal of a
        named question that is not among them, and otherwise the named one
        (or the drawn one) is asked and the coach's words for it stored. */
    method ChooseQuestion(pool: seq<string>, question: Option<string>, random: bool, pick: nat, intro: string)
      returns (r: Result<Selection, HttpError>)
      requires Valid()
      modifies this`currentQuestion, this`askedQuestions, this`transcript
      ensures Valid()
      ensures var available := Remaining(pool, old(askedQuestions));
        && (available == [] ==> r == Success(Exhausted(THEME_EXHAUSTED_MESSAGE, THEME_EXHAUSTED_TEXT)))
        && (available != [] && !random && Truthy(question) && question.value !in available ==> r == Failure(QUESTION_UNAVAILABLE))
        && (available != [] && (random || !Truthy(question) || question.value in available) ==> r.Success? && r.value.Asked?)
        && (r.Success? && r.value.Asked? ==>
              && r.value.question in available && r.value.question in pool && r.value.question !in old(askedQuestions)
              && (!random && Truthy(question) ==> r.value.question == question.value)
              && r.value.text == intro
              && currentQuestion == Some(r.value.question)
              && askedQuestions == old(askedQuestions) + [r.value.question]
              && transcript == old(transcript) + [Message("assistant", intro)])
      ensures !(r.Success? && r.value.Asked?) ==>
        currentQuestion == old(currentQuestion) && askedQuestions == old(askedQuestions) && transcript == old(transcript)
    {
      var available := Remaining(pool, askedQuestions);
      RemainingSpec(pool, askedQuestions);
      if available == [] {
        return Success(Exhausted(THEME_EXHAUSTED_MESSAGE, THEME_EXHAUSTED_TEXT));
      }
      var chosen: string;
      if random || !Truthy(question) {
        chosen := available[pick % |available|];
      } else if question.value !in available {
        return Failure(QUESTION_UNAVAILABLE);
      } else {
        chosen := question.value;
      }
      Ask(chosen);
      Say("assistant", intro);
      return Success(Asked(chosen, intro));
    }

    /** `transcript.append(...)`. */
    method Say(role: string, content: string)
      modifies this`transcript
      ensures transcript == old(transcript) + [Message(role, content)]
    {
      transcript := transcript + [Message(role, content)];
    }
  }

  const ANNOUNCEMENT_OPENING: string := "Très bien, on va travailler sur le thème « "
  const COUNT_LEAD: string := " ». J'ai "
  const ANNOUNCEMENT_CLOSING: string :=
    " questions pour toi sur ce sujet. Tu veux que je choisisse une question au hasard, ou tu préfères choisir toi-même ?"

  /** The announcement `select_theme` makes for a theme with `count` questions
      left: the opening and the theme's name, then the decimal digits of
      `count`, then the closing question. */
  function ThemeAnnouncement(theme: string, count: nat): (r: string)
    ensures |ANNOUNCEMENT_OPENING| + |theme| <= |r| && r[..|ANNOUNCEMENT_OPENING| + |theme|] == ANNOUNCEMENT_OPENING + theme
    ensures var start := |ANNOUNCEMENT_OPENING| + |theme| + |COUNT_LEAD|;
      && start < |r| - |ANNOUNCEMENT_CLOSING| <= |r|
      && (forall k | start <= k < |r| - |ANNOUNCEMENT_CLOSING| :: '0' <= r[k] <= '9')
      && DigitsValue(r[start..|r| - |ANNOUNCEMENT_CLOSING|]) == count
    ensures r[|r| - |ANNOUNCEMENT_CLOSING|..] == ANNOUNCEMENT_CLOSING
  {
    var named := ANNOUNCEMENT_OPENING + theme;
    var digits := NatToString(count);
    var r := named + COUNT_LEAD + digits + ANNOUNCEMENT_CLOSING;
    NatToStringValue(count);
    Middle(named + COUNT_LEAD, digits, ANNOUNCEMENT_CLOSING);
    Ends(named + COUNT_LEAD + digits, ANNOUNCEMENT_CLOSING, |ANNOUNCEMENT_CLOSING|);
    Starts(named + COUNT_LEAD + digits, ANNOUNCEMENT_CLOSING, |named|);
    Starts(named + COUNT_LEAD, digits, |named|);
    Starts(named, COUNT_LEAD, |named|);
    r
  }

  /** The questions `respond_to_session` draws from: the current theme's, or
      all of them when no theme is chosen. */
  function Pool(db: QuestionsDatabase, theme: Option<string>): seq<string>
    reads db
  {
    if Truthy(theme) then db.QuestionsByTheme(theme.value) else db.AllQuestions()
  }

  /** The body of `get_theme_questions`. */
  datatype ThemeListing = ThemeListing(theme: string, questions: seq<string>, total: nat, available: nat)

  /** The body of `select_theme`: the announcement and the questions left. */
  datatype ThemeChoice = ThemeChoice(text: string, available: seq<string>)

  /** The body of `select_question`: a question asked with the coach's
      words for it, or the `success: false` answer of an exhausted theme. */
  datatype Selection = Asked(question: string, text: string) | Exhausted(message: string, text: string)

  /** The body of `respond_to_session`: the coach's words and the answer `type`. */
  datatype Reply = Reply(text: string, kind: string)

  /** The body of `get_session_transcript`. */
  datatype TranscriptView = TranscriptView(text: string, raw: seq<Message>)

  /** `Coach` for the assistant's entries, `Vous` for any other role. */
  function Speaker(role: string): (r: string)
    ensures r == "Coach" <==> role == "assistant"
  {
    if role == "assistant" then "Coach" else "Vous"
  }

  /** One block of the rendered transcript. */
  function Line(m: Message): string
  {
    Speaker(m.role) + ": " + m.content
  }

  /** The rendered transcript: one block per entry, separated by blank lines. */
  function RenderTranscript(ms: seq<Message>): string
  {
    Join(seq(|ms|, k requires 0 <= k < |ms| => Line(ms[k])), "\n\n")
  }

  /** Each entry adds its own block at the end of the rendering: the first
      entry is its block alone, each later one a blank line and its block. */
  lemma RenderAppend(ms: seq<Message>, m: Message)
    ensures RenderTranscript(ms + [m]) == if ms == [] then Line(m) else RenderTranscript(ms) + "\n\n" + Line(m)
  {
    var lines := seq(|ms|, k requires 0 <= k < |ms| => Line(ms[k]));
    var more := ms + [m];
    assert seq(|more|, k requires 0 <= k < |more| => Line(more[k])) == lines + [Line(m)];
    JoinSnoc(lines, Line(m), "\n\n");
  }

  /** The block of an entry starts with `Coach: ` exactly when the entry is
      the assistant's, and with `Vous: ` otherwise; the content follows. */
  lemma LineSpeaker(m: Message)
    ensures |Line(m)| >= 7 && Line(m)[..7] == "Coach: " <==> m.role == "assistant"
    ensures m.role != "assistant" ==> Line(m)[..6] == "Vous: "
    ensures Line(m)[|Line(m)| - |m.content|..] == m.content
  {
    if m.role != "assistant" {
      assert Line(m)[0] == 'V';
    }
  }

  /** The module-level `_sessions` and the handlers that use it. */
  class Server {
    var sessions: map<string, Session>

    constructor ()
      ensures sessions == map[] && Valid()
    {
      sessions := map[];
    }

    /** Every session is stored under its own id and is valid. */
    ghost predicate Valid()
      reads this, sessions.Values
    {
      forall id | id in sessions :: sessions[id].sessionId == id && sessions[id].Valid()
    }

    /** `_sessions.get(session_id)`. */
    function Lookup(id: string): (r: Option<Session>)
      reads this
      ensures r.Some? <==> id in sessions
      ensures r.Some? ==> r.value == sessions[id]
    {
      if id in sessions then Some(sessions[id]) else None
    }

    /** The session a handler for `id` may change: none for an unknown id. */
    function Target(id: string): set<Session>
      reads this
    {
      if id in sessions then {sessions[id]} else {}
    }

    /** The questions a session has been asked, for `get_theme_questions`:
        none without a session id or for an unknown one. */
    function AskedBy(sessionId: Option<string>): seq<string>
      reads this, sessions.Values
    {
      if Truthy(sessionId) && sessionId.value in sessions then sessions[sessionId.value].askedQuestions else []
    }

    /** Changing one valid session and no other keeps the store valid. */
    twostate lemma KeepsValid(id: string)
      requires old(Valid()) && id in sessions && sessions == old(sessions) && sessions[id].Valid()
      requires forall other | other in sessions && other != id :: sessions[other] != sessions[id]
      requires forall other | other in sessions && other != id :: unchanged(sessions[other])
      ensures Valid()
    {
    }

    /** `create_session`: an unknown mode is refused; otherwise a new empty
        session is stored under the new id. */
    method CreateSession(mode: string, dossierText: string, newId: string) returns (r: Result<string, HttpError>)
      requires Valid()
      modifies this
      ensures Valid()
      ensures r.Failure? <==> mode !in MODES
      ensures r.Failure? ==> r.error == HttpError(400, "Mode invalide: " + mode) && sessions == old(sessions)
      ensures r.Success? ==> r.value == newId && newId in sessions && fresh(sessions[newId])
                             && sessions == old(sessions)[newId := sessions[newId]]
      ensures r.Success? ==> var s := sessions[newId];
        && s.mode == mode && s.dossierText == dossierText && s.transcript == []
        && s.currentTheme.None? && s.currentQuestion.None? && s.askedQuestions == [] && !s.started
    {
      if mode !in MODES {
        return Failure(HttpError(400, "Mode invalide: " + mode));
      }
      var s := new Session(newId, mode, dossierText);
      sessions := sessions[newId := s];
      return Success(newId);
    }

    /** `get_session_intro`: stores the coach's introduction and marks the session started. */
    method GetSessionIntro(id: string, intro: string) returns (r: Result<string, HttpError>)
      requires Valid()
      modifies Target(id)`transcript, Target(id)`started
      ensures Valid()
      ensures id !in sessions ==> r == Failure(SESSION_NOT_FOUND)
      ensures id in sessions ==> r == Success(intro)
      ensures id in sessions ==> var s := sessions[id];
        && s.transcript == old(s.transcript) + [Message("assistant", intro)] && s.started
        && s.currentTheme == old(s.currentTheme) && s.currentQuestion == old(s.currentQuestion)
        && s.askedQuestions == old(s.askedQuestions)
    {
      if id !in sessions {
        return Failure(SESSION_NOT_FOUND);
      }
      var s := sessions[id];
      s.Say("assistant", intro);
      s.started := true;
      KeepsValid(id);
      return Success(intro);
    }

    /** `get_theme_questions`: the theme's questions the session has not
        been asked yet, in order, with the two counts; an unknown theme
        (one without questions) is refused. */
    method GetThemeQuestions(db: QuestionsDatabase, theme: string, sessionId: Option<string>) returns (r: Result<ThemeListing, HttpError>)
      ensures r.Failure? <==> db.QuestionsByTheme(theme) == []
      ensures r.Failure? ==> r.error == HttpError(404, "Thème non trouvé: " + theme)
      ensures r.Success? ==> r.value.theme == theme && r.value.total == |db.QuestionsByTheme(theme)|
                             && r.value.available == |r.value.questions| <= r.value.total
      ensures r.Success? ==> r.value.questions == Remaining(db.QuestionsByTheme(theme), AskedBy(sessionId))
      ensures r.Success? ==> forall q :: q in r.value.questions <==> q in db.QuestionsByTheme(theme) && q !in AskedBy(sessionId)
      ensures r.Success? ==> IsSubsequence(r.value.questions, db.QuestionsByTheme(theme))
      ensures r.Success? && AskedBy(sessionId) == [] ==> r.value.questions == db.QuestionsByTheme(theme)
    {
      var questions := db.QuestionsByTheme(theme);
      if questions == [] {
        return Failure(HttpError(404, "Thème non trouvé: " + theme));
      }
      var asked := [];
      if Truthy(sessionId) {
        var found := Lookup(sessionId.value);
        if found.Some? {
          asked := found.value.askedQuestions;
        }
      }
      var available := Remaining(questions, asked);
      RemainingSpec(questions, asked);
      RemainingNone(questions);
      return Success(ThemeListing(theme, available, |questions|, |available|));
    }

    /** `select_theme`, given the themes the database knows: makes the theme
        current and announces how many of its questions are left. */
    method SelectTheme(db: QuestionsDatabase, id: string, theme: string, themes: seq<string>) returns (r: Result<ThemeChoice, HttpError>)
      requires Valid()
      modifies Target(id)`currentTheme, Target(id)`transcript
      ensures Valid()
      ensures id !in sessions ==> r == Failure(SESSION_NOT_FOUND)
      ensures id in sessions && theme !in themes ==> r == Failure(HttpError(400, "Thème invalide: " + theme))
      ensures r.Success? <==> id in sessions && theme in themes
      ensures id in sessions ==> var s := sessions[id];
        && s.askedQuestions == old(s.askedQuestions) && s.currentQuestion == old(s.currentQuestion)
        && (r.Failure? ==> s.currentTheme == old(s.currentTheme) && s.transcript == old(s.transcript))
        && (r.Success? ==>
              && s.currentTheme == Some(theme)
              && r.value.available == Remaining(db.QuestionsByTheme(theme), s.askedQuestions)
              && (forall q :: q in r.value.available <==> q in db.QuestionsByTheme(theme) && q !in s.askedQuestions)
              && IsSubsequence(r.value.available, db.QuestionsByTheme(theme))
              && r.value.text == ThemeAnnouncement(theme, |r.value.available|)
              && s.transcript == old(s.transcript) + [Message("assistant", r.value.text)])
    {
      if id !in sessions {
        return Failure(SESSION_NOT_FOUND);
      }
      if theme !in themes {
        return Failure(HttpError(400, "Thème invalide: " + theme));
      }
      var s := sessions[id];
      var available, text := s.StartTheme(theme, db.QuestionsByTheme(theme));
      KeepsValid(id);
      return Success(ThemeChoice(text, available));
    }

    /** `select_question`: asks the chosen question, or the randomly drawn
        one (`pick` stands for `random.choice`), among the current theme's
        questions not asked yet. */
    method SelectQuestion(db: QuestionsDatabase, id: string, question: Option<string>, random: bool, pick: nat, intro: string)
      returns (r: Result<Selection, HttpError>)
      requires Valid()
      modifies Target(id)`currentQuestion, Target(id)`askedQuestions, Target(id)`transcript
      ensures Valid()
      ensures id !in sessions ==> r == Failure(SESSION_NOT_FOUND)
      ensures id in sessions && !Truthy(old(sessions[id].currentTheme)) ==> r == Failure(NO_THEME)
      ensures id in sessions && Truthy(old(sessions[id].currentTheme)) ==>
        var s := sessions[id];
        var available := Remaining(db.QuestionsByTheme(old(s.currentTheme).value), old(s.askedQuestions));
        && (available == [] ==> r == Success(Exhausted(THEME_EXHAUSTED_MESSAGE, THEME_EXHAUSTED_TEXT)))
        && (available != [] && !random && Truthy(question) && question.value !in available ==> r == Failure(QUESTION_UNAVAILABLE))
        && (available != [] && (random || !Truthy(question) || question.value in available) ==> r.Success? && r.value.Asked?)
        && (r.Success? && r.value.Asked? ==>
              && r.value.question in available
              && r.value.question in db.QuestionsByTheme(old(s.currentTheme).value)
              && r.value.question !in old(s.askedQuestions)
              && (!random && Truthy(question) ==> r.value.question == question.value)
              && r.value.text == intro
              && s.currentQuestion == Some(r.value.question)
              && s.askedQuestions == old(s.askedQuestions) + [r.value.question]
              && s.transcript == old(s.transcript) + [Message("assistant", intro)])
      ensures id in sessions && !(r.Success? && r.value.Asked?) ==>
        var s := sessions[id];
        && s.currentQuestion == old(s.currentQuestion) && s.askedQuestions == old(s.askedQuestions)
        && s.transcript == old(s.transcript)
      ensures id in sessions ==> sessions[id].currentTheme == old(sessions[id].currentTheme)
    {
      if id !in sessions {
        return Failure(SESSION_NOT_FOUND);
      }
      var s := sessions[id];
      if !Truthy(s.currentTheme) {
        return Failure(NO_THEME);
      }
      r := s.ChooseQuestion(db.QuestionsByTheme(s.currentTheme.value), question, random, pick, intro);
      KeepsValid(id);
    }

    /** `respond_to_session`: stores the answer, then gives feedback on the
        current question in question-by-question mode, or else moves on to
        the first question not asked yet (of the current theme, or of all
        questions without one), or ends when none is left. */
    method RespondToSession(db: QuestionsDatabase, id: string, userText: string, feedback: string, nextText: string)
      returns (r: Result<Reply, HttpError>)
      requires Valid()
      modifies Target(id)`currentQuestion, Target(id)`askedQuestions, Target(id)`transcript
      ensures Valid()
      ensures id !in sessions ==> r == Failure(SESSION_NOT_FOUND)
      ensures id in sessions ==> r.Success?
      ensures id in sessions && old(sessions[id].mode == "question_by_question" && Truthy(sessions[id].currentQuestion)) ==>
        var s := sessions[id];
        && r == Success(Reply(feedback, "feedback"))
        && s.transcript == old(s.transcript) + [Message("user", userText), Message("assistant", feedback)]
        && s.currentQuestion == old(s.currentQuestion) && s.askedQuestions == old(s.askedQuestions)
      ensures id in sessions && !old(sessions[id].mode == "question_by_question" && Truthy(sessions[id].currentQuestion)) ==>
        var s := sessions[id];
        var available := Remaining(Pool(db, s.currentTheme), old(s.askedQuestions));
        && (available != [] ==>
              && r == Success(Reply(nextText, "next_question"))
              && available[0] in Pool(db, s.currentTheme) && available[0] !in old(s.askedQuestions)
              && s.currentQuestion == Some(available[0])
              && s.askedQuestions == old(s.askedQuestions) + [available[0]]
              && s.transcript == old(s.transcript) + [Message("user", userText), Message("assistant", nextText)])
        && (available == [] ==>
              && r == Success(Reply(ALL_ASKED_TEXT, "end"))
              && s.transcript == old(s.transcript) + [Message("user", userText)]
              && s.currentQuestion == old(s.currentQuestion) && s.askedQuestions == old(s.askedQuestions))
      ensures id in sessions ==> sessions[id].currentTheme == old(sessions[id].currentTheme)
    {
      if id !in sessions {
        return Failure(SESSION_NOT_FOUND);
      }
      var s := sessions[id];
      s.Say("user", userText);
      if s.mode == "question_by_question" && Truthy(s.currentQuestion) {
        s.Say("assistant", feedback);
        KeepsValid(id);
        return Success(Reply(feedback, "feedback"));
      }
      var moved := s.MoveOn(Pool(db, s.currentTheme), nextText);
      KeepsValid(id);
      if !moved {
        return Success(Reply(ALL_ASKED_TEXT, "end"));
      }
      return Success(Reply(nextText, "next_question"));
    }

    /** The checks of `get_session_debrief` before the debrief is generated:
        the transcript handed to it has at least two entries. */
    method CheckDebrief(id: string) returns (r: Result<seq<Message>, HttpError>)
      ensures r.Failure? <==> id !in sessions || |sessions[id].transcript| < 2
      ensures id !in sessions ==> r == Failure(SESSION_NOT_FOUND)
      ensures id in sessions && |sessions[id].transcript| < 2 ==> r == Failure(TOO_SHORT_FOR_DEBRIEF)
      ensures r.Success? ==> r.value == sessions[id].transcript && |r.value| >= 2
    {
      if id !in sessions {
        return Failure(SESSION_NOT_FOUND);
      }
      var s := sessions[id];
      if |s.transcript| < 2 {
        return Failure(TOO_SHORT_FOR_DEBRIEF);
      }
      return Success(s.transcript);
    }

    /** `get_session_transcript`: the rendered transcript and the raw entries. */
    method GetSessionTranscript(id: string) returns (r: Result<TranscriptView, HttpError>)
      ensures id !in sessions ==> r == Failure(SESSION_NOT_FOUND)
      ensures id in sessions ==> r == Success(TranscriptView(RenderTranscript(sessions[id].transcript), sessions[id].transcript))
    {
      if id !in sessions {
        return Failure(SESSION_NOT_FOUND);
      }
      var entries := sessions[id].transcript;
      var formatted: seq<string> := [];
      var i := 0;
      while i < |entries|
        invariant 0 <= i <= |entries|
        invariant formatted == seq(i, k requires 0 <= k < i => Line(entries[k]))
      {
        var role := if entries[i].role == "assistant" then "Coach" else "Vous";
        formatted := formatted + [role + ": " + entries[i].content];
        i := i + 1;
      }
      return Success(TranscriptView(Join(formatted, "\n\n"), entries));
    }
  }
}
