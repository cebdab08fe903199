/** The voice-coaching client of `services/openai_realtime.py`: the session it
    serves, the instructions it configures, the frames it sends, its handling
    of the frames the server sends back, and the registry of active clients.

    The WebSocket is represented by the log `sent` of the frames written to
    it, and the three callbacks by the log `events` of their calls; inbound
    frames arrive already decoded from JSON. */
module Realtime {
  import opened Common

  // ---------------------------------------------------------------- the session

  /** A transcript entry, the dict `{"role": role, "content": content}`. */
  datatype Entry = Entry(role: string, content: string)

  /** `RealtimeSession`. */
  class RealtimeSession {
    const sessionId: string
    const mode: string
    const dossierText: string
    const questionsList: seq<string>

    var presentationDone: bool
    var questionsAnswered: nat
    var currentQuestion: Option<string>
    var transcript: seq<Entry>

    constructor (sessionId: string, mode: string, dossierText: string, questionsList: seq<string>)
      ensures this.sessionId == sessionId && this.mode == mode
      ensures this.dossierText == dossierText && this.questionsList == questionsList
      ensures !presentationDone && questionsAnswered == 0 && currentQuestion.None? && transcript == []
    {
      this.sessionId, this.mode := sessionId, mode;
      this.dossierText, this.questionsList := dossierText, questionsList;
      presentationDone, questionsAnswered, currentQuestion := false, 0, None;
      transcript := [];
    }

    /** `add_to_transcript`: one entry at the end, earlier entries unchanged. */
    method AddToTranscript(role: string, content: string)
      modifies this`transcript
      ensures transcript == old(transcript) + [Entry(role, content)]
    {
      transcript := transcript + [Entry(role, content)];
    }
  }

  // ---------------------------------------------------------------- system instructions

  /** The introduction's opening line: the coach's role. */
  const INTRO_ROLE: string := @"Tu es un coach d'entretien exigeant et direct pour le Master X-HEC Entrepreneurs.
"

  /** The introduction's section on the coach's personality. */
  const INTRO_PERSONALITY: string := @"
## TA PERSONNALITÉ
- SHARP : direct, sans détour, pas de langue de bois
- EXIGEANT : comme un vrai membre du jury X-HEC
- CONSTRUCTIF : tu pointes les faiblesses mais donnes toujours une piste d'amélioration
- Tu parles en FRANÇAIS, de manière professionnelle mais naturelle
"

  /** The introduction's section on what a good answer is. */
  const INTRO_EXPECTATIONS: string := @"
## CE QUE TU ATTENDS DES RÉPONSES
Une bonne réponse doit être :
1. COURTE : 1-2 minutes max
2. CLAIRE : Structure évidente
3. IMPACTANTE : Accrocher dès la première phrase
4. STRUCTURÉE : Réponse directe + Exemple concret + Lien avec X-HEC
"

  /** The introduction's section on what the coach penalises. */
  const INTRO_PENALTIES: string := @"
## CE QUE TU SANCTIONNES
- Les ""euuuh"", ""en fait"", ""du coup"" à répétition
- Les réponses trop longues ou qui tournent en rond
- L'absence d'exemple concret
- L'oubli de faire le lien avec X-HEC
- Les réponses évasives

"

  /** The fixed opening of the instructions, up to the mode section. */
  const INTRO: string := INTRO_ROLE + INTRO_PERSONALITY + INTRO_EXPECTATIONS + INTRO_PENALTIES

  /** The first line of both mode sections, up to the mode's name. */
  const MODE_HEADING: string := "\n## MODE ACTUEL : "

  /** The mode section for `question_by_question`. */
  const QUESTION_BY_QUESTION_SECTION: string := MODE_HEADING + "Question par Question" + @"
- Après chaque réponse du candidat, donne un FEEDBACK IMMÉDIAT (2-3 phrases max)
- Pointe ce qui est bien et ce qui peut être amélioré
- Puis pose la question suivante
"

  /** The mode section for any other mode. */
  const SIMULATION_SECTION: string := MODE_HEADING + "Simulation 20 minutes" + @"
- Enchaîne les questions SANS donner de feedback intermédiaire
- Note mentalement les points forts et faibles
- Tu donneras un debrief complet à la fin (après 8-10 questions)
"

  const CONTEXT_HEADING: string := "\n\n## CONTEXTE X-HEC\n"

  const DOSSIER_HEADING: string := "\n\n## DOSSIER DU CANDIDAT\n"

  const QUESTIONS_HEADING: string := "\n\n## QUESTIONS DISPONIBLES\n"

  /** The fixed end of the instructions. */
  const CLOSING: string := @"

## CONSIGNES
1. Commence par demander au candidat de se présenter en 2-3 minutes
2. Après sa présentation, fais un bref commentaire puis pose ta première question
3. Continue l'entretien naturellement
4. Parle de manière naturelle et fluide, comme à l'oral
5. Sois encourageant mais exigeant
"

  const QUESTION_BY_QUESTION: string := "question_by_question"

  /** `s[:n]`: the first `n` characters of `s`, or all of it when shorter. */
  function Truncate(s: string, n: nat): (r: string)
    ensures |r| <= n && |r| <= |s| && r == s[..|r|]
    ensures |s| <= n ==> r == s
    ensures |s| > n ==> |r| == n
  {
    if |s| <= n then s else s[..n]
  }

  /** The lines `- q` of the question list. */
  function Bullets(questions: seq<string>): (r: seq<string>)
    ensures |r| == |questions| && forall k | 0 <= k < |r| :: r[k] == "- " + questions[k]
  {
    seq(|questions|, k requires 0 <= k < |questions| => "- " + questions[k])
  }

  /** The mode section: the question-by-question one for that mode, the
      simulation one for any other mode string. */
  function ModeSection(mode: string): string
  {
    if mode == QUESTION_BY_QUESTION then QUESTION_BY_QUESTION_SECTION else SIMULATION_SECTION
  }

  /** Everything after the mode section: the programme context (at most
      2000 characters of it), the candidate's file (at most 3000), one line
      per question, and the closing guidance. */
  function InstructionsTail(dossierText: string, questionsList: seq<string>, masterContext: string): (r: string)
    ensures |CLOSING| <= |r| && r[|r| - |CLOSING|..] == CLOSING
  {
    var body := CONTEXT_HEADING + Truncate(masterContext, 2000)
      + DOSSIER_HEADING + Truncate(dossierText, 3000)
      + QUESTIONS_HEADING + Join(Bullets(questionsList), "\n");
    Ends(body, CLOSING, |CLOSING|);
    CONTEXT_HEADING + Truncate(masterContext, 2000)
    + DOSSIER_HEADING + Truncate(dossierText, 3000)
    + QUESTIONS_HEADING + Join(Bullets(questionsList), "\n")
    + CLOSING
  }

  /** `build_system_instructions`, given the text the scraper returns for the
      programme (`get_master_context_text`). */
  function SystemInstructions(mode: string, dossierText: string, questionsList: seq<string>, masterContext: string): (r: string)
    ensures |INTRO| <= |r| && r[..|INTRO|] == INTRO
    ensures |CLOSING| <= |r| && r[|r| - |CLOSING|..] == CLOSING
  {
    var tail := InstructionsTail(dossierText, questionsList, masterContext);
    Starts(INTRO + ModeSection(mode), tail, |INTRO|);
    Starts(INTRO, ModeSection(mode), |INTRO|);
    Ends(INTRO + ModeSection(mode), tail, |CLOSING|);
    INTRO + ModeSection(mode) + tail
  }

  /** The instructions depend only on the first 2000 characters of the
      programme context and the first 3000 of the candidate's file. */
  lemma InstructionsTruncated(mode: string, dossierText: string, questionsList: seq<string>, masterContext: string)
    ensures SystemInstructions(mode, dossierText, questionsList, masterContext)
         == SystemInstructions(mode, Truncate(dossierText, 3000), questionsList, Truncate(masterContext, 2000))
  {
    assert Truncate(Truncate(dossierText, 3000), 3000) == Truncate(dossierText, 3000);
    assert Truncate(Truncate(masterContext, 2000), 2000) == Truncate(masterContext, 2000);
  }

  /** The truncated programme context follows the context heading, and the
      truncated file follows the dossier heading right after it. */
  lemma TruncatedTextsPlaced(mode: string, dossierText: string, questionsList: seq<string>, masterContext: string)
    ensures var r := SystemInstructions(mode, dossierText, questionsList, masterContext);
      var context := Truncate(masterContext, 2000);
      var dossier := Truncate(dossierText, 3000);
      var before := INTRO + ModeSection(mode) + CONTEXT_HEADING;
      && |before| + |context| <= |r| && r[|before|..|before| + |context|] == context
      && |before + context + DOSSIER_HEADING| + |dossier| <= |r|
      && r[|before + context + DOSSIER_HEADING|..|before + context + DOSSIER_HEADING| + |dossier|] == dossier
  {
    var tail := InstructionsTail(dossierText, questionsList, masterContext);
    assert tail == CONTEXT_HEADING + Truncate(masterContext, 2000) + DOSSIER_HEADING + Truncate(dossierText, 3000)
                   + QUESTIONS_HEADING + Join(Bullets(questionsList), "\n") + CLOSING;
    assert SystemInstructions(mode, dossierText, questionsList, masterContext) == INTRO + ModeSection(mode) + tail;
    Embedded(INTRO + ModeSection(mode), CONTEXT_HEADING, Truncate(masterContext, 2000), DOSSIER_HEADING,
             Truncate(dossierText, 3000), QUESTIONS_HEADING, Join(Bullets(questionsList), "\n"), CLOSING);
  }

  /** The two mode sections differ at the first letter of the mode's name. */
  lemma SectionsDiffer()
    ensures |MODE_HEADING| < |QUESTION_BY_QUESTION_SECTION| <= |SIMULATION_SECTION| <= |QUESTION_BY_QUESTION_SECTION| + |CLOSING|
    ensures QUESTION_BY_QUESTION_SECTION[|MODE_HEADING|] == 'Q' && SIMULATION_SECTION[|MODE_HEADING|] == 'S'
  {
  }

  /** Right after the fixed introduction the instructions carry the
      question-by-question section exactly when the mode is
      `question_by_question`, and the simulation section otherwise. */
  lemma ModeSectionPlacement(mode: string, dossierText: string, questionsList: seq<string>, masterContext: string)
    ensures var r := SystemInstructions(mode, dossierText, questionsList, masterContext);
      && |INTRO| + |SIMULATION_SECTION| <= |r|
      && (r[|INTRO|..|INTRO| + |QUESTION_BY_QUESTION_SECTION|] == QUESTION_BY_QUESTION_SECTION <==> mode == QUESTION_BY_QUESTION)
      && (mode != QUESTION_BY_QUESTION ==> r[|INTRO|..|INTRO| + |SIMULATION_SECTION|] == SIMULATION_SECTION)
  {
    var tail := InstructionsTail(dossierText, questionsList, masterContext);
    SectionsDiffer();
    ChosenAfter(INTRO, QUESTION_BY_QUESTION_SECTION, SIMULATION_SECTION, tail, mode == QUESTION_BY_QUESTION, |MODE_HEADING|);
  }

  /** Between `a` and `c` sits `x` when `first` holds and `y` otherwise; two
      texts that differ at position `k` tell the cases apart. */
  lemma ChosenAfter(a: string, x: string, y: string, c: string, first: bool, k: nat)
    requires k < |x| <= |y| <= |x| + |c| && x[k] != y[k]
    ensures var r := a + (if first then x else y) + c;
      && |a| + |y| <= |r|
      && (r[|a|..|a| + |x|] == x <==> first)
      && (!first ==> r[|a|..|a| + |y|] == y)
  {
    if first {
      Middle(a, x, c);
    } else {
      Middle(a, y, c);
      MiddleDiffers(a, y, c, x, k);
    }
  }

  // ---------------------------------------------------------------- frames

  datatype TurnDetection = TurnDetection(kind: string, threshold: real, prefixPaddingMs: nat, silenceDurationMs: nat)

  /** The `session` object of the `session.update` frame. */
  datatype SessionConfig = SessionConfig(
    modalities: seq<string>, instructions: string, voice: string,
    inputAudioFormat: string, outputAudioFormat: string,
    transcriptionModel: string, turnDetection: TurnDetection)

  /** The configuration `_configure_session` sends: text and audio, the
      given instructions, 16-bit PCM both ways, transcription of the
      candidate's speech, and turns detected by the server. */
  function Configuration(instructions: string): (r: SessionConfig)
    ensures r.instructions == instructions
    ensures r.modalities == ["text", "audio"] && r.voice == "alloy"
    ensures r.inputAudioFormat == r.outputAudioFormat == "pcm16" && r.transcriptionModel == "whisper-1"
    ensures r.turnDetection == TurnDetection("server_vad", 0.5, 300, 500)
  {
    SessionConfig(["text", "audio"], instructions, "alloy", "pcm16", "pcm16", "whisper-1",
                  TurnDetection("server_vad", 0.5, 300, 500))
  }

  /** The frames the client writes, by their `type`. The audio of
      `input_audio_buffer.append` is the raw bytes (their base64 text is not
      modelled); `conversation.item.create` carries a user message with one
      `input_text` part. */
  datatype ClientFrame =
    | SessionUpdate(session: SessionConfig)
    | InputAudioAppend(audio: seq<bv8>)
    | InputAudioCommit
    | ConversationItemCreate(role: string, text: string)
    | ResponseCreate
    | ResponseCancel

  /** One content part of an output item of `response.done`; a missing
      `type` is `None`, a missing `transcript` the empty text. */
  datatype ContentPart = ContentPart(kind: Option<string>, transcript: string)

  /** One item of the `output` list of `response.done`. */
  datatype OutputItem = OutputItem(kind: Option<string>, content: seq<ContentPart>)

  /** The frames the server sends, by their `type`, with the fields the
      handler reads (a missing `delta` or `transcript` is the empty text, a
      missing error `message` is `None`); `Unhandled` stands for any other type. */
  datatype ServerMessage =
    | SessionCreated
    | SessionUpdated
    | AudioDelta(delta: string)
    | AudioTranscriptDelta(delta: string)
    | InputTranscriptionCompleted(transcript: string)
    | ResponseDone(output: seq<OutputItem>)
    | ResponseCreated
    | ErrorMessage(message: Option<string>)
    | SpeechStarted
    | SpeechStopped
    | Unhandled(kind: string)

  /** A call of one of the callbacks: `on_audio` (with the base64 payload;
      its decoding is not modelled), `on_transcript`, `on_error`. */
  datatype Event = AudioOut(payload: string) | TranscriptOut(role: string, text: string) | ErrorOut(message: string)

  /** How the iteration over the socket in `listen` ends: the peer closes
      normally, the connection is lost (`ConnectionClosed`), or another
      exception (an undecodable frame, say) is raised. */
  datatype StreamEnd = ClosedNormally | ConnectionLost | Failed(reason: string)

  const UNKNOWN_ERROR: string := "Unknown error"

  // ---------------------------------------------------------------- the client as a value

  /** Which callbacks are set. */
  datatype Callbacks = Callbacks(audio: bool, transcript: bool, error: bool)

  /** Everything a client's operations read or change: whether `ws` is set,
      the two flags, the frames sent, the callback calls, the session's
      transcript, and the callbacks set. */
  datatype ClientState = ClientState(
    hasSocket: bool, isConnected: bool, responseInProgress: bool,
    sent: seq<ClientFrame>, events: seq<Event>, transcript: seq<Entry>, callbacks: Callbacks)

  /** The guard of every send: `is_connected and ws`. */
  predicate CanSend(st: ClientState)
  {
    st.isConnected && st.hasSocket
  }

  /** `connect`: `None` when the socket opens, else the error it raised,
      which `connect` raises again with nothing changed. */
  function AfterConnect(st: ClientState, failure: Option<string>, instructions: string): ClientState
  {
    if failure.Some? then st
    else st.(hasSocket := true, isConnected := true, sent := st.sent + [SessionUpdate(Configuration(instructions))])
  }

  function AfterSendAudio(st: ClientState, audio: seq<bv8>): ClientState
  {
    if !CanSend(st) then st else st.(sent := st.sent + [InputAudioAppend(audio)])
  }

  function AfterCommitAudio(st: ClientState): ClientState
  {
    if !CanSend(st) then st else st.(sent := st.sent + [InputAudioCommit])
  }

  function AfterCancelResponse(st: ClientState): ClientState
  {
    if !CanSend(st) then st else st.(sent := st.sent + [ResponseCancel], responseInProgress := false)
  }

  function AfterSendText(st: ClientState, text: string): ClientState
  {
    if !CanSend(st) then st else st.(sent := st.sent + [ConversationItemCreate("user", text), ResponseCreate])
  }

  /** `disconnect`: closes the socket if there is one; `ws` stays set. */
  function AfterDisconnect(st: ClientState): ClientState
  {
    if st.hasSocket then st.(isConnected := false) else st
  }

  /** The assistant entries of a content list: one per audio part with a
      non-empty transcript, in order. */
  function PartEntries(content: seq<ContentPart>): seq<Entry>
  {
    if content == [] then []
    else
      var part := content[|content| - 1];
      PartEntries(content[..|content| - 1]) + (if part.kind == Some("audio") && part.transcript != "" then [Entry("assistant", part.transcript)] else [])
  }

  /** The assistant entries `response.done` stores for its output items:
      those of the content of each `message` item, in order. */
  function DoneEntries(output: seq<OutputItem>): seq<Entry>
  {
    if output == [] then []
    else
      var item := output[|output| - 1];
      DoneEntries(output[..|output| - 1]) + (if item.kind == Some("message") then PartEntries(item.content) else [])
  }

  /** `_handle_message`. */
  function AfterMessage(st: ClientState, msg: ServerMessage): ClientState
  {
    match msg
    case SessionCreated => st
    case SessionUpdated => st
    case AudioDelta(delta) =>
      if delta != "" && st.callbacks.audio then st.(events := st.events + [AudioOut(delta)]) else st
    case AudioTranscriptDelta(delta) =>
      if delta != "" && st.callbacks.transcript then st.(events := st.events + [TranscriptOut("assistant", delta)]) else st
    case InputTranscriptionCompleted(transcript) =>
      if transcript == "" then st
      else st.(transcript := st.transcript + [Entry("user", transcript)],
               events := st.events + (if st.callbacks.transcript then [TranscriptOut("user", transcript)] else []))
    case ResponseDone(output) =>
      st.(responseInProgress := false, transcript := st.transcript + DoneEntries(output))
    case ResponseCreated => st.(responseInProgress := true)
    case ErrorMessage(message) =>
      if st.callbacks.error then st.(events := st.events + [ErrorOut(message.GetOr(UNKNOWN_ERROR))]) else st
    case SpeechStarted =>
      if st.responseInProgress then AfterCancelResponse(st) else st
    case SpeechStopped => st
    case Unhandled(_) => st
  }

  /** The messages handled one after the other. */
  function AfterMessages(st: ClientState, msgs: seq<ServerMessage>): ClientState
    decreases |msgs|
  {
    if msgs == [] then st else AfterMessages(AfterMessage(st, msgs[0]), msgs[1..])
  }

  /** `listen` as written: nothing without a socket; otherwise every
      message until the stream ends, after which a lost connection clears
      `is_connected`. On any other exception it calls `on_error` without
      awaiting it; `on_error` is a coroutine function (the handler awaits its
      result), so the call only creates a coroutine that never runs and
      nothing is reported. */
  function AfterListenAsWritten(st: ClientState, msgs: seq<ServerMessage>, end: StreamEnd): ClientState
  {
    if !st.hasSocket then st
    else
      var handled := AfterMessages(st, msgs);
      if end == ConnectionLost then handled.(isConnected := false) else handled
  }

  /** `listen` as intended: the same, except that any other exception is
      reported through `on_error`, when set, with its text. */
  function AfterListen(st: ClientState, msgs: seq<ServerMessage>, end: StreamEnd): ClientState
  {
    if !st.hasSocket then st
    else
      var handled := AfterMessages(st, msgs);
      match end
      case ClosedNormally => handled
      case ConnectionLost => handled.(isConnected := false)
      case Failed(reason) =>
        if handled.callbacks.error then handled.(events := handled.events + [ErrorOut(reason)]) else handled
  }

  // ---------------------------------------------------------------- properties

  /** Without a connection (or without a socket) no send operation sends a
      frame or changes a flag. */
  lemma SendsInertWhenDisconnected(st: ClientState, audio: seq<bv8>, text: string)
    requires !CanSend(st)
    ensures AfterSendAudio(st, audio) == st && AfterCommitAudio(st) == st
    ensures AfterCancelResponse(st) == st && AfterSendText(st, text) == st
  {
  }

  /** Connected, each send appends its frames and nothing else; `send_text`
      writes the message and then asks for a response; `cancel_response`
      writes one `response.cancel` and clears the flag whether or not a
      response was in progress. */
  lemma SendsWhenConnected(st: ClientState, audio: seq<bv8>, text: string)
    requires CanSend(st)
    ensures AfterSendAudio(st, audio).sent == st.sent + [InputAudioAppend(audio)]
    ensures AfterCommitAudio(st).sent == st.sent + [InputAudioCommit]
    ensures AfterSendText(st, text).sent == st.sent + [ConversationItemCreate("user", text), ResponseCreate]
    ensures AfterCancelResponse(st) == st.(sent := st.sent + [ResponseCancel], responseInProgress := false)
    ensures AfterSendAudio(st, audio).responseInProgress == st.responseInProgress
    ensures AfterSendText(st, text).responseInProgress == st.responseInProgress
  {
  }

  /** `response.created` raises the flag and `response.done` lowers it. */
  lemma ResponseFlag(st: ClientState, output: seq<OutputItem>)
    ensures AfterMessage(st, ResponseCreated).responseInProgress
    ensures !AfterMessage(st, ResponseDone(output)).responseInProgress
  {
  }

  /** The user starting to speak during a response, on a live connection,
      sends exactly one `response.cancel` and clears the flag; with no
      response in progress it changes nothing. */
  lemma SpeechStartedInterrupts(st: ClientState)
    ensures st.responseInProgress && CanSend(st) ==>
      AfterMessage(st, SpeechStarted) == st.(sent := st.sent + [ResponseCancel], responseInProgress := false)
    ensures !st.responseInProgress ==> AfterMessage(st, SpeechStarted) == st
    ensures AfterMessage(st, SpeechStarted).transcript == st.transcript
  {
  }

  /** The entries a message adds to the transcript, whatever the state. */
  function MessageEntries(msg: ServerMessage): seq<Entry>
  {
    match msg
    case InputTranscriptionCompleted(transcript) => if transcript == "" then [] else [Entry("user", transcript)]
    case ResponseDone(output) => DoneEntries(output)
    case _ => []
  }

  /** Handling a message only appends to the transcript: a completed user
      transcription appends one user entry when not empty, `response.done`
      its assistant entries, and every other message (the assistant's
      transcript deltas included) none. The frames sent only grow. */
  lemma MessageAppends(st: ClientState, msg: ServerMessage)
    ensures AfterMessage(st, msg).transcript == st.transcript + MessageEntries(msg)
    ensures AfterMessage(st, msg).sent == st.sent || AfterMessage(st, msg).sent == st.sent + [ResponseCancel]
    ensures AfterMessage(st, msg).hasSocket == st.hasSocket && AfterMessage(st, msg).isConnected == st.isConnected
    ensures AfterMessage(st, msg).callbacks == st.callbacks
  {
  }

  /** An audio part with a transcript: the parts `response.done` stores. */
  predicate Spoken(part: ContentPart)
  {
    part.kind == Some("audio") && part.transcript != ""
  }

  /** An output item of type `message`: the items whose content is read. */
  predicate IsMessage(item: OutputItem)
  {
    item.kind == Some("message")
  }

  /** One assistant entry per part, carrying its transcript. */
  function Said(parts: seq<ContentPart>): (r: seq<Entry>)
    ensures |r| == |parts|
  {
    seq(|parts|, k requires 0 <= k < |parts| => Entry("assistant", parts[k].transcript))
  }

  /** The content parts of the items, item after item. */
  function Contents(items: seq<OutputItem>): seq<ContentPart>
  {
    if items == [] then [] else Contents(items[..|items| - 1]) + items[|items| - 1].content
  }

  lemma SaidAppend(a: seq<ContentPart>, b: seq<ContentPart>)
    ensures Said(a + b) == Said(a) + Said(b)
  {
    assert forall k | 0 <= k < |a + b| :: Said(a + b)[k] == (Said(a) + Said(b))[k];
  }

  /** The entries of a content list are those of its spoken parts. */
  lemma {:induction false} PartEntriesSaid(content: seq<ContentPart>)
    ensures PartEntries(content) == Said(Filter(Spoken, content))
  {
    if content != [] {
      var n := |content| - 1;
      PartEntriesSaid(content[..n]);
      assert content == content[..n] + [content[n]];
      FilterAppend(Spoken, content[..n], [content[n]]);
      assert Filter(Spoken, [content[n]]) == if Spoken(content[n]) then [content[n]] else [];
      SaidAppend(Filter(Spoken, content[..n]), Filter(Spoken, [content[n]]));
    }
  }

  /** The entries of `response.done` are those of the spoken parts of its
      message items, in order. */
  lemma {:induction false} DoneEntriesSaid(output: seq<OutputItem>)
    ensures DoneEntries(output) == Said(Filter(Spoken, Contents(Filter(IsMessage, output))))
  {
    if output != [] {
      var n := |output| - 1;
      var front := output[..n];
      var last := output[n];
      DoneEntriesSaid(front);
      assert output == front + [last];
      FilterAppend(IsMessage, front, [last]);
      var items := Filter(IsMessage, front);
      assert Filter(IsMessage, [last]) == if IsMessage(last) then [last] else [];
      if IsMessage(last) {
        assert (items + [last])[..|items|] == items;
        assert Contents(items + [last]) == Contents(items) + last.content;
        FilterAppend(Spoken, Contents(items), last.content);
        SaidAppend(Filter(Spoken, Contents(items)), Filter(Spoken, last.content));
        PartEntriesSaid(last.content);
      } else {
        assert Filter(IsMessage, output) == items;
      }
    }
  }

  /** Which entries a content list gives, whatever their order. */
  lemma {:induction false} PartEntriesMembers(content: seq<ContentPart>)
    ensures forall e | e in PartEntries(content) :: e.role == "assistant" && e.content != ""
    ensures forall k | 0 <= k < |content| && Spoken(content[k]) :: Entry("assistant", content[k].transcript) in PartEntries(content)
  {
    if content != [] {
      var n := |content| - 1;
      PartEntriesMembers(content[..n]);
      forall k | 0 <= k < n
        ensures content[..n][k] == content[k]
      {
      }
    }
  }

  /** Which entries `response.done` stores, whatever their order. */
  lemma {:induction false} DoneEntriesMembers(output: seq<OutputItem>)
    ensures forall e | e in DoneEntries(output) :: e.role == "assistant" && e.content != ""
    ensures forall i, k | 0 <= i < |output| && IsMessage(output[i]) && 0 <= k < |output[i].content| && Spoken(output[i].content[k]) ::
      Entry("assistant", output[i].content[k].transcript) in DoneEntries(output)
  {
    if output != [] {
      var n := |output| - 1;
      DoneEntriesMembers(output[..n]);
      PartEntriesMembers(output[n].content);
      forall i | 0 <= i < n
        ensures output[..n][i] == output[i]
      {
      }
    }
  }

  /** The assistant entries of a content list are exactly the non-empty
      transcripts of its audio parts, in order, one entry per such part: the
      entries of its spoken parts, which are every occurrence of a spoken part
      and nothing else. */
  lemma PartEntriesSpec(content: seq<ContentPart>)
    ensures forall e | e in PartEntries(content) :: e.role == "assistant" && e.content != ""
    ensures forall k | 0 <= k < |content| && Spoken(content[k]) :: Entry("assistant", content[k].transcript) in PartEntries(content)
    ensures PartEntries(content) == Said(Filter(Spoken, content))
    ensures forall p :: multiset(Filter(Spoken, content))[p] == if Spoken(p) then multiset(content)[p] else 0
    ensures IsSubsequence(Filter(Spoken, content), content)
  {
    PartEntriesMembers(content);
    PartEntriesSaid(content);
    FilterSpec(Spoken, content);
  }

  /** `response.done` stores only assistant entries with non-empty text, one
      for every audio part with a transcript inside a `message` item, and
      nothing else: the entries of the spoken parts of the message items, in
      order, the message items being every `message` item of the output. */
  lemma DoneEntriesSpec(output: seq<OutputItem>)
    ensures forall e | e in DoneEntries(output) :: e.role == "assistant" && e.content != ""
    ensures forall i, k | 0 <= i < |output| && IsMessage(output[i]) && 0 <= k < |output[i].content| && Spoken(output[i].content[k]) ::
      Entry("assistant", output[i].content[k].transcript) in DoneEntries(output)
    ensures DoneEntries(output) == Said(Filter(Spoken, Contents(Filter(IsMessage, output))))
    ensures forall it :: multiset(Filter(IsMessage, output))[it] == if IsMessage(it) then multiset(output)[it] else 0
    ensures IsSubsequence(Filter(IsMessage, output), output)
  {
    DoneEntriesMembers(output);
    DoneEntriesSaid(output);
    FilterSpec(IsMessage, output);
  }

  /** The transcript entries of a sequence of messages. */
  function MessagesEntries(msgs: seq<ServerMessage>): seq<Entry>
  {
    if msgs == [] then [] else MessageEntries(msgs[0]) + MessagesEntries(msgs[1..])
  }

  /** Listening only appends to the transcript, the entries of the messages
      in the order they arrive, and only ever sends `response.cancel`. */
  lemma {:induction false} MessagesAppend(st: ClientState, msgs: seq<ServerMessage>)
    ensures AfterMessages(st, msgs).transcript == st.transcript + MessagesEntries(msgs)
    ensures |st.sent| <= |AfterMessages(st, msgs).sent| && AfterMessages(st, msgs).sent[..|st.sent|] == st.sent
    ensures forall k | |st.sent| <= k < |AfterMessages(st, msgs).sent| :: AfterMessages(st, msgs).sent[k] == ResponseCancel
    ensures AfterMessages(st, msgs).hasSocket == st.hasSocket && AfterMessages(st, msgs).isConnected == st.isConnected
    ensures AfterMessages(st, msgs).callbacks == st.callbacks
    decreases |msgs|
  {
    if msgs != [] {
      var next := AfterMessage(st, msgs[0]);
      MessageAppends(st, msgs[0]);
      MessagesAppend(next, msgs[1..]);
      var final := AfterMessages(st, msgs);
      assert final == AfterMessages(next, msgs[1..]);
      assert final.sent[..|next.sent|] == next.sent;
      forall k | |st.sent| <= k < |final.sent|
        ensures final.sent[k] == ResponseCancel
      {
        if k < |next.sent| {
          assert final.sent[k] == next.sent[k];
        }
      }
    }
  }

  /** `listen` with a socket leaves the transcript extended by the entries of
      the messages, in order, and sends nothing but `response.cancel`; it
      ends connected only if the connection was not lost, and reports an
      error through `on_error` exactly when the stream ends with one and the
      callback is set. Without a socket it changes nothing. */
  lemma ListenSpec(st: ClientState, msgs: seq<ServerMessage>, end: StreamEnd)
    ensures !st.hasSocket ==> AfterListen(st, msgs, end) == st
    ensures st.hasSocket ==> AfterListen(st, msgs, end).transcript == st.transcript + MessagesEntries(msgs)
    ensures |st.sent| <= |AfterListen(st, msgs, end).sent| && AfterListen(st, msgs, end).sent[..|st.sent|] == st.sent
    ensures forall k | |st.sent| <= k < |AfterListen(st, msgs, end).sent| :: AfterListen(st, msgs, end).sent[k] == ResponseCancel
    ensures st.hasSocket ==> (AfterListen(st, msgs, end).isConnected <==> st.isConnected && end != ConnectionLost)
    ensures st.hasSocket && end.Failed? && st.callbacks.error ==>
      AfterListen(st, msgs, end).events == AfterMessages(st, msgs).events + [ErrorOut(end.reason)]
    ensures st.hasSocket && !(end.Failed? && st.callbacks.error) ==>
      AfterListen(st, msgs, end).events == AfterMessages(st, msgs).events
  {
    MessagesAppend(st, msgs);
  }

  /** As written, an exception other than a lost connection is never
      reported, although `on_error` is set; the intended `listen` reports it. */
  lemma ListenErrorUnreported(st: ClientState, msgs: seq<ServerMessage>, reason: string)
    requires st.hasSocket && st.callbacks.error
    ensures AfterListenAsWritten(st, msgs, Failed(reason)).events == AfterMessages(st, msgs).events
    ensures AfterListen(st, msgs, Failed(reason)).events == AfterMessages(st, msgs).events + [ErrorOut(reason)]
    ensures AfterListenAsWritten(st, msgs, Failed(reason)) != AfterListen(st, msgs, Failed(reason))
  {
    MessagesAppend(st, msgs);
    assert |AfterListen(st, msgs, Failed(reason)).events| == |AfterMessages(st, msgs).events| + 1;
  }

  // ---------------------------------------------------------------- the client

  const MISSING_KEY: string := "OPENAI_API_KEY environment variable not set"

  /** `OpenAIRealtimeClient`. */
  class OpenAIRealtimeClient {
    const session: RealtimeSession
    const apiKey: string

    /** Whether `ws` is set. */
    var hasSocket: bool
    var isConnected: bool
    var responseInProgress: bool
    /** The frames written to the socket, oldest first. */
    var sent: seq<ClientFrame>
    /** The callback calls, oldest first. */
    var events: seq<Event>
    var onAudio: bool
    var onTranscript: bool
    var onError: bool

    /** The state of `__init__` once the key is known to be set. */
    constructor (session: RealtimeSession, apiKey: string)
      ensures this.session == session && this.apiKey == apiKey
      ensures !hasSocket && !isConnected && !responseInProgress && sent == [] && events == []
      ensures !onAudio && !onTranscript && !onError
    {
      this.session, this.apiKey := session, apiKey;
      hasSocket, isConnected, responseInProgress := false, false, false;
      sent, events := [], [];
      onAudio, onTranscript, onError := false, false, false;
    }

    function State(): ClientState
      reads this, session
    {
      ClientState(hasSocket, isConnected, responseInProgress, sent, events, session.transcript,
                  Callbacks(onAudio, onTranscript, onError))
    }

    /** `connect` and `_configure_session`: on success, sets the socket, marks
        the client connected and sends the `session.update` frame with the
        instructions built for the session. */
    method Connect(failure: Option<string>, masterContext: string) returns (raised: Option<string>)
      modifies this
      ensures raised == failure
      ensures State() == AfterConnect(old(State()), failure,
                                      SystemInstructions(session.mode, session.dossierText, session.questionsList, masterContext))
    {
      if failure.Some? {
        return failure;
      }
      hasSocket := true;
      isConnected := true;
      var config := Configuration(SystemInstructions(session.mode, session.dossierText, session.questionsList, masterContext));
      sent := sent + [SessionUpdate(config)];
      return None;
    }

    /** `send_audio`. */
    method SendAudio(audio: seq<bv8>)
      modifies this
      ensures State() == AfterSendAudio(old(State()), audio)
    {
      if !isConnected || !hasSocket {
        return;
      }
      sent := sent + [InputAudioAppend(audio)];
    }

    /** `commit_audio`. */
    method CommitAudio()
      modifies this
      ensures State() == AfterCommitAudio(old(State()))
    {
      if !isConnected || !hasSocket {
        return;
      }
      sent := sent + [InputAudioCommit];
    }

    /** `cancel_response`. */
    method CancelResponse()
      modifies this
      ensures State() == AfterCancelResponse(old(State()))
    {
      if !isConnected || !hasSocket {
        return;
      }
      sent := sent + [ResponseCancel];
      responseInProgress := false;
    }

    /** `send_text`. */
    method SendText(text: string)
      modifies this
      ensures State() == AfterSendText(old(State()), text)
    {
      if !isConnected || !hasSocket {
        return;
      }
      sent := sent + [ConversationItemCreate("user", text)];
      sent := sent + [ResponseCreate];
    }

    /** The `response.done` loops: for each `message` item, for each `audio`
        part with a transcript, one assistant entry. */
    method StoreResponse(output: seq<OutputItem>)
      modifies session`transcript
      ensures session.transcript == old(session.transcript) + DoneEntries(output)
    {
      var i := 0;
      while i < |output|
        invariant 0 <= i <= |output|
        invariant session.transcript == old(session.transcript) + DoneEntries(output[..i])
      {
        assert output[..i + 1][..i] == output[..i];
        var item := output[i];
        if item.kind == Some("message") {
          ghost var before := session.transcript;
          var j := 0;
          while j < |item.content|
            invariant 0 <= j <= |item.content|
            invariant session.transcript == before + PartEntries(item.content[..j])
          {
            assert item.content[..j + 1][..j] == item.content[..j];
            var part := item.content[j];
            if part.kind == Some("audio") && part.transcript != "" {
              session.AddToTranscript("assistant", part.transcript);
            }
            j := j + 1;
          }
          assert item.content[..j] == item.content;
        }
        i := i + 1;
      }
      assert output[..i] == output;
    }

    /** `_handle_message`. */
    method HandleMessage(msg: ServerMessage)
      modifies this, session`transcript
      ensures State() == AfterMessage(old(State()), msg)
    {
      match msg
      case SessionCreated =>
      case SessionUpdated =>
      case AudioDelta(delta) =>
        if delta != "" && onAudio {
          events := events + [AudioOut(delta)];
        }
      case AudioTranscriptDelta(delta) =>
        if delta != "" && onTranscript {
          events := events + [TranscriptOut("assistant", delta)];
        }
      case InputTranscriptionCompleted(transcript) =>
        if transcript != "" {
          session.AddToTranscript("user", transcript);
          if onTranscript {
            events := events + [TranscriptOut("user", transcript)];
          }
        }
      case ResponseDone(output) =>
        responseInProgress := false;
        StoreResponse(output);
      case ResponseCreated =>
        responseInProgress := true;
      case ErrorMessage(message) =>
        var errorMsg := message.GetOr(UNKNOWN_ERROR);
        if onError {
          events := events + [ErrorOut(errorMsg)];
        }
      case SpeechStarted =>
        if responseInProgress {
          CancelResponse();
        }
      case SpeechStopped =>
      case Unhandled(_) =>
    }

    /** `listen`: handles the messages in order until the stream ends, and
        reports an error that ends it through `on_error` (see `AfterListen`). */
    method Listen(msgs: seq<ServerMessage>, end: StreamEnd)
      modifies this, session`transcript
      ensures State() == AfterListen(old(State()), msgs, end)
    {
      if !hasSocket {
        return;
      }
      var i := 0;
      while i < |msgs|
        invariant 0 <= i <= |msgs|
        invariant hasSocket
        invariant AfterMessages(State(), msgs[i..]) == AfterMessages(old(State()), msgs)
      {
        assert msgs[i..][1..] == msgs[i + 1..];
        HandleMessage(msgs[i]);
        i := i + 1;
      }
      match end
      case ClosedNormally =>
      case ConnectionLost =>
        isConnected := false;
      case Failed(reason) =>
        if onError {
          events := events + [ErrorOut(reason)];
        }
    }

    /** `disconnect`. */
    method Disconnect()
      modifies this
      ensures State() == AfterDisconnect(old(State()))
    {
      if hasSocket {
        isConnected := false;
      }
    }

    /** `get_transcript`: the session's own list. */
    function GetTranscript(): (r: seq<Entry>)
      reads this, session
      ensures r == State().transcript
    {
      session.transcript
    }
  }

  /** `OpenAIRealtimeClient(session)`: fails with `ValueError` when the API key
      is unset or empty. */
  method NewClient(session: RealtimeSession, apiKey: Option<string>) returns (r: Result<OpenAIRealtimeClient, string>)
    ensures r.Failure? <==> !Truthy(apiKey)
    ensures r.Failure? ==> r.error == MISSING_KEY
    ensures r.Success? ==> fresh(r.value) && r.value.session == session && r.value.apiKey == apiKey.value
    ensures r.Success? ==> r.value.State() == ClientState(false, false, false, [], [], session.transcript, Callbacks(false, false, false))
  {
    if !Truthy(apiKey) {
      return Failure(MISSING_KEY);
    }
    var client := new OpenAIRealtimeClient(session, apiKey.value);
    return Success(client);
  }

  // ---------------------------------------------------------------- the registry

  /** The module-level `_active_sessions`. */
  class ClientRegistry {
    var active: map<string, OpenAIRealtimeClient>

    constructor ()
      ensures active == map[]
    {
      active := map[];
    }

    /** `get_realtime_client`. */
    function Get(sessionId: string): (r: Option<OpenAIRealtimeClient>)
      reads this
      ensures r.Some? <==> sessionId in active
      ensures r.Some? ==> r.value == active[sessionId]
    {
      if sessionId in active then Some(active[sessionId]) else None
    }

    /** `register_realtime_client`: `client` is found under `sessionId`; other ids are unaffected. */
    method Register(sessionId: string, client: OpenAIRealtimeClient)
      modifies this
      ensures active == old(active)[sessionId := client]
      ensures Get(sessionId) == Some(client)
      ensures forall id | id != sessionId :: Get(id) == old(Get(id))
    {
      active := active[sessionId := client];
    }

    /** `remove_realtime_client`: nothing is found under `sessionId` any more;
        other ids are unaffected, and an absent id changes nothing. */
    method Remove(sessionId: string)
      modifies this
      ensures active == old(active) - {sessionId}
      ensures Get(sessionId) == None
      ensures forall id | id != sessionId :: Get(id) == old(Get(id))
      ensures sessionId !in old(active) ==> active == old(active)
    {
      if sessionId in active {
        active := map id | id in active && id != sessionId :: active[id];
      }
    }
  }
}
