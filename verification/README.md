# X-HEC interview coach — a verified model of its core

The X-HEC interview coach helps a candidate rehearse the admission interview
of the X-HEC Entrepreneurs master. A FastAPI back end keeps coaching sessions
in memory. Each session has a transcript, a current theme, a current question
and the list of questions already asked. The handlers move a session through
intro, theme choice, question choice, answers and debrief. A question bank is
loaded from a spreadsheet, with twelve built-in questions as a fallback. Uploaded
CVs (PDF) and question spreadsheets are turned into text and checked for
plausibility. A second, voice-first path talks to a realtime speech service
over a WebSocket. It configures the coach's instructions, streams audio,
interrupts the coach when the candidate starts to speak, and keeps a transcript.

This project models that core in Dafny and proves what it promises:

| file | module | models |
|---|---|---|
| `common.dfy` | `Common` | `None`/exceptions as `Option`/`Result`, `str.join`, `str.strip`, `str.lower`, `in` on strings, the list filters |
| `sheets.dfy` | `Sheets` | a spreadsheet as pandas hands it over; header normalisation and the first-present column search |
| `questions_db.dfy` | `QuestionsDb` | `services/questions_db.py`: loading, the built-in questions, the queries, the shared instance |
| `file_parser.dfy` | `FileParser` | `services/file_parser.py`: PDF page joining, spreadsheet questions and answers, the two validators |
| `session.dfy` | `Sessions` | `services/session.py`: the session record, its question cursor, its text rendering, the manager |
| `openai_realtime.dfy` | `Realtime` | `services/openai_realtime.py`: the realtime session, the instructions, the client, the registry |
| `main.dfy` | `App` | `main.py`: the in-memory sessions and the state logic of the route handlers |

Code that changes state in place is modelled as classes whose methods have
`modifies` clauses. Examples are the sessions and their managers, the question
database and its shared slot, the realtime client and the client registry. Each
such method is proved against a specification function, or states its whole
new state. Code that only computes is modelled as functions, with lemmas that
prove what they promise.

Outside effects become parameters:

- The realtime client's WebSocket is the log `sent` of the frames it wrote.
- Its three callbacks are the log `events` of their calls.
- Inbound frames arrive already decoded.
- The PDF reader's pages and pandas' cells arrive as values.
- The texts the language model and the scraper produce arrive as values.
- So do the clock's time stamps, fresh identifiers (`uuid4`) and random draws.

## Model

| member | source | states |
|---|---|---|
| Common.RemainingSpec | main.py:242 | the questions left are exactly the listed ones outside the excluded list, in the listed order, each as many times as it is listed |
| Common.RemainingNone | main.py:236-242 | with nothing asked, every question is left |
| Common.NonBlankSpec | services/file_parser.py:76 | the filter keeps every occurrence of each non-empty string and no empty one, in order |
| Common.FilterSpec | services/openai_realtime.py:287-291 | a list comprehension with a condition keeps every occurrence of each value that passes and none of the others, in order |
| Common.Strip | services/file_parser.py:76 | `strip()` removes white space only, from both ends, and leaves none at either end |
| Common.Contains | services/file_parser.py:111 | `kw in text` holds exactly when `kw` occurs at some position of `text` |
| Common.JoinSnoc | services/session.py:101 | joining one more part adds the separator and that part at the end |
| Common.NatToStringValue | main.py:270 | the digits `str(n)` writes spell `n` |
| Sheets.NormaliseHeaders | services/questions_db.py:32 | every header is lower-cased and stripped, and none is added or lost |
| Sheets.NormaliseIdempotent | services/questions_db.py:32 | normalising headers twice is normalising them once: lower-casing and stripping leave normalised headers unchanged |
| Sheets.FirstPresent | services/questions_db.py:36-39 | the result is a header, the earliest candidate that is one; `None` exactly when no candidate is a header |
| Sheets.FindColumn | services/file_parser.py:58-61 | the loop with `break` finds the first present candidate |
| Sheets.QuestionColumn | services/file_parser.py:57-65 | the first of `question`/`questions`/`q`, else the first column; none only for a sheet without columns |
| Sheets.ColumnIndex | services/questions_db.py:60 | the position read for a named column is the first column with that name |
| QuestionsDb.DefaultQuestions | services/questions_db.py:78-93 | the fallback bank has twelve questions |
| QuestionsDb.SelectColumns | services/questions_db.py:34-55 | the chosen question, theme and difficulty columns exist and carry listed names; the optional ones are absent exactly when none of their names is a header |
| QuestionsDb.FindColumns | services/questions_db.py:34-55 | the three searches pick the columns `SelectColumns` describes |
| QuestionsDb.RowQuestionsSpec | services/questions_db.py:58-69 | every stored question has text and comes from a row; every row with question text is stored; a question that several rows give is stored as many times; row order is kept |
| QuestionsDb.CollectRows | services/questions_db.py:58-69 | the row loop builds exactly the kept questions |
| QuestionsDb.Texts | services/questions_db.py:97 | the k-th text is the k-th question's text |
| QuestionsDb.OfThemeSpec | services/questions_db.py:99-101 | the listed texts are those of the records whose theme matches up to case, each record as many times as it is stored, in stored order |
| QuestionsDb.QuestionsDatabase.constructor | services/questions_db.py:18-20 | a new database holds what loading gives |
| QuestionsDb.QuestionsDatabase.LoadQuestions | services/questions_db.py:22-76 | the questions are the spreadsheet's kept rows, or the twelve defaults when the file is missing, unreadable or without columns |
| QuestionsDb.QuestionsDatabase.AllQuestions | services/questions_db.py:95-97 | the texts in stored order, one per stored question |
| QuestionsDb.QuestionsDatabase.QuestionsByTheme | services/questions_db.py:99-101 | the texts of exactly the questions of the theme, up to case, each stored occurrence once, in stored order |
| QuestionsDb.QuestionsDatabase.QuestionsCount | services/questions_db.py:111-113 | the number of questions `AllQuestions` lists; zero exactly when it lists none |
| QuestionsDb.QuestionsDatabase.RandomQuestions | services/questions_db.py:103-109 | everything when there are at most `count` questions, else `count` of them from distinct positions |
| QuestionsDb.DatabaseSlot.GetQuestionsDb | services/questions_db.py:117-125 | the first call creates and keeps a loaded database; later calls return the same one |
| QuestionsDb.DatabaseSlot.InterviewQuestions | services/questions_db.py:128-131 | a sample of the shared database, as `RandomQuestions` promises |
| QuestionsDb.DatabaseSlot.AllQuestions | services/questions_db.py:134-137 | all questions of the shared database |
| FileParser.FirstFailureSpec | services/file_parser.py:24-25 | the reported failure is the first page that failed, and there is one exactly when some page fails |
| FileParser.PdfFailures | services/file_parser.py:19-31 | parsing fails exactly when the document or a page is unreadable, with the prefixed message |
| FileParser.PdfParts | services/file_parser.py:23-29 | the joined parts are exactly the non-empty page texts, in page order, a text as many times as pages carry it |
| FileParser.CollectPages | services/file_parser.py:23-28 | the page loop stops at the first failure, or collects the non-empty texts |
| FileParser.ParsePdf | services/file_parser.py:9-31 | the method returns what `PdfText` specifies |
| FileParser.AnswerMapDomain | services/file_parser.py:79-85 | the map holds exactly the questions of rows with both texts, each with a non-empty answer |
| FileParser.AnswerMapLastWins | services/file_parser.py:81-85 | a question answered by several rows keeps the last answer |
| FileParser.FillAnswers | services/file_parser.py:79-85 | the answer loop builds exactly that map |
| FileParser.ExcelFailures | services/file_parser.py:49-90 | parsing fails exactly for an unreadable sheet or one without columns, with the prefixed message |
| FileParser.ColumnQuestions | services/file_parser.py:75-76 | the questions are the stripped cells of the column that are not blank: every one is kept, as many times as rows carry it, in row order, each without outer white space |
| FileParser.ExcelAnswers | services/file_parser.py:67-85 | no answer column gives no answers; otherwise only non-empty questions map to non-empty answers |
| FileParser.ParseExcelQuestions | services/file_parser.py:34-90 | the method returns what `ExcelQuestions` specifies |
| FileParser.AnyKeyword | services/file_parser.py:111 | true exactly when one of the keywords occurs in the text |
| FileParser.ValidateCv | services/file_parser.py:93-111 | false below 100 stripped characters; otherwise true exactly when a keyword occurs in the lower-cased text |
| FileParser.MarkedCountIsPositions | services/file_parser.py:128 | the count is the number of questions containing `?` |
| FileParser.ValidateQuestions | services/file_parser.py:114-129 | true exactly when there are at least three questions and at least half contain `?` |
| Sessions.SuccessiveInOrder | services/session.py:62-68 | successive calls yield the remaining questions in order, then `None`, and the cursor stops at the end |
| Sessions.ExchangeLinesAt | services/session.py:89-95 | the k-th exchange appears at its place as header `--- Question n+k ---`, Q line, R line, a feedback line exactly when the feedback is non-empty, and a blank line |
| Sessions.AppendBlock | services/session.py:90-95 | one loop turn appends that exchange's block |
| Sessions.HeadOf | services/session.py:79-87 | the lines before the exchanges |
| Sessions.AppendExchanges | services/session.py:89-95 | the loop appends the blocks of all exchanges, numbered from 1 |
| Sessions.Session.constructor | services/session.py:26-45 | a new session starts at question 0, with no exchanges, active, and its exchanges and records in step |
| Sessions.Session.AddExchange | services/session.py:47-60 | one exchange and its matching record are appended; exchanges and records stay in step |
| Sessions.Session.GetNextQuestion | services/session.py:62-68 | the question under the cursor, which advances; `None` at the end |
| Sessions.Session.GetRandomQuestion | services/session.py:70-75 | `None` exactly for an empty list, otherwise one of its questions |
| Sessions.Session.GetTranscriptText | services/session.py:77-101 | the rendered lines joined by newlines |
| Sessions.SessionManager.constructor | services/session.py:107-108 | no sessions |
| Sessions.SessionManager.CreateSession | services/session.py:110-128 | a new session is filed under its own id, and every session stays filed under its own id |
| Sessions.SessionManager.GetSession | services/session.py:130-132 | found exactly for a filed id, and the session found has that id |
| Sessions.SessionManager.EndSession | services/session.py:134-137 | only the `is_active` field of that session changes, to false; it stays filed and no other session changes |
| Sessions.SessionManager.DeleteSession | services/session.py:139-142 | only that id disappears |
| Realtime.RealtimeSession.constructor | services/openai_realtime.py:24-40 | a new session starts with an empty transcript and no progress |
| Realtime.RealtimeSession.AddToTranscript | services/openai_realtime.py:42-43 | one entry appended at the end |
| Realtime.Truncate | services/openai_realtime.py:93-96 | `s[:n]` is the prefix of length `min(n, len(s))` |
| Realtime.Bullets | services/openai_realtime.py:50 | one `- q` line per question, in order |
| Realtime.SystemInstructions | services/openai_realtime.py:46-107 | the instructions open with the fixed introduction and end with the closing guidance |
| Realtime.InstructionsTruncated | services/openai_realtime.py:92-96 | the instructions depend only on the first 2000 characters of the programme context and the first 3000 of the candidate's file |
| Realtime.TruncatedTextsPlaced | services/openai_realtime.py:90-96 | the truncated programme context sits right after the introduction, the mode section and the context heading, and the truncated file right after the dossier heading that follows it |
| Realtime.SectionsDiffer | services/openai_realtime.py:53-66 | the two mode sections differ |
| Realtime.ModeSectionPlacement | services/openai_realtime.py:52-90 | right after the introduction come the question-by-question instructions exactly for that mode, and the simulation ones otherwise |
| Realtime.Configuration | services/openai_realtime.py:157-180 | the `session.update` configuration carries the given instructions, text and audio, the `alloy` voice, 16-bit PCM both ways, `whisper-1` transcription and server turn detection at 0.5, 300 ms, 500 ms |
| Realtime.SendsInertWhenDisconnected | services/openai_realtime.py:182-216 | without a live connection no send operation changes anything |
| Realtime.SendsWhenConnected | services/openai_realtime.py:182-231 | connected, each send appends its frames in order; cancelling also clears the response flag |
| Realtime.ResponseFlag | services/openai_realtime.py:280-294 | `response.created` raises the flag and `response.done` lowers it |
| Realtime.SpeechStartedInterrupts | services/openai_realtime.py:303-306 | speech during a response sends one `response.cancel` and clears the flag; otherwise nothing changes |
| Realtime.MessageAppends | services/openai_realtime.py:249-310 | a message only appends to the transcript: one user entry per completed transcription, the assistant entries of `response.done`, nothing for deltas |
| Realtime.PartEntriesSpec | services/openai_realtime.py:287-291 | the stored entries are, in order, one assistant entry per audio part with a transcript and nothing else |
| Realtime.DoneEntriesSpec | services/openai_realtime.py:280-291 | `response.done` stores, in order, one assistant entry per audio part with a transcript of every `message` item, and nothing else |
| Realtime.MessagesAppend | services/openai_realtime.py:239-240 | handling a stream appends the messages' entries in arrival order and sends only `response.cancel` |
| Realtime.ListenSpec | services/openai_realtime.py:233-247 | `listen` keeps the transcript in arrival order, sends only cancels, disconnects only on a lost connection, and reports a failing stream through `on_error` |
| Realtime.ListenErrorUnreported | services/openai_realtime.py:244-247 | as written, a failing stream is never reported although `on_error` is set |
| Realtime.OpenAIRealtimeClient.constructor | services/openai_realtime.py:116-131 | a new client has no socket, is not connected, has no response in progress and no callbacks |
| Realtime.OpenAIRealtimeClient.Connect | services/openai_realtime.py:133-180 | on success the client is connected and has sent one `session.update` with the session's instructions; on failure it re-raises and nothing changes |
| Realtime.OpenAIRealtimeClient.SendAudio | services/openai_realtime.py:182-195 | the step `AfterSendAudio` |
| Realtime.OpenAIRealtimeClient.CommitAudio | services/openai_realtime.py:197-203 | the step `AfterCommitAudio` |
| Realtime.OpenAIRealtimeClient.CancelResponse | services/openai_realtime.py:205-212 | the step `AfterCancelResponse` |
| Realtime.OpenAIRealtimeClient.SendText | services/openai_realtime.py:214-231 | the step `AfterSendText` |
| Realtime.OpenAIRealtimeClient.StoreResponse | services/openai_realtime.py:285-291 | the nested loops append exactly `DoneEntries` |
| Realtime.OpenAIRealtimeClient.HandleMessage | services/openai_realtime.py:249-310 | the step `AfterMessage` |
| Realtime.OpenAIRealtimeClient.Listen | services/openai_realtime.py:233-247 | the step `AfterListen` |
| Realtime.OpenAIRealtimeClient.Disconnect | services/openai_realtime.py:312-317 | a client with a socket is no longer connected; without one nothing changes |
| Realtime.OpenAIRealtimeClient.GetTranscript | services/openai_realtime.py:319-321 | the session's transcript |
| Realtime.NewClient | services/openai_realtime.py:116-122 | fails exactly when the API key is unset or empty, with its message |
| Realtime.ClientRegistry.constructor | services/openai_realtime.py:325 | no clients |
| Realtime.ClientRegistry.Get | services/openai_realtime.py:328-330 | found exactly for a registered id |
| Realtime.ClientRegistry.Register | services/openai_realtime.py:333-335 | the client is found under its id; other ids are unaffected |
| Realtime.ClientRegistry.Remove | services/openai_realtime.py:338-341 | nothing is found under the id any more; other ids are unaffected |
| App.Session.constructor | main.py:58-72 | a new session has an empty transcript, no theme, no question, nothing asked, not started |
| App.Session.Ask | main.py:313-314 | the question becomes current and is appended to the asked list, which stays free of repeats |
| App.Session.StartTheme | main.py:264-272 | the theme becomes current; the questions left are exactly the theme's not yet asked, each as often as listed, in order; the announcement with their number is stored |
| App.Session.MoveOn | main.py:383-397 | the first question of the pool not yet asked becomes current and is asked; with none left nothing changes |
| App.Session.ChooseQuestion | main.py:295-324 | exhausted when no question is left; a named question not left is refused; otherwise a question left is always asked: the named one, else a drawn one, with the coach's words stored |
| App.Speaker | main.py:477 | `Coach` exactly for the assistant's entries |
| App.ThemeAnnouncement | main.py:270 | the announcement names the theme, then its digits spell the number of questions left, then the closing question |
| App.LineSpeaker | main.py:477-478 | a block starts with `Coach: ` exactly for the assistant, else `Vous: `, and ends with the content |
| App.RenderAppend | main.py:475-482 | each entry adds its block at the end, after a blank line unless it is the first |
| App.Server.constructor | main.py:74 | no sessions |
| App.Server.Lookup | main.py:187 | found exactly for a stored id |
| App.Server.CreateSession | main.py:162-181 | an unknown mode is refused with 400; otherwise a fresh empty session is stored under the new id |
| App.Server.GetSessionIntro | main.py:184-206 | 404 for an unknown id; otherwise the intro is stored and the session started; no other field can change |
| App.Server.GetThemeQuestions | main.py:226-250 | 404 for a theme without questions; otherwise exactly the `Remaining` of its questions after those asked in the session, in order, with both counts |
| App.Server.SelectTheme | main.py:253-281 | 404, then 400 for an unknown theme; otherwise the theme becomes current, exactly the `Remaining` of its questions are listed, and the announcement with their number is stored; only the current theme and the transcript can change |
| App.Server.SelectQuestion | main.py:284-333 | 404; 400 without a theme; an exhausted theme changes nothing; 400 for an unavailable choice; a valid choice always succeeds and asks an available, never-asked question; only the current question, the asked list and the transcript can change |
| App.Server.RespondToSession | main.py:352-416 | the answer is stored first; then feedback in question-by-question mode, or the first question left is asked, or the session ends when none is left; only the current question, the asked list and the transcript can change |
| App.Server.CheckDebrief | main.py:435-446 | 404, then 400 below two transcript entries; otherwise the transcript goes to the debrief |
| App.Server.GetSessionTranscript | main.py:467-484 | the rendered transcript and the raw entries |

## Findings

| source | as written | input that shows it | evidently intended | confidence | as-written member | corrected member |
|---|---|---|---|---|---|---|
| services/openai_realtime.py:244-247 | on an exception other than a lost connection, `listen` calls `self.on_error(str(e))` without `await`; `on_error` is awaited at line 301, so it is a coroutine function and this call never runs | a client with `on_error` set whose stream raises anything but `ConnectionClosed`, such as a frame that is not JSON | the error is reported through `on_error` | high (not executed) | Realtime.AfterListenAsWritten, Realtime.ListenErrorUnreported | Realtime.AfterListen, Realtime.ListenSpec |

The rest of the model uses the corrected `AfterListen`.

## Left out

- I/O is not modelled: HTTP routing, uploads, static files, the startup hook, the admin and health routes of `main.py`, and the PDF and spreadsheet readers. Their results are parameters.
- The WebSocket is not modelled: opening it, pings, close frames, JSON and base64 encoding and decoding, and an exception raised by a send on a socket the peer closed.
- Speech synthesis, transcription, debrief generation and question wording are language-model calls. Their texts are parameters, and the debrief's spoken summary is not modelled.
- The scraper behind `get_master_context_text` is not part of this model; its text is a parameter of `SystemInstructions`.
- Python's `uuid4`, `random.choice`, `random.sample` and `datetime.now()` are not modelled. Fresh ids, the pick index and the time stamp text are parameters.
- Realtime.AfterMessage: an audio delta that is not valid base64 makes `b64decode` raise, which ends `listen`. The model assumes every delta decodes.
- Realtime.AfterMessage: an exception raised inside a callback is not modelled.
- Realtime.OpenAIRealtimeClient.Connect: a failure of the configuration send after the socket opens is not modelled; only the socket's opening can fail.
- Realtime.ServerMessage: an `error` frame whose `message` is JSON `null` yields `None` in the source. The model reads a missing or null message as absent and reports "Unknown error".
- Common.Lower covers ASCII and the upper-case Latin-1 letters only. Python's full Unicode case mapping is not modelled.
- Sheets.NormaliseHeaders: headers are taken as strings. Duplicate normalised header names make pandas return a frame instead of a column; the model reads the first such column.
- Sessions.Session.GetTranscriptText: `created_at` arrives already formatted with `%Y-%m-%d %H:%M`.
- App.Server.SelectTheme: the theme list comes from `get_themes`, which `services/questions_db.py` does not define. It is a parameter. `has_themes`, `get_themes_with_counts` and `categorize_with_ai` are not part of this model.
- App.Server.CheckDebrief covers the checks before `generate_debrief`. The debrief itself and its spoken summary are language-model output and are left out.
- App.Server.SelectQuestion: a failure of the question wording or of speech synthesis after the question is marked asked is not modelled. In the source that failure leaves the question asked with no coach words in the transcript; the model's texts are parameters, so the call always completes.
- App.Server.RespondToSession: a failure of feedback generation or speech synthesis after the user's answer is stored is not modelled. In the source the answer stays in the transcript with no reply.
- RandomQuestions: a negative `count`, for which `random.sample` raises `ValueError`, is excluded by its `nat` type. The default `count=10` is not modelled; callers pass the count.
- The asynchronous interleaving of handlers and of `listen` with the send methods is not modelled. Each operation runs to completion.
- The assistant's transcript is stored only from `response.done`; transcript deltas go to the callback alone. Descriptions that say the transcript accumulates deltas disagree with the code, and the model follows the code.
