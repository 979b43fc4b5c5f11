# TalentScout screening conversation, modelled in Dafny

TalentScout's screening assistant walks a candidate through a fixed sequence of steps:

- greeting → name → email → phone → experience → position → location → tech_stack → questions → summary → ended.

On the way it collects a profile, generates up to four technical interview questions and records the answers. The same engine exists twice:

- the FastAPI back end (`backend/server.py`), where `send_message` takes one turn of a stored session;
- the Streamlit script (`streamlit_app.py`), where `process_user_input` takes one turn of `st.session_state`.

The model has one module per concern:

| module | what it holds |
|---|---|
| `Wrappers` | `Option` |
| `Text` | Python's `str` primitives over ASCII: `lower`, `strip`, `in`, `split(',')`, `split()`, `\d` runs, `int()` |
| `Validators` | email regex, phone digit count, experience parsing, and the position/technology list filters; both front ends share them |
| `Conversation` | the `Step` order and the candidate `Profile` |
| `ServerQuestions` | the back end's question generator: the numbered-list parser, the canned question bank and its padding to four |
| `ServerEngine` | the back end's turn. A pure specification `ServerTurn` over a `State` value, and a class `Session` whose methods mutate the session's fields and are proved equal to that specification. Also `create_session` and the `get_candidates` filter |
| `AppQuestions` | the Streamlit answer check, keyword sentiment, canned bank (with its duplicate key) and the per-technology generator |
| `AppEngine` | the Streamlit turn. A pure specification `AppTurn`, and a class `AppSession` whose methods (`add_message`, `handle_greeting`, `process_user_input`, `show_summary`) are proved equal to it. Also `get_progress` |

## How the pieces fit

Each turn method is proved equal to the pure turn function. The properties of the conversation are proved as lemmas about that function, and each class method also preserves the session invariant.

The language-model calls are inputs, not computations:

- `SendMessage` takes `reply: Option<string>`, the answer of the one batched call. `None` stands for a missing key or a raised exception.
- `ProcessUserInput` takes two inputs:
  - `configured`: whether the API key is set and the model could be set up;
  - `replies`: one `Option<string>` per technology call.

A bot message is a `Content` constructor carrying the values its template interpolates, not the literal text.

Behaviour the model reproduces on purpose, because the code does it:

- **Exit check.** It is a plain substring test that runs first. "end" is a keyword, so the position "Frontend Developer" ends a back-end session (`FrontendDeveloperExits`).
- **Back end, exit branch.** The closing message is written to the transcript twice: once in the exit branch and once more when the bot messages are appended.
- **Back end, entering `questions`.** The turn that enters `questions` says nothing.
- **Back end, turn after that.** The next turn only triggers generation; its text is not recorded as an answer.
- **Back end, experience.** The experience step never fails and defaults to 0, as long as the first digit run fits Python's `int()` limit of 4300 digits.
- **Streamlit, experience.** The experience step re-prompts when the line has no digits.
- **Streamlit, fallback question.** When one technology's call fails, its fallback question carries the number 1 whatever its position.
- **Streamlit, duplicate `"Python"` key.** The bank has two `"Python"` entries, and the later one wins.
- **Streamlit, name reply.** The "nice to meet you" reply shows the unstripped line.
- **Email validator.** `$` in the email pattern also matches before a final newline, so `ValidEmail` on its own accepts `"a@b.cd\n"`. Neither turn can pass it such a string: both strip the message before validating it (backend/server.py:397, streamlit_app.py:554).

Python, JavaScript and React are all in the back end's bank, so when generation fails for that stack the fallback gives three canned questions, one per technology, and the fourth generic question. `FallbackForPythonJavaScriptReact` states this.

## Model

| member | source | states |
|---|---|---|
| Text.Lower | backend/server.py:120 | lowercasing keeps the length and maps each ASCII capital to its small letter, position by position |
| Text.Strip | backend/server.py:397 | the stripped message has no whitespace at either end, is no longer than the input, and is empty exactly when the input is all whitespace |
| Text.StripFramed | backend/server.py:397 | stripping removes only whitespace, and only from the two ends: the result is a contiguous slice of the input framed by whitespace |
| Text.StripIdempotent | backend/server.py:120 | stripping the already stripped message again changes nothing |
| Text.ContainsSpec | backend/server.py:121 | the substring test `k in s` holds exactly when `k` occurs at some position of `s` |
| Text.ContainsAny | backend/server.py:121 | `any(k in s for k in keywords)` holds exactly when some keyword of the list is a substring |
| Text.ContainsAnyOccurs | backend/server.py:121 | `any(k in s for k in keywords)` holds exactly when some keyword occurs at some position of `s` |
| Text.JoinSplit | backend/server.py:465 | joining the pieces of `split(',')` with the separator gives back the message, so splitting loses no character |
| Text.SplitJoin | backend/server.py:254 | splitting a newline-join of newline-free lines gives back exactly those lines |
| Text.Words | streamlit_app.py:329 | every word of `split()` is non-empty and holds no whitespace |
| Text.WordsEmpty | streamlit_app.py:329 | `split()` gives no word exactly when the text is all whitespace |
| Text.WordsCons | streamlit_app.py:329 | a non-empty run without whitespace, followed by a whitespace character, is the first word, and the other words are those of the rest |
| Text.Digits | backend/server.py:130 | `re.sub(r'\D', '', s)` leaves only digits and no more characters than the input had; an all-digit string is kept whole and a string without digits gives the empty string |
| Text.DigitsAppend | backend/server.py:130 | the digits of a concatenation are the digits of each part, in order |
| Text.DigitsCount | backend/server.py:130 | the digits kept are exactly as many as the positions of the input that hold a digit |
| Text.DecimalRoundTrip | backend/server.py:458 | `int(str(n)) == n` for every natural number (Python itself refuses more than 4300 digits) |
| Text.FirstNumber | backend/server.py:456-460 | `re.findall(r'\d+')[0]` as a number: none exactly when there is no digit, otherwise the value of the maximal digit run that starts at the first digit |
| Validators.ValidEmail | backend/server.py:123-126 | `validate_email` accepts exactly the strings matching `^[a-zA-Z0-9._%+-]+@[a-zA-Z0-9.-]+\.[a-zA-Z]{2,}$` under `re.match`, including the trailing-newline case of `$` |
| Validators.ValidPhone | backend/server.py:128-131 | `validate_phone` holds exactly when at least ten positions of the text hold a digit, wherever they stand |
| Validators.PhoneIgnoresSeparators | backend/server.py:128-131 | the phone check counts digits only: removing any non-digit character never changes the verdict |
| Validators.ParseYears | backend/server.py:449-458 | an exact bucket label gives its value (0/2/4/7/12), any other text gives its first number, and there is no value exactly when the text has no digit |
| Validators.StripAll | backend/server.py:465 | the list comprehension strips every comma-separated part and keeps their number and order |
| Validators.StripAllMembers | backend/server.py:465 | an item is among the stripped parts exactly when some part strips to it |
| Validators.FilterChoices | backend/server.py:466 | an item is kept exactly when it is an option or longer than the threshold, and nothing else enters the list |
| Validators.FilterAppend | backend/server.py:466 | the filter keeps the input order: it distributes over concatenation |
| Validators.ParseChoices | backend/server.py:463-466 | an item is stored exactly when it passes the filter and is the stripped form of some comma-separated part, so every stored item has no surrounding whitespace |
| Validators.PositionOptionsAreLong | backend/server.py:466 | every listed position has more than 2 characters, so a position is kept exactly when it is longer than 2 |
| Validators.TechOptionsAreLong | backend/server.py:492 | every listed technology has more than 1 character, so a technology is kept exactly when it is longer than 1 |
| Conversation.StepIndex | streamlit_app.py:499-500 | each step has a distinct position in the fixed order of the 11 steps |
| Conversation.NextStep | streamlit_app.py:499-500 | the step after a step is the one whose position is one greater; `ended` is terminal |
| ServerQuestions.MarkerPrefix | backend/server.py:263 | the list marker removed is the longest prefix of digits, dots, dashes, parentheses and asterisks |
| ServerQuestions.ParseQuestions | backend/server.py:253-271 | the parsing loop over the stripped lines computes exactly the questions the recursive definition of the parser gives |
| ServerQuestions.ParseResponse | backend/server.py:253-271 | every question parsed out of the reply is non-empty and has no whitespace at either end |
| ServerQuestions.PreambleDropped | backend/server.py:257-265 | lines before the first line opening with a digit or a dash are dropped and cannot reach any question |
| ServerQuestions.NumberedLinesParse | backend/server.py:257-268 | lines `n. q` of one-line questions parse, after whatever question was pending, into exactly those questions in order |
| ServerQuestions.NumberedListRoundTrip | backend/server.py:253-271 | parsing a numbered list `1. q1 … n. qn` of one-line questions gives back exactly `q1 … qn` |
| ServerQuestions.ContinuationJoins | backend/server.py:258-266 | a non-empty line that opens no list item, met while a question is pending, is appended to that question after one space |
| ServerQuestions.ContinuationLines | backend/server.py:257-266 | a run of such continuation lines extends the pending question line by line and changes nothing else |
| ServerQuestions.ContinuedJoin | backend/server.py:266 | the extended question is the opening text and the continuation lines joined with single spaces |
| ServerQuestions.EntryParse | backend/server.py:257-266 | an item `n. q` followed by continuation lines stores what was pending and leaves `q` pending with its continuations appended |
| ServerQuestions.MultiLinesParse | backend/server.py:257-271 | a numbered list whose items span several lines parses, after whatever was pending, into each item's lines joined by spaces, in order |
| ServerQuestions.MultiLineRoundTrip | backend/server.py:253-271 | parsing a numbered list whose items span several lines gives back each item as its lines joined by single spaces |
| ServerQuestions.BankHit | backend/server.py:318-320 | a technology in the bank contributes its first canned question, tagged with it, and any other technology contributes nothing |
| ServerQuestions.BankHits | backend/server.py:318-320 | the hits are canned questions, no more than there are technologies |
| ServerQuestions.BankHitsAppend | backend/server.py:317-319 | the canned hits of a concatenated stack are the hits of the first part followed by those of the second |
| ServerQuestions.Fallback | backend/server.py:280-333 | exactly 4 unanswered questions: the hits among the first 4 technologies in input order, then the generic questions from index "number of hits" on |
| ServerQuestions.FallbackQuestions | backend/server.py:317-333 | the two appending loops and the final slice build exactly the fallback list |
| ServerQuestions.CannedQuestions | backend/server.py:317-319 | the first loop appends exactly the bank hits of the first four technologies, in order |
| ServerQuestions.PadQuestions | backend/server.py:322-330 | the padding loop appends the generic questions from the index the hits end at, up to 4 questions |
| ServerQuestions.FallbackForPythonJavaScriptReact | backend/server.py:318-333 | for Python, JavaScript and React the fallback has three canned questions in that order and the fourth generic question |
| ServerQuestions.Generate | backend/server.py:219-278 | the generator always returns 3 or 4 questions, whether the call fails, parses too few or succeeds |
| ServerQuestions.GenerateSpec | backend/server.py:219-278 | unanswered, non-empty questions. The fallback when the call fails or fewer than 3 questions parse, otherwise the first 4 parsed questions tagged with the technology label |
| ServerQuestions.FirstFour | backend/server.py:273 | `questions[:4]` keeps at most 4 parsed questions, each the parsed text at its position, tagged with the label |
| ServerQuestions.GenerateQuestions | backend/server.py:219-278 | the generator as run returns what `Generate` specifies for the same model reply |
| ServerEngine.StepPrompt | backend/server.py:141-217 | at most one bot prompt per step, none for `greeting` and `questions`, the summary of the profile for `summary`, the closing message for `ended` |
| ServerEngine.ServerTurn | backend/server.py:380-562 | the turn specification over the session value; it carries no contract of its own: `StepsInOrder`, `ExitPrecedence`, `ProfileStep`, `AnswerRecorded` and `InvPreserved` state its properties, and `Session.SendMessage` is proved equal to it |
| ServerEngine.ExitIntent | backend/server.py:118-121 | a message is an exit exactly when one of the keywords occurs at some position of the lowercased, stripped message |
| ServerEngine.EndInsideWordExits | backend/server.py:118-121 | a message containing "end" anywhere, even inside a word, is an exit |
| ServerEngine.FrontendDeveloperExits | backend/server.py:406-410 | the position "Frontend Developer" is an exit |
| ServerEngine.RecordAnswer | backend/server.py:507-509 | writing an answer sets that entry's answer and leaves every other entry as it was |
| ServerEngine.PrefixCount | backend/server.py:507 | when the first k entries are answered and the rest are not, the answered count is k |
| ServerEngine.RecordAnswerPrefix | backend/server.py:507-509 | answering the first unanswered entry extends the answered prefix by one |
| ServerEngine.GeneratedUnanswered | backend/server.py:512-514 | the generated list is non-empty and nothing in it is answered |
| ServerEngine.CreatedInv | backend/server.py:342-347 | the new session satisfies the session invariant |
| ServerEngine.StepIgnoresGenerated | backend/server.py:416-549 | only the `questions` branch looks at generated questions |
| ServerEngine.TurnIgnoresGenerated | backend/server.py:512-514 | generated questions change a turn only when it is the first non-exit turn at `questions` with no questions yet |
| ServerEngine.ExitPrecedence | backend/server.py:406-410 | an exit message ends the session at any step. The closing message is the only reply and is written twice. Profile and questions are unchanged |
| ServerEngine.ProfileStep | backend/server.py:416-502 | a profile step either accepts, storing its own field, changing no other field and moving to the next step, or rejects, changing neither step nor profile and replying with exactly one message; questions untouched |
| ServerEngine.ExperienceNeverFails | backend/server.py:449-461 | experience always moves to `position`, storing the bucket value, else the first number, else 0 (no 4300-digit `int()` limit) |
| ServerEngine.QuestionsEnteredSilently | backend/server.py:552-556 | accepting the tech stack enters `questions` with no bot message |
| ServerEngine.FirstQuestionTurnConsumed | backend/server.py:504-530 | the first turn at `questions` stores the generated questions, records no answer, and sends the intro and question 1 |
| ServerEngine.AnswerRecorded | backend/server.py:504-559 | a later turn answers the first unanswered question only and never overwrites another. The answered count rises by one. Next the following question is asked, or, after the last, the step is `summary` with the summary prompt |
| ServerEngine.SummaryEnds | backend/server.py:548-549 | a non-exit message at `summary` ends the session with the closing prompt |
| ServerEngine.StepsInOrder | backend/server.py:397-562 | a turn stays, advances one step or ends, never goes back; the transcript only grows, starting with the user's message |
| ServerEngine.OffQuestionsTurn | backend/server.py:416-502 | away from `questions` a turn leaves the question list alone and enters `questions` only from the tech stack step |
| ServerEngine.InvPreserved | backend/server.py:504-559 | every turn keeps the invariant: answers fill the questions from the front, none exist before `questions`, and at `questions` one is still open |
| ServerEngine.Session.constructor | backend/server.py:342-347 | a new session holds the greeting, is at `name` and has an empty profile |
| ServerEngine.Session.SendMessage | backend/server.py:380-562 | the session's new fields and the returned bot messages are those of the turn specification for the stripped message, and the invariant is kept |
| ServerEngine.Session.Advance | backend/server.py:397-562 | the in-place update of transcript, step and profile equals the turn specification, and keeps the invariant |
| ServerEngine.Session.Respond | backend/server.py:416-559 | a non-exit turn updates profile, step and questions in place as the step specification does; the next step's prompt follows a step change unless `questions` already replied |
| ServerEngine.Session.Dispatch | backend/server.py:416-502 | the profile branches update the profile in place and choose the next step and reply as the specification does |
| ServerEngine.Session.AnswerOrAsk | backend/server.py:504-546 | the `questions` branch updates the question list in place as the specification does |
| ServerEngine.Completed | backend/server.py:588 | exactly the sessions at `summary` or `ended` are kept |
| ServerEngine.Named | backend/server.py:592 | exactly the profiles with a non-empty name are kept |
| ServerEngine.Candidates | backend/server.py:585-592 | at most 100 candidates, each with a name and each the profile of a session that reached `summary` or `ended`; every named profile among the first 100 finished sessions is listed, so with at most 100 finished sessions every named, finished session is |
| AppQuestions.ValidateAnswer | streamlit_app.py:315-333 | an answer is too short exactly when its stripped length is under 10; an accepted one has at least 10 characters and 3 words |
| AppQuestions.Judge | streamlit_app.py:319-333 | on the stripped answer, the too-short verdict exactly when it is under 10 characters, and the placeholder verdict exactly for "i don't know" in any case, since every other placeholder is shorter |
| AppQuestions.AcceptedExactly | streamlit_app.py:315-333 | an answer is accepted exactly when, stripped, it has at least 10 characters, is not a placeholder and has at least 3 words |
| AppQuestions.OnlyIDontKnowIsNonAnswer | streamlit_app.py:324-326 | the placeholder check refuses exactly "i don't know" in any case; the other placeholders are caught earlier by the length check |
| AppQuestions.ValidateIgnoresPadding | streamlit_app.py:317 | surrounding whitespace never changes the verdict |
| AppQuestions.CountContained | streamlit_app.py:305-306 | the count is the number of keyword positions whose keyword occurs in the text, so it is at most the number of keywords and zero exactly when no keyword occurs |
| AppQuestions.AnalyzeSentiment | streamlit_app.py:299-313 | positive exactly when more positive than negative keywords occur in the lowercased text, negative exactly when fewer; so keywords of one kind only decide for that kind, and a text with neither is neutral |
| AppQuestions.SentimentIgnoresCase | streamlit_app.py:304 | the sentiment does not depend on letter case |
| AppQuestions.PythonUsesLaterEntry | streamlit_app.py:422-425 | "Python" resolves to the list-comprehension question of the later entry of the bank |
| AppQuestions.Hits | streamlit_app.py:444-451 | the first loop's hits are canned questions about technologies of the stack, numbered 1, 2, … by position, no more than there are technologies |
| AppQuestions.HitsAppend | streamlit_app.py:444-451 | apart from their numbers, the hits of a concatenated stack are those of the first part followed by those of the second, so they follow the stack's order |
| AppQuestions.Pad | streamlit_app.py:461-467 | padding keeps what is there and appends generic question `k mod 4` numbered `k+1` until there are 4 |
| AppQuestions.FallbackIsPadded | streamlit_app.py:469 | the final `[:4]` cuts nothing: the padded list already has exactly 4 entries |
| AppQuestions.FallbackShape | streamlit_app.py:403-469 | exactly 4 questions numbered 1..4. First the canned question of each banked technology among the first four, in order, then generic questions |
| AppQuestions.PadShape | streamlit_app.py:461-467 | padding numbered hits keeps them and their numbering, and the generic question in slot `i` is generic text `i` about "General" |
| AppQuestions.FallbackOfOne | streamlit_app.py:388-390 | the fallback for one technology starts with its canned question, or the first generic one, numbered 1 either way; this is the question the loop uses for a failed call |
| AppQuestions.FallbackQuestions | streamlit_app.py:403-469 | the two appending loops and the final slice build exactly the fallback list |
| AppQuestions.CannedQuestions | streamlit_app.py:444-451 | the first loop appends exactly the hits of the first four technologies, numbered in order |
| AppQuestions.PadQuestions | streamlit_app.py:461-467 | the padding loop builds exactly the padded list |
| AppQuestions.QuestionPrefix | streamlit_app.py:381 | the clean-up removes a prefix exactly when the text starts with Q and a digit or with "question" in any case, and never stops inside whitespace |
| AppQuestions.CleanQuestion | streamlit_app.py:381 | the cleaned question is a suffix of the reply. It is the reply itself when there is no label, and is shorter with no leading whitespace when a label is removed |
| AppQuestions.QLabelRemoved | streamlit_app.py:381 | a `Q<n>: ` label is removed whole, leaving exactly the question when it does not start with whitespace |
| AppQuestions.QuestionLabelRemoved | streamlit_app.py:381 | a `Question <n>. ` label is removed whole, leaving exactly the question when it does not start with whitespace |
| AppQuestions.Asked | streamlit_app.py:353-392 | the loop asks exactly one question per technology it visits |
| AppQuestions.AskedAt | streamlit_app.py:353-392 | the question at position `i` is the turn for the `i`-th technology |
| AppQuestions.PerTech | streamlit_app.py:353-392 | the loop yields one question per technology among the first four |
| AppQuestions.PerTechQuestions | streamlit_app.py:350-392 | the per-technology loop as run builds exactly the specified questions |
| AppQuestions.GenerateCount | streamlit_app.py:342-397 | one question per technology among the first four whatever the calls return, so the generator always returns 3 or 4 questions, falling back only for fewer than 3 technologies |
| AppQuestions.PerTechEntry | streamlit_app.py:378-390 | a succeeding call gives the cleaned reply numbered by position; a failing one gives the technology's fallback question, numbered 1 |
| AppQuestions.AskAbout | streamlit_app.py:365-390 | one loop turn as run computes the specified question |
| AppQuestions.GenerateQuestions | streamlit_app.py:336-401 | the generator as run returns what `Generate` specifies for the same setup and replies |
| AppEngine.AppExitIntent | streamlit_app.py:295-297 | a line is an exit exactly when one of the keywords occurs at some position of the lowercased, unstripped line |
| AppEngine.NoThanksExits | streamlit_app.py:295-297 | a line containing "no thanks", in any case, is an exit |
| AppEngine.ThanksAloneStays | streamlit_app.py:295-297 | "thanks" on its own is not an exit here |
| AppEngine.Greet | streamlit_app.py:504-519 | greeting adds the welcome and moves to `name` only when the bot has not spoken; afterwards the bot has spoken |
| AppEngine.GreetOnce | streamlit_app.py:504-519 | greeting a new session asks for the name, and greeting again changes nothing |
| AppEngine.InitialInv | streamlit_app.py:251-282 | the initial state, greeted or not, satisfies the invariant |
| AppEngine.GreetInv | streamlit_app.py:504-519 | greeting keeps the invariant |
| AppEngine.AppExitPrecedence | streamlit_app.py:533-537 | an exit line adds the line and the goodbye, ends the session, and changes nothing else |
| AppEngine.AppProfileStep | streamlit_app.py:541-655 | a profile step either accepts, storing its field from the stripped line or the parsed value, changing no other field and moving on (tech stack: to `questions` exactly when questions came back), or adds the line and one error message and changes nothing else |
| AppEngine.ExperienceTurn | streamlit_app.py:575-593 | experience moves on exactly when a number of years was read, and stores it |
| AppEngine.ExperienceNeedsDigits | streamlit_app.py:575-593 | experience stays exactly when the line has no digit; otherwise it stores the bucket value or the first number (no 4300-digit `int()` limit) |
| AppEngine.TechStackStep | streamlit_app.py:630-655 | an accepted stack is stored with the generated questions and index 0, the step becomes `questions` exactly when questions came back; an empty stack adds the line and the error and changes nothing else |
| AppEngine.InvalidAnswerKeepsState | streamlit_app.py:659-664 | an invalid answer leaves index, answers and step unchanged and re-asks the current question |
| AppEngine.ValidAnswerAdvances | streamlit_app.py:666-686 | a valid answer appends exactly one entry for the question asked and advances the index by one. The step becomes `summary` exactly when the index reaches the question count, and the summary reports every answer |
| AppEngine.AppSummaryEnds | streamlit_app.py:687-690 | any non-exit line at `summary` ends the session |
| AppEngine.IdleSteps | streamlit_app.py:541-690 | a non-exit line at `greeting` or `ended` changes nothing |
| AppEngine.AppTurn | streamlit_app.py:521-690 | the turn specification over the session value; it carries no contract of its own: `AppStepsInOrder`, `AppExitPrecedence`, `AppProfileStep`, `ValidAnswerAdvances` and `AppInvPreserved` state its properties, and `AppSession.ProcessUserInput` is proved equal to it |
| AppEngine.AppStepsInOrder | streamlit_app.py:521-690 | a turn stays, advances one step or ends, and the transcript only grows |
| AppEngine.AppInvPreserved | streamlit_app.py:521-690 | every turn keeps `len(answers) == idx <= len(questions)`, with a question left at `questions` |
| AppEngine.AppTurnIgnoresGenerated | streamlit_app.py:630-642 | generated questions matter only to a tech-stack turn that accepts the line |
| AppEngine.IndexOf | streamlit_app.py:501 | `steps.index(name)` is the first position holding the name |
| AppEngine.Progress | streamlit_app.py:497-502 | an unknown step name has progress 0 |
| AppEngine.StepNamesDistinct | streamlit_app.py:499-500 | the 11 step names are distinct, one per step |
| AppEngine.ProgressOfStep | streamlit_app.py:497-502 | progress is `index * 100 div 11`, at most 90, and strictly increasing along the steps |
| AppEngine.ProgressAt | streamlit_app.py:497-502 | the progress of each step's name is its position times 100, divided by 11 |
| AppEngine.AppSession.constructor | streamlit_app.py:251-282 | a new session is at `greeting` with an empty profile, no questions, no answers and no messages |
| AppEngine.AppSession.AddMessage | streamlit_app.py:471-478 | one message is appended and nothing else changes |
| AppEngine.AppSession.HandleGreeting | streamlit_app.py:504-519 | the in-place greeting equals `Greet` |
| AppEngine.AppSession.ShowSummary | streamlit_app.py:692-714 | one summary message carrying the profile and the answer count is appended, and nothing else changes |
| AppEngine.AppSession.ProcessUserInput | streamlit_app.py:521-690 | the new session state is the turn specification's for the line and the generated questions, and the invariant is kept |
| AppEngine.AppSession.Advance | streamlit_app.py:521-690 | the in-place update equals the turn specification, and keeps the invariant |
| AppEngine.AppSession.CollectProfile | streamlit_app.py:541-628 | the name to location branches update profile, step and transcript in place as specified |
| AppEngine.AppSession.TakeTechStack | streamlit_app.py:630-655 | the tech-stack branch stores the stack and the questions, resets the index and asks the first question, as specified |
| AppEngine.AppSession.AnswerQuestion | streamlit_app.py:657-686 | the questions branch re-asks, or records the answer and asks the next question or shows the summary, as specified |

## Left out

- HTTP routing, CORS, the shutdown hook and the `/` endpoint are out (backend/server.py:25-28, 337-339, 594-607): they are web plumbing.
- MongoDB reads and writes and ISO timestamp conversion are out. The back end's session is one `Session` object; `get_candidates` works on a sequence of stored sessions.
- `get_session` and the 404 for an unknown session id are out.
- Message timestamps, uuids and `updated_at` are out: they are nondeterministic and do not affect the flow.
- The Gemini and LlmChat SDK calls, prompts, async/await, logging and `st.warning`/`st.error` are out. Their results are inputs:
  - `reply` for the back end;
  - `configured` and `replies` for Streamlit.

  `configured == false` covers both a missing key and an exception raised outside the per-technology loop.
- Streamlit rendering, CSS, widgets, `display_messages`, checkbox selection and `selected_techs` are out: they are UI state.
- `save_session_data` and `handle_input_submit` are out: file I/O and widget callbacks.
- Unicode is out: `lower`, `strip`, `isdigit`, `\d` and `\s` are modelled on ASCII only.
- Message texts are tags carrying their interpolated values, not the literal strings. Options lists are named by which list they carry.
- Profile lists the source leaves as `None` are the empty list: every step that sets one stores a non-empty list.
- ServerEngine.Read and AppEngine.ReadInput compute every validator result up front, while the source computes only the one its branch needs. All of them are total and pure, so the turn is the same.
- ServerEngine.Session.SendMessage and AppEngine.AppSession.ProcessUserInput run the question generator before the step branch, under the exact condition in which the source calls it inside that branch. The generator reads only the tech stack, which nothing before it in the turn changes. `TurnIgnoresGenerated` and `AppTurnIgnoresGenerated` show the generated list is ignored otherwise.
- AppEngine.AppTurn requires the question index to be in range at `questions`, where the source would raise an `IndexError`. `AppInvPreserved` shows every reachable state meets this.
- AppEngine.Progress returns an integer: the source's `int((i / 11) * 100)` is a float product. No `i` in 1..10 gives a whole-number quotient, so floor division gives the same integer.
- ServerQuestions.Generate: only the response-parsing part of `generate_technical_questions` and its fallback are modelled. The prompt text and `tech_stack[:5]` reach the model only through the label attached to each question.
- Validators.ParseYears does not model Python's limit on decimal conversion (`sys.get_int_max_str_digits`, 4300 digits by default since Python 3.11). On an experience line whose first digit run is longer than that, `int()` raises. The back end then fails the request before saving the session (backend/server.py:458). The Streamlit script stops at `experience` without adding a message (streamlit_app.py:583). The model instead stores the number and moves to `position`.
- Text.FirstNumber returns the value of a digit run of any length, where Python's `int()` refuses more than 4300 digits. `Text.DecimalRoundTrip` is stated for every natural number for the same reason.
