# Sarthi onboarding wizard — a Dafny model

Sarthi is a voice-first onboarding app. It helps a citizen find government
welfare schemes. The user picks one of three interface languages (Hindi,
Marathi, English) and photographs an identity document. An extraction service
reads the profile fields off the document. The user confirms them by voice and
answers three questions: monthly income, occupation and social category. The
scheme matcher then returns the schemes the profile qualifies for. A run can be
saved to a history kept on the device. A chat about any matched scheme can be
opened.

This project models the component that drives all of this, `App.tsx`, as a
state machine. It has two layers:

- **`Flow`** holds the whole component state as one value (`WizardState`),
  one transition function per event, and the invariant every reachable state
  satisfies. The properties of the wizard are proved as lemmas about these
  functions.
- **`App.Wizard`** is a class with one field per piece of component state. It
  has one setter per field, as the component's state hooks do, and one method
  per event handler. Each handler changes the state only through the setters.
  Each is proved to keep the invariant and to move the state exactly as the
  matching `Flow` transition does (`View() == Flow.X(old(View()), …)`).

The helpers the component computes with have modules of their own:

- `Voice`: the recognition language tag, the transcript of a recognition event
  and the yes/no classifier.
- `Upload`: the base64 payload of the data URL, the extraction outcome and the
  profile merge.
- `Questionnaire`: the three fixed questions.
- `Navigation`: the back button, the progress dots and the loading-message
  rotation.
- `Chat`: the greeting, the reply and the web citations.
- `Strings`: `toLowerCase`, `includes`, `trim`, `join`.
- `Scenarios`: whole sessions driven through the class.

Calls to the AI services become parameters of the handlers that receive their
results. Each asynchronous handler is split at its `await`s into methods, one
for the part before the first `await` and one for the part after each. The
state between the parts is therefore visible:

- Upload: `BeginUpload`, then `CompleteUpload` (the extraction's result), then
  `CompleteNarration` (generating the spoken summary and reading it aloud, two
  calls that succeed or fail together). Processing has already ended when the
  narration starts, so the user can confirm and answer in the meantime.
- Chat: `SendMessage`, then `CompleteSend` (the reply), then `CompleteSpeech`
  (reading the answer aloud). Processing stays on until the speech ends.
- Matching: `BeginMatch`, then `CompleteMatch`. The matcher's call is recorded
  with the profile and the language it is given.

Consequences of the code as written, which the model states and proves:

- The yes/no test looks for any affirmative word as a substring of the
  lower-cased transcript before it looks at the negatives. So "not correct",
  "That is wrong" (it contains "ha") and "सही नहीं" all confirm the data.
- A failure of the spoken summary after a successful extraction lands in the
  same `catch` as a failed extraction. The profile is already merged and
  confirmation requested, yet "Vision System Error." is set and processing is
  switched off, whatever is under way by then. When the user has meanwhile
  confirmed and answered the questions, this ends the loading of the results
  screen before the matcher answers (`Scenarios.NarrationFailsDuringMatch`).
  Likewise, a failure of reading a chat answer aloud appends the fallback
  message after the answer.
- The question index is never reset. After one finished run, the next
  verification in the same session opens the questionnaire at its last
  question (`Scenarios.SecondVisitSkipsQuestions`).
- The Hindi confirmation prompt (App.tsx:395) asks the user to say "हाँ", written with a candrabindu. The keyword list (App.tsx:243) has "हां", written with an anusvara. The prompted answer, spelled as in the prompt, is neither a yes nor a no (`Voice.CandrabinduYesIsUnrecognised`). Whether a user meets this depends on which spelling the recogniser produces.
- `split(',')[1]` is the text between the first comma and the next one, not
  the rest of the URL.

## Model

| member | source | states |
|---|---|---|
| App.Wizard.constructor | App.tsx:40-58 | The initial state, followed by the startup load of the stored history. The invariant holds. |
| Flow.MountProperties | App.tsx:99-106 | Startup: the held history is the stored list, or empty when nothing is stored. The hub opens exactly when that list is non-empty; otherwise language selection opens. The profile is empty, the question index is 0 and no match request has been made. |
| App.Wizard.PickLanguage | App.tsx:313 | A language button sets the language and opens the upload screen. Nothing else changes; the invariant is kept. |
| Navigation.Back | App.tsx:276-282 | The back button's predecessor map. Inside the questionnaire past the first question, back goes to the previous question; nothing else moves the index, which never drops below 0. From the first question it goes to upload; from results to the question last shown; from upload, the hub and language selection to the hub. It never returns to language selection. |
| App.Wizard.Back | App.tsx:276-282 | The back handler changes the step and question index exactly as `Navigation.Back` says. The invariant is kept. |
| Flow.GoBackProperties | App.tsx:276-282 | Back changes nothing but the step and the question index. It keeps the index in range and never leaves it below 0. |
| Navigation.BackUndoesAnswer | App.tsx:277-280 | Back from question i+1 returns to question i; back from results returns to the question that led there. |
| Navigation.BackFewer | App.tsx:277 | From question qi, k ≤ qi presses of back stay in the questionnaire, at question qi − k. |
| Navigation.BackToUpload | App.tsx:277-278 | From question qi, qi+1 presses of back reach the upload screen with index 0; with `BackFewer`, no fewer presses do. |
| App.Wizard.GoToProfile | App.tsx:295 | The profile button (and "Return Home", App.tsx:525) opens the hub and changes nothing else. |
| App.Wizard.StartNewVerification | App.tsx:335 | "New Verification" opens the upload screen and changes nothing else. |
| App.Wizard.OpenSavedRecord | App.tsx:351 | Opening saved record k restores its profile and schemes and shows the results. |
| Navigation.Dot | App.tsx:287-289 | A dot is done exactly when it comes before the current position, current exactly at it, and pending exactly after it. |
| Navigation.DotsOfHeader | App.tsx:287-289 | Upload shows dot 1 current and dots 2 and 3 pending. The questionnaire shows dot 1 done, dot 2 current and dot 3 pending. Results show dots 1 and 2 done and dot 3 current. Language selection and the hub have no progress header. |
| Navigation.NextLoadingIndex | App.tsx:112 | The next loading message is always one of the four. It is the next one, or the first after the last. |
| Navigation.AfterTicksModulo | App.tsx:108-116 | From a valid index, k timer ticks land on message (i + k) mod 4. |
| App.Wizard.TickLoading | App.tsx:108-116 | The timer advances the message only while processing. The index stays in range. |
| App.Wizard.BeginUpload | App.tsx:191-199 | Choosing a file starts processing and clears the previous error and labels. The returned payload is the data URL's `split(',')[1]`. |
| Upload.IndexOf | App.tsx:199 | The first position of a character: absent exactly when the character does not occur, otherwise a position holding it with no earlier occurrence. |
| Upload.Payload | App.tsx:199 | `split(',')[1]`: present exactly when the data URL has a comma, and then free of commas. |
| Upload.PayloadSplit | App.tsx:199 | `split(',')[1]` picks the text between the first comma and the next comma or the end. |
| Upload.DataUrlPayload | App.tsx:197-199 | Round trip: the payload of `data:<type>;base64,<b64>` is the base64 text itself. |
| App.Wizard.CompleteUpload | App.tsx:201-210 | The extraction outcome is applied as `Flow.FinishUpload` says, and the invariant is kept. |
| Flow.FinishUpload | App.tsx:201-216 | Applying an extraction outcome keeps the invariant. |
| Upload.InvalidDocumentMessage | App.tsx:203 | A rejected document's message is the English one exactly when the language is not Marathi. |
| Flow.UploadTurn | App.tsx:191-216 | One upload up to the extraction's result. Processing always ends, and the step, history and chat are untouched. A rejected document shows the message for the language and keeps the profile. An extraction merges its fields over the profile, stores its labels, asks for confirmation and leaves the error clear. A failed call shows "Vision System Error." and keeps the profile. |
| Flow.FinishNarration | App.tsx:211-216 | A spoken summary that went through changes nothing. One that failed ends processing and sets "Vision System Error.", changing nothing else, in whatever state the wizard has reached. The invariant is kept. |
| App.Wizard.CompleteNarration | App.tsx:211-216 | The end of the spoken summary is applied as `Flow.FinishNarration` says, and the invariant is kept. |
| Scenarios.NarrationFailsDuringMatch | App.tsx:209-216 | A summary that fails after the user has confirmed and answered all three questions ends the results screen's loading with no schemes and sets the vision error. |
| Upload.Merge | App.tsx:209 | `{ ...prev, ...data }`: every field the extraction supplies wins; every field it omits keeps its old value. |
| Upload.MergeIntoEmpty | App.tsx:209 | Merging into the empty profile yields exactly the extracted fields. |
| Upload.MergeIdempotent | App.tsx:209 | Merging the same extraction twice changes nothing the second time. |
| Upload.MergeAssociative | App.tsx:209 | Two merges in a row equal one merge of the two extractions combined. |
| Voice.RecognitionLang | App.tsx:226 | The recogniser's tag: "hi-IN", "mr-IN", "en-US". It ends in "IN" exactly for the two Indian languages. |
| App.Wizard.StartListening | App.tsx:222-228 | The microphone sets the recogniser to the interface language when the browser has one, and otherwise does nothing. |
| App.Wizard.OnRecognitionStart | App.tsx:236 | The start event marks listening and clears the transcript shown. |
| Voice.Transcripts | App.tsx:238 | The first alternative of each result, in order, one per result. |
| Voice.Transcript | App.tsx:238 | The transcript starts with the first result's text, and is at least as long as each result's text. |
| Strings.Join | App.tsx:238 | `join('')` starts with the first part and is at least as long as every part. |
| Voice.TranscriptAppend | App.tsx:238 | The transcript of results a ++ b is the transcript of a followed by that of b. |
| Voice.TranscriptSingle | App.tsx:238 | A single result's transcript is its own text. |
| Strings.JoinAppend | App.tsx:238 | `join('')` turns list concatenation into string concatenation. |
| Strings.ToLower | App.tsx:241 | Lower-casing keeps the length and leaves no ASCII capital. Each capital becomes its lower-case letter (code + 32); every other character is kept. |
| Strings.SameUpToCaseLower | App.tsx:241 | Two texts that differ only in the case of ASCII letters have the same lower case. |
| Strings.ToLowerConcat | App.tsx:241 | Lower-casing distributes over concatenation. |
| Strings.ToLowerIdempotent | App.tsx:241 | Lower-casing twice is lower-casing once. |
| Strings.ToLowerKeeps | App.tsx:241 | Text without ASCII capitals (all keywords, Devanagari included) is its own lower case. |
| Strings.Contains | App.tsx:245-246 | `includes`: a word included in a text is no longer than it, and a prefix is included. |
| Strings.ContainsIffOccurs | App.tsx:245-246 | `includes` holds exactly when the word occurs at some position. |
| Strings.ContainsInfix | App.tsx:245-246 | Text around an occurrence does not hide it. |
| Strings.FirstCharAbsent | App.tsx:245-246 | A word whose first character is absent from the text is not included in it. |
| Voice.Classify | App.tsx:241-246 | The reply is a yes exactly when some affirmative word occurs at some position of the lower-cased transcript. It is a no exactly when no affirmative word occurs and some negative word does. |
| Voice.MentionsAnyIffOccurs | App.tsx:245-246 | `some(w => text.includes(w))` holds exactly when some word of the list occurs at some position of the text. |
| Voice.ClassifyIgnoresCase | App.tsx:241-246 | Two utterances that differ only in letter case get the same yes/no answer. |
| Voice.AffirmativeWins | App.tsx:243-245 | Whatever surrounds an affirmative utterance, it stays affirmative, since the affirmative list is consulted first. |
| Voice.NegativeWithoutAffirmative | App.tsx:244-246 | An utterance with no affirmative word and some negative word is a no. |
| Voice.NotCorrectIsAffirmed | App.tsx:243-245 | "not correct" is a yes, because it contains "correct". |
| Voice.HindiNotCorrectIsAffirmed | App.tsx:243-245 | "सही नहीं" is a yes, because it contains "सही". |
| Voice.ThatIsWrongIsAffirmed | App.tsx:243-245 | "That is wrong" is a yes, because "that" contains "ha". |
| Voice.UpperCaseYesIsAffirmed | App.tsx:240-245 | "YES" is a yes. |
| Voice.WrongIsDenied | App.tsx:243-246 | "wrong" is a no. |
| Voice.CandrabinduYesIsUnrecognised | App.tsx:241-246 | "हाँ" with a candrabindu, as the Hindi prompt of App.tsx:395 spells it, contains no keyword of either list and is not recognised. |
| Voice.OkIsUnrecognised | App.tsx:243-246 | "OK" is neither, and the confirmation stays open. |
| App.Wizard.OnRecognitionResult | App.tsx:237-260 | A recognition event shows its transcript. When the first result is final, the transcript is acted on as `Flow.HearResults` says. The invariant is kept. |
| App.Wizard.HearFinal | App.tsx:240-259 | A final transcript ends listening. It then confirms, answers the current question or fills the chat input, depending on the screen. |
| App.Wizard.ConfirmSpoken | App.tsx:241-246 | A spoken reply to "is this correct?" is applied as `Flow.Confirm` classifies it. |
| Flow.ConfirmAffirmed | App.tsx:241-245 | A final affirmative while confirming leaves confirmation mode and opens the questionnaire. It changes nothing else but the transcript shown and listening. |
| Flow.ConfirmDenied | App.tsx:241-246 | A final negative without any affirmative discards the profile, leaves confirmation mode and stays on the upload screen. |
| Flow.ConfirmUnrecognised | App.tsx:241-246 | An utterance with neither kind of word changes only the transcript shown and listening. |
| Flow.NotCorrectConfirms | App.tsx:241-245 | Saying "not correct" while confirming opens the questionnaire. |
| Flow.HearResults | App.tsx:237-260 | A recognition event keeps the invariant. |
| Flow.HearFinal | App.tsx:240-259 | Acting on a final transcript keeps the invariant. |
| Flow.Confirm | App.tsx:242-246 | Applying the spoken yes/no keeps the invariant. |
| Flow.InterimChangesOnlyCaption | App.tsx:238-239 | An interim result changes only the transcript shown. |
| Flow.SpokenAnswerIsTap | App.tsx:247-255 | A final spoken answer in the questionnaire does exactly what a tap with that text does (App.tsx:444-450). |
| App.Wizard.Answer | App.tsx:444-450 | An answer, tapped or spoken, is applied as `Flow.Answer` says, and the invariant is kept. |
| App.Wizard.ChooseOption | App.tsx:441-450 | Tapping option k answers the current question with that option's text. |
| Questionnaire.SetField | App.tsx:446 | `{ ...profile, [field]: answer }`: the answered field holds the answer verbatim and every other field is kept. |
| Questionnaire.QuestionsCoverFields | App.tsx:67-95 | There are three questions, bound to income, occupation and category in that order. They are bound to different fields. |
| Questionnaire.AnswersInOrder | App.tsx:67-95 | Answering the three questions in order leaves all three answers, unmodified, in the profile, and every other field as it was. |
| Flow.Answer | App.tsx:444-450 | An answer keeps the invariant. |
| Flow.AnswerProperties | App.tsx:444-450 | The answer goes verbatim into the current question's field and nothing else of the profile changes. Before the last question the index moves on by one and no request is made. At the last question, exactly one match request carrying the updated profile and the language is made and the results screen opens. |
| Flow.ThreeAnswersMatchOnce | App.tsx:444-450 | From the first question, three answers ask the matcher exactly once, in the interface language, with a profile holding the three answers unmodified. |
| App.Wizard.BeginMatch | App.tsx:118-122 | Matching opens the results screen, starts processing and records one request with the given profile and the language. |
| App.Wizard.CompleteMatch | App.tsx:121-128 | The matcher's schemes replace the matched list; a failed call keeps the old list. Processing ends either way. |
| App.Wizard.SaveToProfile | App.tsx:131-142 | Saving is applied as `Flow.SaveRun` says, and the invariant is kept. |
| Flow.SaveRun | App.tsx:131-142 | Saving keeps the invariant. |
| Flow.SaveRunProperties | App.tsx:131-142 | Saving adds exactly one record, at the front, holding the current profile and schemes. Every older record moves back one place unchanged. What is stored is what is held, and the hub opens. |
| Flow.SaveThenRestart | App.tsx:99-106 | After saving, a restart finds the saved history and opens the hub. |
| App.Wizard.ClearProfile | App.tsx:144-151 | Clearing is applied as `Flow.ClearHistory` says, and the invariant is kept. |
| Flow.ClearHistory | App.tsx:144-151 | Clearing keeps the invariant. |
| Flow.ClearHistoryProperties | App.tsx:144-151 | With confirmation, the stored and held history and the profile are cleared and language selection opens. Without it, nothing changes. |
| Flow.ClearThenRestart | App.tsx:99-106 | After clearing, a restart finds no history and begins at language selection. |
| App.Wizard.OpenChat | App.tsx:153-167 | Opening a chat sets the scheme, makes the greeting the whole log and binds a new session to the scheme, profile and language. |
| Flow.OpenChat | App.tsx:153-167 | Opening a chat keeps the invariant. |
| Flow.OpenChatProperties | App.tsx:153-167 | After opening, the log is one assistant message that names the scheme under the title for the language. The session carries the scheme, the profile and the language. |
| Chat.Greeting | App.tsx:156-164 | The greeting ends with a question mark, and it starts with "Hello!" exactly in English. |
| Chat.GreetingNamesScheme | App.tsx:158-163 | The greeting contains the scheme's local title in Hindi and Marathi, and its English title in English. |
| Flow.GreetingStaysFirst | App.tsx:153-189 | Opening a chat puts its greeting first. Sending, replies, the end of speech, closing and typing never remove or replace it. |
| App.Wizard.CloseChat | App.tsx:539 | Closing the chat clears the active scheme only. |
| App.Wizard.EditChatInput | App.tsx:554 | Typing replaces the chat input only. |
| Strings.Trim | App.tsx:170 | `trim()`: the text is a middle slice of the input, with only white space around it, and neither starts nor ends with white space. |
| Strings.TrimEmptyIffBlank | App.tsx:170 | The trimmed input is empty exactly when the input is all white space. |
| App.Wizard.SendMessage | App.tsx:169-175 | Sending is refused when the trimmed input is empty, with no session, or while processing. Otherwise the untrimmed input becomes a user message, the input and citations are cleared, processing starts, and that text is returned. |
| Flow.SubmitChat | App.tsx:169-175 | Sending keeps the invariant. |
| Flow.SubmitRefused | App.tsx:170 | A turn that cannot be sent changes nothing. |
| App.Wizard.CompleteSend | App.tsx:177-187 | The reply is applied as `Flow.FinishChat` says, and the invariant is kept. |
| Flow.FinishChat | App.tsx:177-188 | Applying the reply keeps the invariant. |
| Flow.SpeechPendingBlocksSend | App.tsx:170-188 | While an answer is being read aloud, processing is still on, so no further turn can be sent. |
| App.Wizard.CompleteSpeech | App.tsx:184-188 | The end of reading the answer aloud is applied as `Flow.FinishSpeech` says, and the invariant is kept. |
| Flow.FinishSpeech | App.tsx:184-188 | After reading aloud, processing has ended, and the log gained the fallback message exactly when the speech failed. The invariant is kept. |
| Flow.Reply | App.tsx:177-188 | The whole reply, with speech when the service answered, only appends to the log, ends processing and changes nothing but the log and the citations. |
| Flow.ChatTurn | App.tsx:169-189 | One chat turn clears the input and appends the user's message, then the answer (followed by "Error communicating with AI." if reading it aloud failed), or that message alone if the request failed. Earlier messages are neither removed nor changed, processing ends, and the step, profile and history are untouched. |
| Chat.WebSources | App.tsx:181 | The citations are exactly the web parts of the chunks: each kept one comes from some chunk, each chunk's web part is kept, and there are never more citations than chunks. |
| Chat.WebSourcesAppend | App.tsx:181 | Filtering respects concatenation, so citations keep the chunks' order. |
| Flow.Mount | App.tsx:99-106 | The state after startup satisfies the invariant. |
| Scenarios.FirstVisit | App.tsx:99-450 | A first visit in English: a document yields some fields, the user says "yes" and taps "Below ₹10,000", "Farmer" and "SC". The matcher is asked exactly once, in English, with the document's fields and those three answers verbatim, and the results screen is shown. |
| Scenarios.SecondVisitSkipsQuestions | App.tsx:335 | A second verification in the same session opens the questionnaire at the last question, and one tap sends the second match request. |

## Left out

- Rendering (all JSX, styling, icons, the transcript caption's look) is not modelled.
- The AI service module is not part of this model. The extraction, summary, speech, matching and chat calls become handler parameters: `ExtractOutcome`, `ChatReply`, `Option<seq<Scheme>>`, and the `narrated` and `spoken` flags saying whether the summary and the speech calls went through. The summary's text and the audio are not modelled. Playing and stopping audio has no observable effect on the state and is left out.
- Browser services are inputs. The confirmation dialog's answer is the `confirmed` parameter. The record's id and date (`Date.now()`, `toLocaleDateString`) are parameters. The data URL produced by `FileReader` is a parameter. Stored JSON is modelled as the list itself, so a `JSON.parse` failure on corrupt storage is not modelled.
- The early return of the upload handler when no file was chosen (App.tsx:193) has no method: it changes nothing.
- Re-renders and stale closures are not modelled: each handler reads the state current when it runs. Interleavings are modelled only as far as the split at the `await`s allows; any order of the methods can be driven through the class.
- `localStorage.setItem` (App.tsx:140) is taken to succeed. A failed write (a full quota throws) is not modelled; the invariant's "what is stored is what is held" and `Flow.SaveRunProperties` rely on it.
- The recogniser's configuration (`continuous`, `interimResults`) is not modelled. The component registers no `onend` or `onerror` handler, so listening is switched off only by a final result (App.tsx:259); the model does the same. `speechSupported` stands for the presence of the browser's recogniser.
- Strings.ToLower: maps only ASCII capitals. JavaScript's full Unicode lower-casing is not modelled; the keyword lists hold no other cased letters.
- `constants.tsx` (the scheme catalogue and translations) is not part of this model.
- Upload.Merge: covers only the eight profile fields. The spread also copies the extraction's other keys (`isValid`, `detectionLabels`) into the profile object. An extracted key that is present with `null` or `undefined` overwrites the old value; `None` stands only for an absent key, so such results are not represented.
- The grounded scheme type used by the results screen is not part of this model. `Scheme` carries an extra `sources` list for it.
- Integers (the age, the match percentage) are unbounded. JavaScript numbers are doubles, but the model does no arithmetic on them.
