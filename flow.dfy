/** The wizard as a state machine over values: the state record held by the
    app component, one transition function per user or data event, the
    invariant every transition keeps, and the properties of the transitions. */
module Flow {
  import opened Types
  import opened Strings
  import opened Voice
  import opened Upload
  import opened Questionnaire
  import opened Navigation
  import opened Chat

  /** The conversation handle obtained for one scheme, with the profile and
      language it was created with. */
  datatype ChatSession = ChatSession(scheme: Scheme, profile: UserProfile, language: AppLanguage)

  /** One call of the scheme matcher: the profile and the interface language it was given. */
  datatype MatchRequest = MatchRequest(profile: UserProfile, language: AppLanguage)

  /** Everything the component holds, plus the persisted history (`storage`,
      `None` when the key is absent) and the calls of the scheme matcher, in
      order (`matchRequests`). */
  datatype WizardState = WizardState(
    step: AppStep,
    language: AppLanguage,
    profile: UserProfile,
    isProcessing: bool,
    questionIndex: int,
    matchedSchemes: seq<Scheme>,
    isListening: bool,
    capturedText: Option<string>,
    idConfirmMode: bool,
    loadingMessageIndex: nat,
    uploadError: Option<string>,
    history: seq<SavedProcess>,
    detectionLabels: seq<string>,
    activeChatScheme: Option<Scheme>,
    chatMessages: seq<ChatMessage>,
    chatInput: string,
    chatGrounding: seq<Source>,
    chatSession: Option<ChatSession>,
    speechSupported: bool,
    recognitionLang: string,
    storage: Option<seq<SavedProcess>>,
    matchRequests: seq<MatchRequest>)

  /** What every reachable state satisfies: the question index names a
      question, the loading index names a message, the stored list is the
      in-memory history, an open chat has its session, and a session's log
      starts with an assistant message (`GreetingFirst` says which one). */
  predicate Invariant(s: WizardState) {
    0 <= s.questionIndex < |Questions| &&
    s.loadingMessageIndex < |LoadingMessages| &&
    s.storage.GetOr([]) == s.history &&
    (s.activeChatScheme.Some? ==> s.chatSession.Some? && s.chatSession.value.scheme == s.activeChatScheme.value) &&
    (s.chatSession.Some? ==>
      |s.chatMessages| > 0 &&
      s.chatMessages[0].role == Assistant)
  }

  // ---------------------------------------------------------------- startup

  /** The initial state followed by the startup load of the stored history
      (`saved` is the parsed list, `None` when nothing is stored). */
  function Mount(saved: Option<seq<SavedProcess>>, speechSupported: bool): (r: WizardState)
    ensures Invariant(r)
  {
    var history := saved.GetOr([]);
    WizardState(
      if |history| > 0 then Profile else LanguageSelection,
      Hindi, EmptyProfile, false, 0, [], false, None, false, 0, None,
      history, [], None, [], "", [], None, speechSupported, "", saved, [])
  }

  lemma MountProperties(saved: Option<seq<SavedProcess>>, speechSupported: bool)
    ensures var s := Mount(saved, speechSupported);
      Invariant(s) &&
      s.history == saved.GetOr([]) &&
      (s.step == Profile <==> saved.Some? && |saved.value| > 0) &&
      (s.step != Profile ==> s.step == LanguageSelection) &&
      s.profile == EmptyProfile && s.questionIndex == 0 && s.matchRequests == []
  {
  }

  // ---------------------------------------------------------------- simple navigation

  function PickLanguage(s: WizardState, lang: AppLanguage): WizardState {
    s.(language := lang, step := IdUpload)
  }

  function GoBack(s: WizardState): WizardState {
    var r := Back(s.step, s.questionIndex);
    s.(step := r.0, questionIndex := r.1)
  }

  /** The header's profile button and the results' "Return Home" button. */
  function GoToProfile(s: WizardState): WizardState {
    s.(step := Profile)
  }

  /** The hub's "New Verification" button. */
  function NewVerification(s: WizardState): WizardState {
    s.(step := IdUpload)
  }

  /** Opening a saved record from the hub shows its results again. */
  function OpenRecord(s: WizardState, k: nat): WizardState
    requires k < |s.history|
  {
    s.(profile := s.history[k].profile, matchedSchemes := s.history[k].schemes, step := Results)
  }

  /** Back changes only the step and the question index, keeps the index in range,
      and never leaves the questionnaire's index below zero. */
  lemma GoBackProperties(s: WizardState)
    requires Invariant(s)
    ensures var t := GoBack(s);
      Invariant(t) &&
      t == s.(step := t.step, questionIndex := t.questionIndex) &&
      (s.step == Questionnaire && s.questionIndex > 0 ==> t.step == Questionnaire && t.questionIndex == s.questionIndex - 1) &&
      (s.step == Questionnaire && s.questionIndex == 0 ==> t.step == IdUpload && t.questionIndex == 0) &&
      (s.step == IdUpload ==> t.step == Profile) &&
      (s.step == Results ==> t.step == Questionnaire && t.questionIndex == s.questionIndex) &&
      (s.step in {LanguageSelection, Profile} ==> t.step == Profile)
  {
  }

  // ---------------------------------------------------------------- the loading message

  function TickLoading(s: WizardState): WizardState {
    if s.isProcessing then s.(loadingMessageIndex := NextLoadingIndex(s.loadingMessageIndex)) else s
  }

  // ---------------------------------------------------------------- ID upload and confirmation

  /** A file was chosen: processing starts and the previous error and labels are cleared. */
  function StartUpload(s: WizardState): WizardState {
    s.(isProcessing := true, uploadError := None, detectionLabels := [])
  }

  /** The extraction service's answer arrives. */
  function FinishUpload(s: WizardState, outcome: ExtractOutcome): (r: WizardState)
    ensures Invariant(s) ==> Invariant(r)
  {
    match outcome
    case Rejected =>
      s.(uploadError := Some(InvalidDocumentMessage(s.language)), isProcessing := false)
    case Extracted(fields, labels) =>
      s.(detectionLabels := labels.GetOr([]), profile := Merge(s.profile, fields), idConfirmMode := true,
         isProcessing := false)
    case ExtractionFailed =>
      s.(isProcessing := false, uploadError := Some(VisionSystemError))
  }

  /** After a successful extraction, the spoken summary of the data is
      generated and read aloud; `narrated` says whether both calls went
      through. A failure reports the vision error and ends processing, in
      whatever state the wizard has reached meanwhile. */
  function FinishNarration(s: WizardState, narrated: bool): (r: WizardState)
    ensures Invariant(s) ==> Invariant(r)
    ensures narrated ==> r == s
    ensures !narrated ==>
      !r.isProcessing && r.uploadError == Some("Vision System Error.") &&
      r == s.(isProcessing := false, uploadError := r.uploadError)
  {
    if narrated then s else s.(isProcessing := false, uploadError := Some(VisionSystemError))
  }

  /** One upload, start to finish: processing always ends; a rejected document
      sets the language's message and keeps the profile and the confirmation mode;
      an extraction merges its fields over the profile (the extracted values win)
      and asks for confirmation; a failed call reports the vision error. */
  lemma UploadTurn(s: WizardState, outcome: ExtractOutcome)
    ensures var t := FinishUpload(StartUpload(s), outcome);
      !t.isProcessing &&
      t.step == s.step && t.history == s.history && t.chatMessages == s.chatMessages &&
      (outcome.Rejected? ==>
        t.profile == s.profile && t.idConfirmMode == s.idConfirmMode &&
        t.uploadError == Some(if s.language == Marathi then "अवैध दस्तऐवज. कृपया पुन्हा प्रयत्न करा." else "Invalid document. Please try again.") &&
        t.detectionLabels == []) &&
      (outcome.Extracted? ==>
        t.profile == Merge(s.profile, outcome.fields) && t.idConfirmMode &&
        t.detectionLabels == outcome.labels.GetOr([]) &&
        t.uploadError == None) &&
      (outcome.ExtractionFailed? ==>
        t.profile == s.profile && t.idConfirmMode == s.idConfirmMode &&
        t.uploadError == Some("Vision System Error."))
  {
  }

  /** The reply to "is this correct?" while confirming extracted data. */
  function Confirm(s: WizardState, transcript: string): (r: WizardState)
    ensures Invariant(s) ==> Invariant(r)
  {
    match Classify(transcript)
    case Affirmed => s.(idConfirmMode := false, step := Questionnaire)
    case Denied => s.(idConfirmMode := false, profile := EmptyProfile)
    case Unrecognised => s
  }

  // ---------------------------------------------------------------- questionnaire and matching

  /** The matcher is asked for schemes: the results screen opens and the
      request, with the profile and the language it carries, is recorded. */
  function StartMatch(s: WizardState, finalProfile: UserProfile): WizardState {
    s.(step := Results, isProcessing := true, matchRequests := s.matchRequests + [MatchRequest(finalProfile, s.language)])
  }

  /** The matcher's answer arrives: its schemes, or `None` when the call failed. */
  function FinishMatch(s: WizardState, schemes: Option<seq<Scheme>>): WizardState {
    s.(matchedSchemes := schemes.GetOr(s.matchedSchemes), isProcessing := false)
  }

  /** An answer to the current question, tapped or spoken. */
  function Answer(s: WizardState, answer: string): (r: WizardState)
    requires 0 <= s.questionIndex < |Questions|
    ensures Invariant(s) ==> Invariant(r)
  {
    var updated := SetField(s.profile, Questions[s.questionIndex].field, answer);
    if s.questionIndex < LastQuestion then s.(profile := updated, questionIndex := s.questionIndex + 1)
    else StartMatch(s.(profile := updated), updated)
  }

  /** Answering question `i` writes the answer verbatim into that question's
      field and nothing else of the profile; before the last question the index
      moves on by exactly one and no request is made; at the last question exactly
      one match request carrying the updated profile is made and the results screen opens. */
  lemma AnswerProperties(s: WizardState, answer: string)
    requires Invariant(s)
    ensures var t := Answer(s, answer);
      var f := Questions[s.questionIndex].field;
      Invariant(t) &&
      Get(t.profile, f) == Some(answer) &&
      (forall g :: g != f ==> Get(t.profile, g) == Get(s.profile, g)) &&
      t.profile.name == s.profile.name && t.profile.age == s.profile.age &&
      t.profile.gender == s.profile.gender && t.profile.location == s.profile.location &&
      t.profile.idType == s.profile.idType &&
      (s.questionIndex < 2 ==>
        t == s.(profile := t.profile, questionIndex := s.questionIndex + 1)) &&
      (s.questionIndex == 2 ==>
        t == s.(profile := t.profile, step := Results, isProcessing := true,
                matchRequests := s.matchRequests + [MatchRequest(t.profile, s.language)]))
  {
  }

  /** From the first question, three answers ask the matcher exactly once, in
      the interface language, with a profile that holds the three answers
      unmodified and everything else of the profile as it was. */
  lemma ThreeAnswersMatchOnce(s: WizardState, a0: string, a1: string, a2: string)
    requires Invariant(s) && s.questionIndex == 0
    ensures var t := Answer(Answer(Answer(s, a0), a1), a2);
      var p := t.profile;
      t.step == Results && t.questionIndex == 2 &&
      t.matchRequests == s.matchRequests + [MatchRequest(p, s.language)] &&
      p.income == Some(a0) && p.occupation == Some(a1) && p.category == Some(a2) &&
      p.name == s.profile.name && p.age == s.profile.age && p.gender == s.profile.gender &&
      p.location == s.profile.location && p.idType == s.profile.idType
  {
    AnswerProperties(s, a0);
    AnswerProperties(Answer(s, a0), a1);
    AnswerProperties(Answer(Answer(s, a0), a1), a2);
  }

  /** A tap on option `k` of the current question. */
  function ChooseOption(s: WizardState, k: nat): WizardState
    requires 0 <= s.questionIndex < |Questions| && k < |Questions[s.questionIndex].options|
  {
    Answer(s, Questions[s.questionIndex].options[k])
  }

  // ---------------------------------------------------------------- speech recognition

  /** The microphone button: when the browser has a recogniser, it is set to the interface language. */
  function StartListening(s: WizardState): WizardState {
    if s.speechSupported then s.(recognitionLang := RecognitionLang(s.language)) else s
  }

  function RecognitionStarted(s: WizardState): WizardState {
    s.(isListening := true, capturedText := None)
  }

  /** A recognition event. Its transcript is shown; when the first result is
      final the transcript is acted on. */
  function HearResults(s: WizardState, results: seq<RecognitionResult>): (r: WizardState)
    requires |results| > 0 && 0 <= s.questionIndex < |Questions|
    ensures Invariant(s) ==> Invariant(r)
  {
    var t := Transcript(results);
    var heard := s.(capturedText := Some(t));
    if results[0].isFinal then HearFinal(heard, t) else heard
  }

  /** A final transcript ends listening and confirms extracted data, answers
      the current question or fills the chat input, depending on where the user is. */
  function HearFinal(s: WizardState, t: string): (r: WizardState)
    requires 0 <= s.questionIndex < |Questions|
    ensures Invariant(s) ==> Invariant(r)
  {
    var quiet := s.(isListening := false);
    if s.idConfirmMode && s.step == IdUpload then Confirm(quiet, t)
    else if s.step == Questionnaire then Answer(quiet, t)
    else if s.activeChatScheme.Some? then quiet.(chatInput := t)
    else quiet
  }

  /** A final "yes" (any affirmative word contained in the lower-cased
      transcript) while confirming on the upload screen leaves confirmation
      mode and opens the questionnaire, and changes nothing else besides the
      transcript shown and listening. */
  lemma ConfirmAffirmed(s: WizardState, results: seq<RecognitionResult>)
    requires Invariant(s) && |results| > 0 && results[0].isFinal
    requires s.idConfirmMode && s.step == IdUpload
    requires MentionsAny(ToLower(Transcript(results)), Affirmatives)
    ensures HearResults(s, results) ==
      s.(capturedText := Some(Transcript(results)), idConfirmMode := false, step := Questionnaire, isListening := false)
  {
  }

  /** A final "no" (no affirmative, some negative word) discards the profile,
      leaves confirmation mode and stays on the upload screen. */
  lemma ConfirmDenied(s: WizardState, results: seq<RecognitionResult>)
    requires Invariant(s) && |results| > 0 && results[0].isFinal
    requires s.idConfirmMode && s.step == IdUpload
    requires !MentionsAny(ToLower(Transcript(results)), Affirmatives)
    requires MentionsAny(ToLower(Transcript(results)), Negatives)
    ensures var t := HearResults(s, results);
      t == s.(capturedText := Some(Transcript(results)), idConfirmMode := false, profile := EmptyProfile, isListening := false) &&
      t.step == IdUpload
  {
  }

  /** An utterance with neither kind of word changes nothing but the transcript shown and listening. */
  lemma ConfirmUnrecognised(s: WizardState, results: seq<RecognitionResult>)
    requires Invariant(s) && |results| > 0 && results[0].isFinal
    requires s.idConfirmMode && s.step == IdUpload
    requires Classify(Transcript(results)) == Unrecognised
    ensures HearResults(s, results) == s.(capturedText := Some(Transcript(results)), isListening := false)
  {
  }

  /** "not correct" confirms: the affirmative list is consulted first. */
  lemma NotCorrectConfirms(s: WizardState)
    requires Invariant(s) && s.idConfirmMode && s.step == IdUpload
    ensures HearResults(s, [RecognitionResult("not correct", true)]).step == Questionnaire
  {
    TranscriptSingle(RecognitionResult("not correct", true));
    NotCorrectIsAffirmed();
  }

  /** A spoken answer in the questionnaire is the same as tapping an option with that text. */
  lemma SpokenAnswerIsTap(s: WizardState, results: seq<RecognitionResult>)
    requires Invariant(s) && |results| > 0 && results[0].isFinal
    requires s.step == Questionnaire
    ensures var t := Transcript(results);
      HearResults(s, results) == Answer(s.(capturedText := Some(t), isListening := false), t)
  {
  }

  /** An interim result only updates the transcript shown. */
  lemma InterimChangesOnlyCaption(s: WizardState, results: seq<RecognitionResult>)
    requires Invariant(s) && |results| > 0 && !results[0].isFinal
    ensures HearResults(s, results) == s.(capturedText := Some(Transcript(results)))
  {
  }

  // ---------------------------------------------------------------- history

  /** The current profile and schemes are saved as a new record at the front
      of the history, the list is written to storage, and the hub opens. */
  function SaveRun(s: WizardState, id: string, date: string): (r: WizardState)
    ensures Invariant(s) ==> Invariant(r)
  {
    var history := [SavedProcess(id, date, s.profile, s.matchedSchemes)] + s.history;
    s.(history := history, storage := Some(history), step := Profile)
  }

  /** Saving adds exactly one record, at the front, holding the current profile
      and schemes; every older record keeps its contents one place further on;
      what is stored is what is held. */
  lemma SaveRunProperties(s: WizardState, id: string, date: string)
    requires Invariant(s)
    ensures var t := SaveRun(s, id, date);
      Invariant(t) &&
      |t.history| == |s.history| + 1 &&
      t.history[0] == SavedProcess(id, date, s.profile, s.matchedSchemes) &&
      (forall i :: 0 <= i < |s.history| ==> t.history[i + 1] == s.history[i]) &&
      t.storage == Some(t.history) &&
      t.step == Profile &&
      t == s.(history := t.history, storage := t.storage, step := Profile)
  {
  }

  /** With confirmation, the stored and held history and the profile are
      cleared and language selection opens; without it nothing changes. */
  function ClearHistory(s: WizardState, confirmed: bool): (r: WizardState)
    ensures Invariant(s) ==> Invariant(r)
  {
    if confirmed then s.(storage := None, history := [], profile := EmptyProfile, step := LanguageSelection) else s
  }

  lemma ClearHistoryProperties(s: WizardState, confirmed: bool)
    requires Invariant(s)
    ensures var t := ClearHistory(s, confirmed);
      Invariant(t) &&
      (confirmed ==> t.history == [] && t.storage.None? && t.profile == EmptyProfile && t.step == LanguageSelection) &&
      (!confirmed ==> t == s)
  {
  }

  /** After clearing, a restart finds no history and begins at language selection. */
  lemma ClearThenRestart(s: WizardState, speechSupported: bool)
    requires Invariant(s)
    ensures Mount(ClearHistory(s, true).storage, speechSupported).step == LanguageSelection
  {
  }

  /** After saving, a restart finds the history (one record at least) and begins at the hub. */
  lemma SaveThenRestart(s: WizardState, id: string, date: string, speechSupported: bool)
    requires Invariant(s)
    ensures var t := SaveRun(s, id, date);
      Mount(t.storage, speechSupported).step == Profile &&
      Mount(t.storage, speechSupported).history == t.history
  {
  }

  // ---------------------------------------------------------------- chat

  /** A chat opens for `scheme`: the log becomes just the greeting and a new
      session is bound to the scheme, the profile and the language. */
  function OpenChat(s: WizardState, scheme: Scheme): (r: WizardState)
    ensures Invariant(s) ==> Invariant(r)
  {
    s.(activeChatScheme := Some(scheme),
       chatMessages := [ChatMessage(Assistant, Greeting(s.language, scheme))],
       chatSession := Some(ChatSession(scheme, s.profile, s.language)))
  }

  lemma OpenChatProperties(s: WizardState, scheme: Scheme)
    requires Invariant(s)
    ensures var t := OpenChat(s, scheme);
      Invariant(t) &&
      |t.chatMessages| == 1 && t.chatMessages[0].role == Assistant &&
      Contains(t.chatMessages[0].content, if s.language == English then scheme.title else scheme.titleLocal) &&
      t.chatSession == Some(ChatSession(scheme, s.profile, s.language))
  {
    GreetingNamesScheme(s.language, scheme);
  }

  /** The log of the current session starts with that session's greeting. */
  predicate GreetingFirst(s: WizardState) {
    s.chatSession.Some? ==>
      |s.chatMessages| > 0 &&
      s.chatMessages[0] == ChatMessage(Assistant, Greeting(s.chatSession.value.language, s.chatSession.value.scheme))
  }

  /** Opening a chat puts the greeting first, and nothing that happens in the
      chat afterwards removes or replaces it. */
  lemma GreetingStaysFirst(s: WizardState, scheme: Scheme, text: string, reply: ChatReply, spoken: bool)
    ensures GreetingFirst(OpenChat(s, scheme))
    ensures GreetingFirst(s) ==>
      GreetingFirst(SubmitChat(s)) && GreetingFirst(FinishChat(s, reply)) &&
      GreetingFirst(FinishSpeech(s, spoken)) &&
      GreetingFirst(CloseChat(s)) && GreetingFirst(EditChatInput(s, text))
  {
  }

  function CloseChat(s: WizardState): WizardState {
    s.(activeChatScheme := None)
  }

  function EditChatInput(s: WizardState, text: string): WizardState {
    s.(chatInput := text)
  }

  /** A turn can be sent: the trimmed input is not empty, a session exists
      and nothing is being processed. */
  predicate CanSend(s: WizardState) {
    Trim(s.chatInput) != "" && s.chatSession.Some? && !s.isProcessing
  }

  /** The send button: the input, untrimmed, becomes a user message and a request starts. */
  function SubmitChat(s: WizardState): (r: WizardState)
    ensures Invariant(s) ==> Invariant(r)
  {
    if !CanSend(s) then s
    else s.(chatInput := "", chatMessages := s.chatMessages + [ChatMessage(User, s.chatInput)],
            isProcessing := true, chatGrounding := [])
  }

  /** The conversational service's answer arrives. An answer is shown with
      its citations while processing goes on (the answer is read aloud next);
      a failed request appends the fallback message and ends processing. */
  function FinishChat(s: WizardState, reply: ChatReply): (r: WizardState)
    ensures Invariant(s) ==> Invariant(r)
  {
    match reply
    case RequestFailed =>
      s.(chatMessages := s.chatMessages + [ChatMessage(Assistant, ChatErrorMessage)], isProcessing := false)
    case Answered(text, chunks) =>
      s.(chatGrounding := WebSources(chunks.GetOr([])),
         chatMessages := s.chatMessages + [ChatMessage(Assistant, text.GetOr(""))])
  }

  /** Reading the answer aloud has finished; `spoken` says whether the speech
      call went through. A failure appends the fallback message; either way
      processing ends. */
  function FinishSpeech(s: WizardState, spoken: bool): (r: WizardState)
    ensures Invariant(s) ==> Invariant(r)
    ensures !r.isProcessing
    ensures r.chatMessages == s.chatMessages + (if spoken then [] else [ChatMessage(Assistant, "Error communicating with AI.")])
  {
    var messages := if spoken then s.chatMessages else s.chatMessages + [ChatMessage(Assistant, ChatErrorMessage)];
    s.(chatMessages := messages, isProcessing := false)
  }

  /** A whole turn after the send: the reply and, when the service answered, the reading aloud. */
  function Reply(s: WizardState, reply: ChatReply, spoken: bool): (r: WizardState)
    ensures Invariant(s) ==> Invariant(r)
    ensures r.chatMessages == s.chatMessages + ReplyMessages(reply, spoken) && !r.isProcessing
    ensures r == s.(chatMessages := r.chatMessages, chatGrounding := r.chatGrounding, isProcessing := false)
  {
    var t := FinishChat(s, reply);
    if reply.Answered? then
      assert s.chatMessages + ReplyMessages(reply, spoken) == t.chatMessages + (if spoken then [] else [ChatMessage(Assistant, ChatErrorMessage)]);
      FinishSpeech(t, spoken)
    else t
  }

  /** The assistant messages one turn adds to the log. */
  function ReplyMessages(reply: ChatReply, spoken: bool): seq<ChatMessage> {
    match reply
    case RequestFailed => [ChatMessage(Assistant, ChatErrorMessage)]
    case Answered(text, _) =>
      [ChatMessage(Assistant, text.GetOr(""))] + if spoken then [] else [ChatMessage(Assistant, ChatErrorMessage)]
  }

  /** A turn that cannot be sent changes nothing. */
  lemma SubmitRefused(s: WizardState)
    requires Trim(s.chatInput) == "" || s.chatSession.None? || s.isProcessing
    ensures SubmitChat(s) == s
  {
  }

  /** While an answer is being read aloud, processing is still on, so no
      further turn can be sent. */
  lemma SpeechPendingBlocksSend(s: WizardState, text: Option<string>, chunks: Option<seq<GroundingChunk>>)
    requires Invariant(s) && CanSend(s)
    ensures var t := FinishChat(SubmitChat(s), Answered(text, chunks));
      t.isProcessing && !CanSend(t) && SubmitChat(t) == t
  {
  }

  /** One chat turn: the input is cleared, the user's message comes first,
      then the reply or the fixed fallback; no earlier message is removed or
      changed; processing has ended; the invariant is kept. */
  lemma ChatTurn(s: WizardState, reply: ChatReply, spoken: bool)
    requires Invariant(s) && CanSend(s)
    ensures var t := Reply(SubmitChat(s), reply, spoken);
      Invariant(t) &&
      t.chatInput == "" && !t.isProcessing &&
      t.chatMessages == s.chatMessages + [ChatMessage(User, s.chatInput)] + ReplyMessages(reply, spoken) &&
      t.chatMessages[..|s.chatMessages|] == s.chatMessages &&
      t.chatMessages[|s.chatMessages|] == ChatMessage(User, s.chatInput) &&
      (reply.RequestFailed? ==> t.chatMessages[|s.chatMessages| + 1].content == "Error communicating with AI.") &&
      t.step == s.step && t.profile == s.profile && t.history == s.history
  {
    var u := ChatMessage(User, s.chatInput);
    var sent := SubmitChat(s);
    assert sent == s.(chatInput := "", chatMessages := s.chatMessages + [u], isProcessing := true, chatGrounding := []);
    LogPrefix(s.chatMessages, u, ReplyMessages(reply, spoken));
  }

  lemma LogPrefix(log: seq<ChatMessage>, m: ChatMessage, rest: seq<ChatMessage>)
    ensures (log + [m] + rest)[..|log|] == log && (log + [m] + rest)[|log|] == m
    ensures forall i :: 0 <= i < |rest| ==> (log + [m] + rest)[|log| + 1 + i] == rest[i]
  {
  }
}
