/** The app component: the wizard's state as mutable fields, one method per
    handler, each proved to move the state exactly as the matching transition
    of `Flow` does and to keep the invariant. */
module App {
  import opened Types
  import opened Voice
  import opened Upload
  import opened Questionnaire
  import opened Navigation
  import opened Chat
  import Strings
  import Flow

  class Wizard {
    var step: AppStep
    var language: AppLanguage
    var profile: UserProfile
    var isProcessing: bool
    var questionIndex: int
    var matchedSchemes: seq<Scheme>
    var isListening: bool
    var capturedText: Option<string>
    var idConfirmMode: bool
    var loadingMessageIndex: nat
    var uploadError: Option<string>
    var history: seq<SavedProcess>
    var detectionLabels: seq<string>
    var activeChatScheme: Option<Scheme>
    var chatMessages: seq<ChatMessage>
    var chatInput: string
    var chatGrounding: seq<Source>
    /** The conversation handle of the last opened chat. */
    var chatSession: Option<Flow.ChatSession>
    /** Whether the browser offers speech recognition, and the language the recogniser is set to. */
    var speechSupported: bool
    var recognitionLang: string
    /** The history as persisted on the device; `None` when the key is absent. */
    var storage: Option<seq<SavedProcess>>
    /** The calls of the scheme matcher, oldest first. */
    var matchRequests: seq<Flow.MatchRequest>

    /** The state as a value. */
    function View(): Flow.WizardState
      reads this
    {
      Flow.WizardState(step, language, profile, isProcessing, questionIndex, matchedSchemes,
        isListening, capturedText, idConfirmMode, loadingMessageIndex, uploadError, history,
        detectionLabels, activeChatScheme, chatMessages, chatInput, chatGrounding, chatSession,
        speechSupported, recognitionLang, storage, matchRequests)
    }

    ghost predicate Valid()
      reads this
    {
      Flow.Invariant(View())
    }

    /** Mounting the component, including the startup load of the stored history. */
    constructor (saved: Option<seq<SavedProcess>>, speechSupported: bool)
      ensures View() == Flow.Mount(saved, speechSupported) && Valid()
    {
      step := LanguageSelection;
      language := Hindi;
      profile := EmptyProfile;
      isProcessing := false;
      questionIndex := 0;
      matchedSchemes := [];
      isListening := false;
      capturedText := None;
      idConfirmMode := false;
      loadingMessageIndex := 0;
      uploadError := None;
      history := [];
      detectionLabels := [];
      activeChatScheme := None;
      chatMessages := [];
      chatInput := "";
      chatGrounding := [];
      chatSession := None;
      this.speechSupported := speechSupported;
      recognitionLang := "";
      storage := saved;
      matchRequests := [];
      if saved.Some? {
        history := saved.value;
        if |saved.value| > 0 {
          step := Profile;
        }
      }
    }

    // ---------------------------------------------------------------- state setters
    // One setter per piece of component state; each changes that piece and
    // nothing else. The handlers below change the state only through them.

    method SetStep(v: AppStep)
      modifies this
      ensures View() == old(View()).(step := v)
    {
      step := v;
    }

    method SetLanguage(v: AppLanguage)
      modifies this
      ensures View() == old(View()).(language := v)
    {
      language := v;
    }

    method SetProfile(v: UserProfile)
      modifies this
      ensures View() == old(View()).(profile := v)
    {
      profile := v;
    }

    method SetIsProcessing(v: bool)
      modifies this
      ensures View() == old(View()).(isProcessing := v)
    {
      isProcessing := v;
    }

    method SetQuestionIndex(v: int)
      modifies this
      ensures View() == old(View()).(questionIndex := v)
    {
      questionIndex := v;
    }

    method SetMatchedSchemes(v: seq<Scheme>)
      modifies this
      ensures View() == old(View()).(matchedSchemes := v)
    {
      matchedSchemes := v;
    }

    method SetIsListening(v: bool)
      modifies this
      ensures View() == old(View()).(isListening := v)
    {
      isListening := v;
    }

    method SetCapturedText(v: Option<string>)
      modifies this
      ensures View() == old(View()).(capturedText := v)
    {
      capturedText := v;
    }

    method SetIdConfirmMode(v: bool)
      modifies this
      ensures View() == old(View()).(idConfirmMode := v)
    {
      idConfirmMode := v;
    }

    method SetLoadingMessageIndex(v: nat)
      modifies this
      ensures View() == old(View()).(loadingMessageIndex := v)
    {
      loadingMessageIndex := v;
    }

    method SetUploadError(v: Option<string>)
      modifies this
      ensures View() == old(View()).(uploadError := v)
    {
      uploadError := v;
    }

    method SetHistory(v: seq<SavedProcess>)
      modifies this
      ensures View() == old(View()).(history := v)
    {
      history := v;
    }

    method SetDetectionLabels(v: seq<string>)
      modifies this
      ensures View() == old(View()).(detectionLabels := v)
    {
      detectionLabels := v;
    }

    method SetActiveChatScheme(v: Option<Scheme>)
      modifies this
      ensures View() == old(View()).(activeChatScheme := v)
    {
      activeChatScheme := v;
    }

    method SetChatMessages(v: seq<ChatMessage>)
      modifies this
      ensures View() == old(View()).(chatMessages := v)
    {
      chatMessages := v;
    }

    method SetChatInput(v: string)
      modifies this
      ensures View() == old(View()).(chatInput := v)
    {
      chatInput := v;
    }

    method SetChatGrounding(v: seq<Source>)
      modifies this
      ensures View() == old(View()).(chatGrounding := v)
    {
      chatGrounding := v;
    }

    /** `chatInstance.current = …`: the session handle of the open chat. */
    method SetChatInstance(v: Option<Flow.ChatSession>)
      modifies this
      ensures View() == old(View()).(chatSession := v)
    {
      chatSession := v;
    }

    /** The recogniser's `lang` property. */
    method SetRecognitionLang(v: string)
      modifies this
      ensures View() == old(View()).(recognitionLang := v)
    {
      recognitionLang := v;
    }

    /** `localStorage.setItem` (`Some`) and `localStorage.removeItem` (`None`) of the history key. */
    method WriteStorage(v: Option<seq<SavedProcess>>)
      modifies this
      ensures View() == old(View()).(storage := v)
    {
      storage := v;
    }

    /** The call to the scheme matcher with `p` in the interface language. */
    method RequestMatch(p: UserProfile)
      modifies this
      ensures View() == old(View()).(matchRequests := old(matchRequests) + [Flow.MatchRequest(p, language)])
    {
      matchRequests := matchRequests + [Flow.MatchRequest(p, language)];
    }

    // ---------------------------------------------------------------- handlers

    /** A language button on the first screen. */
    method PickLanguage(lang: AppLanguage)
      requires Valid()
      modifies this
      ensures View() == Flow.PickLanguage(old(View()), lang) && Valid()
    {
      SetLanguage(lang);
      SetStep(IdUpload);
    }

    /** The header's back button. */
    method Back()
      requires Valid()
      modifies this
      ensures View() == Flow.GoBack(old(View())) && Valid()
    {
      if step == Questionnaire && questionIndex > 0 {
        SetQuestionIndex(questionIndex - 1);
      } else if step == Questionnaire {
        SetStep(IdUpload);
      } else if step == IdUpload {
        SetStep(Profile);
      } else if step == Results {
        SetStep(Questionnaire);
      } else {
        SetStep(Profile);
      }
    }

    /** The header's profile button and the results' "Return Home" button. */
    method GoToProfile()
      requires Valid()
      modifies this
      ensures View() == Flow.GoToProfile(old(View())) && Valid()
    {
      SetStep(Profile);
    }

    /** The hub's "New Verification" button. */
    method StartNewVerification()
      requires Valid()
      modifies this
      ensures View() == Flow.NewVerification(old(View())) && Valid()
    {
      SetStep(IdUpload);
    }

    /** A saved record tapped on the hub. */
    method OpenSavedRecord(k: nat)
      requires Valid() && k < |history|
      modifies this
      ensures View() == Flow.OpenRecord(old(View()), k) && Valid()
    {
      var item := history[k];
      SetProfile(item.profile);
      SetMatchedSchemes(item.schemes);
      SetStep(Results);
    }

    /** One tick of the loading-message timer, which runs only while processing. */
    method TickLoading()
      requires Valid()
      modifies this
      ensures View() == Flow.TickLoading(old(View())) && Valid()
    {
      if isProcessing {
        SetLoadingMessageIndex(NextLoadingIndex(loadingMessageIndex));
      }
    }

    /** A file was chosen. Returns the base64 text that is handed to the extraction service. */
    method BeginUpload(dataUrl: string) returns (payload: Option<string>)
      requires Valid()
      modifies this
      ensures View() == Flow.StartUpload(old(View())) && Valid()
      ensures payload == Payload(dataUrl)
    {
      SetIsProcessing(true);
      SetUploadError(None);
      SetDetectionLabels([]);
      payload := Payload(dataUrl);
    }

    /** The extraction service's answer. */
    method CompleteUpload(outcome: ExtractOutcome)
      requires Valid()
      modifies this
      ensures View() == Flow.FinishUpload(old(View()), outcome) && Valid()
    {
      match outcome
      case Rejected =>
        SetUploadError(Some(InvalidDocumentMessage(language)));
        SetIsProcessing(false);
      case Extracted(fields, labels) =>
        SetDetectionLabels(labels.GetOr([]));
        SetProfile(Merge(profile, fields));
        SetIdConfirmMode(true);
        SetIsProcessing(false);
      case ExtractionFailed =>
        SetIsProcessing(false);
        SetUploadError(Some(VisionSystemError));
    }

    /** The end of the spoken summary that follows a successful extraction;
        `narrated` says whether generating and reading it went through. */
    method CompleteNarration(narrated: bool)
      requires Valid()
      modifies this
      ensures View() == Flow.FinishNarration(old(View()), narrated) && Valid()
    {
      if !narrated {
        SetIsProcessing(false);
        SetUploadError(Some(VisionSystemError));
      }
    }

    /** The matching request is sent for `finalProfile`. */
    method BeginMatch(finalProfile: UserProfile)
      requires Valid()
      modifies this
      ensures View() == Flow.StartMatch(old(View()), finalProfile) && Valid()
    {
      SetStep(Results);
      SetIsProcessing(true);
      RequestMatch(finalProfile);
    }

    /** The matcher's answer: the schemes, or `None` when the call failed. */
    method CompleteMatch(schemes: Option<seq<Scheme>>)
      requires Valid()
      modifies this
      ensures View() == Flow.FinishMatch(old(View()), schemes) && Valid()
    {
      if schemes.Some? {
        SetMatchedSchemes(schemes.value);
      }
      SetIsProcessing(false);
    }

    /** The answer to the current question, shared by taps and speech. */
    method Answer(answer: string)
      requires Valid()
      modifies this
      ensures View() == Flow.Answer(old(View()), answer) && Valid()
    {
      var currentQ := Questions[questionIndex];
      var updatedProfile := SetField(profile, currentQ.field, answer);
      SetProfile(updatedProfile);
      if questionIndex < |Questions| - 1 {
        SetQuestionIndex(questionIndex + 1);
      } else {
        BeginMatch(updatedProfile);
      }
    }

    /** A tap on option `k` of the question shown. */
    method ChooseOption(k: nat)
      requires Valid() && step == Questionnaire && k < |Questions[questionIndex].options|
      modifies this
      ensures View() == Flow.ChooseOption(old(View()), k) && Valid()
    {
      Answer(Questions[questionIndex].options[k]);
    }

    /** The microphone button; it does nothing without a recogniser. */
    method StartListening()
      requires Valid()
      modifies this
      ensures View() == Flow.StartListening(old(View())) && Valid()
    {
      if speechSupported {
        SetRecognitionLang(RecognitionLang(language));
      }
    }

    /** The recogniser's start event. */
    method OnRecognitionStart()
      requires Valid()
      modifies this
      ensures View() == Flow.RecognitionStarted(old(View())) && Valid()
    {
      SetIsListening(true);
      SetCapturedText(None);
    }

    /** A recognition event with its results. */
    method OnRecognitionResult(results: seq<RecognitionResult>)
      requires Valid() && |results| > 0
      modifies this
      ensures View() == Flow.HearResults(old(View()), results) && Valid()
    {
      var transcript := Transcript(results);
      SetCapturedText(Some(transcript));
      if results[0].isFinal {
        HearFinal(transcript);
      }
    }

    /** What a final transcript does, depending on where the user is. The
        component's updates of one event take effect together, so listening
        can be switched off first. */
    method HearFinal(transcript: string)
      requires Valid()
      modifies this
      ensures View() == Flow.HearFinal(old(View()), transcript) && Valid()
    {
      SetIsListening(false);
      if idConfirmMode && step == IdUpload {
        ConfirmSpoken(transcript);
      } else if step == Questionnaire {
        Answer(transcript);
      } else if activeChatScheme.Some? {
        SetChatInput(transcript);
      }
    }

    /** A final transcript heard while the extracted data awaits confirmation. */
    method ConfirmSpoken(transcript: string)
      requires Valid()
      modifies this
      ensures View() == Flow.Confirm(old(View()), transcript) && Valid()
    {
      var answer := Classify(transcript);
      if answer == Affirmed {
        SetIdConfirmMode(false);
        SetStep(Questionnaire);
      } else if answer == Denied {
        SetIdConfirmMode(false);
        SetProfile(EmptyProfile);
      }
    }

    /** The results screen's save button, with the record's id and date. */
    method SaveToProfile(id: string, date: string)
      requires Valid()
      modifies this
      ensures View() == Flow.SaveRun(old(View()), id, date) && Valid()
    {
      var newRecord := SavedProcess(id, date, profile, matchedSchemes);
      var updatedHistory := [newRecord] + history;
      SetHistory(updatedHistory);
      WriteStorage(Some(updatedHistory));
      SetStep(Profile);
    }

    /** The hub's delete button; `confirmed` is the user's answer to the confirmation dialog. */
    method ClearProfile(confirmed: bool)
      requires Valid()
      modifies this
      ensures View() == Flow.ClearHistory(old(View()), confirmed) && Valid()
    {
      if confirmed {
        WriteStorage(None);
        SetHistory([]);
        SetProfile(EmptyProfile);
        SetStep(LanguageSelection);
      }
    }

    /** A scheme card's chat button. */
    method OpenChat(scheme: Scheme)
      requires Valid()
      modifies this
      ensures View() == Flow.OpenChat(old(View()), scheme) && Valid()
    {
      SetActiveChatScheme(Some(scheme));
      SetChatMessages([ChatMessage(Assistant, Greeting(language, scheme))]);
      SetChatInstance(Some(Flow.ChatSession(scheme, profile, language)));
    }

    /** The chat panel's close button. */
    method CloseChat()
      requires Valid()
      modifies this
      ensures View() == Flow.CloseChat(old(View())) && Valid()
    {
      SetActiveChatScheme(None);
    }

    /** Typing in the chat box. */
    method EditChatInput(text: string)
      requires Valid()
      modifies this
      ensures View() == Flow.EditChatInput(old(View()), text) && Valid()
    {
      SetChatInput(text);
    }

    /** The send button. Returns the message handed to the session, if any. */
    method SendMessage() returns (sent: Option<string>)
      requires Valid()
      modifies this
      ensures View() == Flow.SubmitChat(old(View())) && Valid()
      ensures sent == if Flow.CanSend(old(View())) then Some(old(chatInput)) else None
    {
      if Strings.Trim(chatInput) == "" || chatSession.None? || isProcessing {
        return None;
      }
      var userMsg := chatInput;
      SetChatInput("");
      SetChatMessages(chatMessages + [ChatMessage(User, userMsg)]);
      SetIsProcessing(true);
      SetChatGrounding([]);
      sent := Some(userMsg);
    }

    /** The session's reply to the last message sent. */
    method CompleteSend(reply: ChatReply)
      requires Valid()
      modifies this
      ensures View() == Flow.FinishChat(old(View()), reply) && Valid()
    {
      match reply {
        case RequestFailed =>
          SetChatMessages(chatMessages + [ChatMessage(Assistant, ChatErrorMessage)]);
          SetIsProcessing(false);
        case Answered(text, chunks) =>
          SetChatGrounding(WebSources(chunks.GetOr([])));
          SetChatMessages(chatMessages + [ChatMessage(Assistant, text.GetOr(""))]);
      }
    }

    /** The end of reading the answer aloud; `spoken` says whether it went through. */
    method CompleteSpeech(spoken: bool)
      requires Valid()
      modifies this
      ensures View() == Flow.FinishSpeech(old(View()), spoken) && Valid()
    {
      if !spoken {
        SetChatMessages(chatMessages + [ChatMessage(Assistant, ChatErrorMessage)]);
      }
      SetIsProcessing(false);
    }
  }
}
