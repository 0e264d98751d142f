/** Whole sessions driven through the component's handlers, from mounting on. */
module Scenarios {
  import opened Types
  import opened Strings
  import opened Voice
  import opened Upload
  import opened App
  import Flow

  /** "yes", spoken and final. */
  const SpokenYes := [RecognitionResult("yes", true)]

  lemma SpokenYesAffirms()
    ensures Transcript(SpokenYes) == "yes" && Classify("yes") == Affirmed
  {
    TranscriptSingle(SpokenYes[0]);
    ToLowerKeeps("yes");
    assert StartsWith("yes", Affirmatives[0]);
  }

  /** An ID card that yields `card` is uploaded on the upload screen and the user says "yes". */
  method UploadAndConfirm(w: Wizard, dataUrl: string, card: UserProfile)
    requires w.Valid() && w.step == IdUpload
    modifies w
    ensures w.Valid() && w.step == Questionnaire && w.profile == Merge(old(w.profile), card)
    ensures w.questionIndex == old(w.questionIndex) && w.matchRequests == old(w.matchRequests)
    ensures w.language == old(w.language)
  {
    var _ := w.BeginUpload(dataUrl);
    w.CompleteUpload(Extracted(card, None));
    w.CompleteNarration(true);
    SpokenYesAffirms();
    w.OnRecognitionResult(SpokenYes);
  }

  /** A first visit: English is picked, an ID card yields `card`, the user says
      "yes" and taps the first income, the first occupation and the third
      category. The matcher is then asked exactly once, with the card's fields
      and the three answers exactly as the options read. */
  method FirstVisit(dataUrl: string, card: UserProfile) returns (requests: seq<Flow.MatchRequest>, step: AppStep)
    ensures step == Results
    ensures requests == [Flow.MatchRequest(card.(income := Some("Below ₹10,000"), occupation := Some("Farmer"), category := Some("SC")), English)]
  {
    var w := new Wizard(None, true);
    w.PickLanguage(English);
    UploadAndConfirm(w, dataUrl, card);
    w.ChooseOption(0);
    w.ChooseOption(0);
    w.ChooseOption(2);
    MergeIntoEmpty(card);
    requests := w.matchRequests;
    step := w.step;
  }

  /** The spoken summary of an ID card is still being prepared while the user
      says "yes" and taps through the three questions, and then fails. The
      failure ends processing while the matcher has not answered: the results
      screen stops loading with no schemes, and the vision error is set. */
  method NarrationFailsDuringMatch(dataUrl: string, card: UserProfile)
    returns (step: AppStep, processing: bool, schemes: seq<Scheme>, error: Option<string>)
    ensures step == Results && !processing && schemes == []
    ensures error == Some("Vision System Error.")
  {
    var w := new Wizard(None, true);
    w.PickLanguage(English);
    var _ := w.BeginUpload(dataUrl);
    w.CompleteUpload(Extracted(card, None));
    SpokenYesAffirms();
    w.OnRecognitionResult(SpokenYes);
    w.ChooseOption(0);
    w.ChooseOption(0);
    w.ChooseOption(2);
    w.CompleteNarration(false);
    step, processing, schemes, error := w.step, w.isProcessing, w.matchedSchemes, w.uploadError;
  }

  /** The question index is never reset: after one finished and saved run, a
      new verification confirmed by "yes" opens the questionnaire at its last
      question, and a single tap sends the second matching request. */
  method SecondVisitSkipsQuestions(dataUrl: string, card: UserProfile, id: string, date: string)
    returns (questionShown: int, requests: nat)
    ensures questionShown == 2
    ensures requests == 2
  {
    var w := new Wizard(None, true);
    w.PickLanguage(English);
    UploadAndConfirm(w, dataUrl, card);
    w.ChooseOption(0);
    w.ChooseOption(0);
    w.ChooseOption(2);
    w.CompleteMatch(Some([]));
    w.SaveToProfile(id, date);
    w.StartNewVerification();
    UploadAndConfirm(w, dataUrl, card);
    questionShown := w.questionIndex;
    w.ChooseOption(0);
    requests := |w.matchRequests|;
  }
}
