/** Screen navigation helpers: the back button's fixed predecessor map, the
    progress dots of the header and the rotating loading message. */
module Navigation {
  import opened Types

  /** Where the back button leads from `step` at question `qi`: the new step and question index. */
  function Back(step: AppStep, qi: int): (r: (AppStep, int))
    // Only stepping back inside the questionnaire moves the index, by exactly one.
    ensures r.1 != qi ==> step == Questionnaire && qi > 0 && r == (Questionnaire, qi - 1)
    ensures step == Questionnaire && qi > 0 ==> r == (Questionnaire, qi - 1)
    // The index never drops below zero.
    ensures qi >= 0 ==> r.1 >= 0
    // Back never returns to language selection, and only leaves the step unchanged
    // while walking back through the questions.
    ensures r.0 != LanguageSelection
    ensures r.0 == step ==> (step == Questionnaire && qi > 0) || step == Profile
    // From the first question the user goes back to the upload screen.
    ensures step == Questionnaire && qi <= 0 ==> r.0 == IdUpload
    // Results go back to the question last shown; upload goes back to the hub.
    ensures step == Results ==> r == (Questionnaire, qi)
    ensures step == IdUpload ==> r.0 == Profile
    ensures step in {LanguageSelection, Profile} ==> r.0 == Profile
  {
    if step == Questionnaire && qi > 0 then (step, qi - 1)
    else if step == Questionnaire then (IdUpload, qi)
    else if step == IdUpload then (Profile, qi)
    else if step == Results then (Questionnaire, qi)
    else (Profile, qi)
  }

  /** Back undoes one answer: from question `i + 1` it returns to question `i`,
      and from the results it returns to the question that led there. */
  lemma BackUndoesAnswer(i: nat)
    ensures Back(Questionnaire, i + 1) == (Questionnaire, i)
    ensures Back(Results, i) == (Questionnaire, i)
  {
  }

  /** Fewer than `qi + 1` presses from question `qi` stay in the questionnaire,
      `k` questions earlier. */
  lemma {:induction false} BackFewer(qi: nat, k: nat)
    requires k <= qi
    ensures BackTimes(Questionnaire, qi, k) == (Questionnaire, qi - k)
  {
    if k > 0 {
      BackFewer(qi - 1, k - 1);
    }
  }

  /** Pressing back from question `qi` reaches the upload screen after
      `qi + 1` presses; by `BackFewer`, no smaller number of presses does. */
  lemma {:induction false} BackToUpload(qi: nat)
    ensures BackTimes(Questionnaire, qi, qi + 1) == (IdUpload, 0)
  {
    if qi > 0 {
      BackToUpload(qi - 1);
    }
  }

  /** `n` presses of the back button. */
  function BackTimes(step: AppStep, qi: int, n: nat): (AppStep, int)
    decreases n
  {
    if n == 0 then (step, qi) else var r := Back(step, qi); BackTimes(r.0, r.1, n - 1)
  }

  /** The progress header's position of each screen that shows it. */
  function HeaderPosition(step: AppStep): Option<int> {
    match step
    case IdUpload => Some(1)
    case Questionnaire => Some(2)
    case Results => Some(3)
    case _ => None
  }

  datatype DotStatus = Done | Current | Pending

  /** The look of dot `i` (1 to 3) when the header shows position `current`. */
  function Dot(i: int, current: int): (r: DotStatus)
    ensures r == Done <==> i < current
    ensures r == Current <==> i == current
    ensures r == Pending <==> i > current
  {
    if i < current then Done else if i == current then Current else Pending
  }

  /** The upload screen shows dot 1 current and dots 2 and 3 pending; the
      questionnaire shows dot 1 done, dot 2 current and dot 3 pending; the
      results show dots 1 and 2 done and dot 3 current. The other screens
      have no progress header. */
  lemma DotsOfHeader()
    ensures var c := HeaderPosition(IdUpload).value;
      Dot(1, c) == Current && Dot(2, c) == Pending && Dot(3, c) == Pending
    ensures var c := HeaderPosition(Questionnaire).value;
      Dot(1, c) == Done && Dot(2, c) == Current && Dot(3, c) == Pending
    ensures var c := HeaderPosition(Results).value;
      Dot(1, c) == Done && Dot(2, c) == Done && Dot(3, c) == Current
    ensures HeaderPosition(LanguageSelection).None? && HeaderPosition(Profile).None?
  {
  }

  /** The messages the processing screen rotates through. */
  const LoadingMessages: seq<Localized> := [
    Localized("विजन स्कैनिंग...", "व्हिजन स्कॅनिंग...", "Vision Scanning..."),
    Localized("डेटा एक्सट्रैक्शन...", "डेटा एक्स्ट्रॅक्शन...", "Extracting Text..."),
    Localized("डायलॉग इंजन सक्रिय...", "संवाद इंजिन सक्रिय...", "Initializing Dialog Engine..."),
    Localized("सत्यापन...", "पडताळणी...", "Verifying...")
  ]

  /** The next loading message after `i`, wrapping round after the last one. */
  function NextLoadingIndex(i: nat): (r: nat)
    ensures r < |LoadingMessages|
    ensures i + 1 < |LoadingMessages| ==> r == i + 1
    ensures i + 1 == |LoadingMessages| ==> r == 0
  {
    (i + 1) % |LoadingMessages|
  }

  /** The loading message index after `k` ticks. */
  function AfterTicks(i: nat, k: nat): nat {
    if k == 0 then i else NextLoadingIndex(AfterTicks(i, k - 1))
  }

  /** From a valid index, `k` ticks land on message `(i + k) mod 4`: the
      messages are shown in order, and every fourth tick returns to the start. */
  lemma {:induction false} AfterTicksModulo(i: nat, k: nat)
    requires i < |LoadingMessages|
    ensures AfterTicks(i, k) == (i + k) % |LoadingMessages|
  {
    if k > 0 {
      AfterTicksModulo(i, k - 1);
    }
  }
}
