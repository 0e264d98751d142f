/** Speech input: the recognition language tag, the transcript of a
    recognition event and the yes/no test used to confirm extracted ID data. */
module Voice {
  import opened Types
  import opened Strings

  /** The BCP 47 tag handed to the speech recogniser for each interface language. */
  function RecognitionLang(lang: AppLanguage): (r: string)
    ensures |r| == 5 && r[2] == '-'
    ensures r[3..] == "IN" <==> lang != English
    ensures lang == Hindi ==> r[..2] == "hi"
    ensures lang == Marathi ==> r[..2] == "mr"
    ensures lang == English ==> r == "en-US"
  {
    match lang
    case Hindi => "hi-IN"
    case Marathi => "mr-IN"
    case English => "en-US"
  }

  /** One entry of a recognition event: the transcript of its first
      alternative and whether it is final. */
  datatype RecognitionResult = RecognitionResult(transcript: string, isFinal: bool)

  function Transcripts(results: seq<RecognitionResult>): (r: seq<string>)
    ensures |r| == |results|
    ensures forall i :: 0 <= i < |results| ==> r[i] == results[i].transcript
  {
    seq(|results|, i requires 0 <= i < |results| => results[i].transcript)
  }

  /** The text of an event: the first alternative of every result, joined with nothing in between. */
  function Transcript(results: seq<RecognitionResult>): (r: string)
    ensures |results| > 0 ==> StartsWith(r, results[0].transcript)
    ensures forall k :: 0 <= k < |results| ==> |results[k].transcript| <= |r|
  {
    Join(Transcripts(results))
  }

  /** A later result extends the transcript of the earlier ones. */
  lemma TranscriptAppend(a: seq<RecognitionResult>, b: seq<RecognitionResult>)
    ensures Transcript(a + b) == Transcript(a) + Transcript(b)
  {
    assert Transcripts(a + b) == Transcripts(a) + Transcripts(b);
    JoinAppend(Transcripts(a), Transcripts(b));
  }

  lemma TranscriptSingle(r: RecognitionResult)
    ensures Transcript([r]) == r.transcript
  {
    assert Transcripts([r]) == [r.transcript];
    assert Transcripts([r])[1..] == [];
    assert Join([r.transcript]) == r.transcript + Join([]);
  }

  /** The words that confirm extracted data, consulted first. */
  const Affirmatives: seq<string> := ["yes", "correct", "हां", "हो", "सही", "बरोबर", "ha"]

  /** The words that reject extracted data. */
  const Negatives: seq<string> := ["no", "wrong", "नहीं", "नाही", "galat", "na"]

  /** `words.some(w => text.includes(w))`. */
  predicate MentionsAny(text: string, words: seq<string>) {
    exists k :: 0 <= k < |words| && Contains(text, words[k])
  }

  /** Some word of `words` occurs at some position of `text`. */
  ghost predicate OccursAny(text: string, words: seq<string>) {
    exists k, i :: 0 <= k < |words| && OccursAt(text, words[k], i)
  }

  lemma MentionsAnyIffOccurs(text: string, words: seq<string>)
    ensures MentionsAny(text, words) <==> OccursAny(text, words)
  {
    forall k | 0 <= k < |words| {
      ContainsIffOccurs(text, words[k]);
    }
  }

  datatype Confirmation = Affirmed | Denied | Unrecognised

  /** The answer an utterance gives to "is this correct?": lower-case it, then
      look for an affirmative word, and only when there is none for a negative one. */
  function Classify(transcript: string): (r: Confirmation)
    ensures r == Affirmed <==> OccursAny(ToLower(transcript), Affirmatives)
    ensures r == Denied <==> !OccursAny(ToLower(transcript), Affirmatives) && OccursAny(ToLower(transcript), Negatives)
  {
    var lower := ToLower(transcript);
    MentionsAnyIffOccurs(lower, Affirmatives);
    MentionsAnyIffOccurs(lower, Negatives);
    if MentionsAny(lower, Affirmatives) then Affirmed
    else if MentionsAny(lower, Negatives) then Denied
    else Unrecognised
  }

  /** Matching ignores letter case: two utterances that differ only in the
      case of their letters get the same answer. */
  lemma ClassifyIgnoresCase(a: string, b: string)
    requires SameUpToCase(a, b)
    ensures Classify(a) == Classify(b)
  {
    SameUpToCaseLower(a, b);
  }

  /** Whatever is said before or after an affirmative, the answer stays affirmative:
      the affirmative list is consulted first, so an utterance holding both kinds is a yes. */
  lemma AffirmativeWins(p: string, t: string, q: string)
    requires Classify(t) == Affirmed
    ensures Classify(p + t + q) == Affirmed
  {
    var k :| 0 <= k < |Affirmatives| && Contains(ToLower(t), Affirmatives[k]);
    ToLowerConcat(p + t, q);
    ToLowerConcat(p, t);
    ContainsInfix(ToLower(p), ToLower(t), ToLower(q), Affirmatives[k]);
  }

  /** An utterance that mentions no affirmative but some negative is a no, whatever else it says. */
  lemma NegativeWithoutAffirmative(t: string, k: nat)
    requires !MentionsAny(ToLower(t), Affirmatives)
    requires k < |Negatives| && Contains(ToLower(t), Negatives[k])
    ensures Classify(t) == Denied
  {
  }

  /** "not correct" contains "correct" and is therefore taken as a yes. */
  lemma NotCorrectIsAffirmed()
    ensures Classify("not correct") == Affirmed
  {
    var t := "not correct";
    ToLowerKeeps(t);
    assert OccursAt(t, Affirmatives[1], 4);
    ContainsIfOccurs(t, Affirmatives[1], 4);
  }

  /** The Hindi "सही नहीं" (not correct) starts with "सही" and is therefore taken as a yes. */
  lemma HindiNotCorrectIsAffirmed()
    ensures Classify("सही नहीं") == Affirmed
  {
    var t := "सही नहीं";
    ToLowerKeeps(t);
    assert StartsWith(t, Affirmatives[4]);
  }

  /** "That is wrong" contains "ha" (in "that") and is therefore taken as a yes. */
  lemma ThatIsWrongIsAffirmed()
    ensures Classify("That is wrong") == Affirmed
  {
    var t := "That is wrong";
    assert ToLower(t) == "that is wrong";
    assert OccursAt(ToLower(t), Affirmatives[6], 1);
    ContainsIfOccurs(ToLower(t), Affirmatives[6], 1);
  }

  /** Capitals do not matter: "YES" is a yes. */
  lemma UpperCaseYesIsAffirmed()
    ensures Classify("YES") == Affirmed
  {
    assert ToLower("YES") == "yes";
    assert StartsWith("yes", Affirmatives[0]);
  }

  /** "wrong" mentions no affirmative and is a no. */
  lemma WrongIsDenied()
    ensures Classify("wrong") == Denied
  {
    var t := "wrong";
    ToLowerKeeps(t);
    NoAffirmativeIn(t);
    assert StartsWith(t, Negatives[1]);
  }

  /** "OK" mentions neither list and leaves the confirmation open. */
  lemma OkIsUnrecognised()
    ensures Classify("OK") == Unrecognised
  {
    var t := "ok";
    assert ToLower("OK") == t;
    NoAffirmativeIn(t);
    forall k | 0 <= k < |Negatives|
      ensures !Contains(t, Negatives[k])
    {
      FirstCharAbsent(t, Negatives[k]);
    }
  }

  /** The Hindi prompt asks for "हाँ", written with a candrabindu (U+0901),
      while the keyword "हां" carries an anusvara (U+0902): the prompted
      answer, as written, is neither a yes nor a no. */
  lemma CandrabinduYesIsUnrecognised()
    ensures Classify("हाँ") == Unrecognised
  {
    var t := "हाँ";
    ToLowerKeeps(t);
    forall k | 0 <= k < |Affirmatives|
      ensures !Contains(t, Affirmatives[k])
    {
      var w := Affirmatives[k];
      if k == 2 {
        // "हां" fits only at 0, where the nasal signs differ.
        forall i
          ensures !OccursAt(t, w, i)
        {
          if 0 <= i && i + |w| <= |t| {
            assert t[i..i + |w|][2] != w[2];
          }
        }
        ContainsIffOccurs(t, w);
      } else if k == 3 {
        // "हो": at 0 the vowel signs differ; at 1 the text has no "ह".
        forall i
          ensures !OccursAt(t, w, i)
        {
          if i == 0 {
            assert t[i..i + |w|][1] != w[1];
          } else if 0 < i && i + |w| <= |t| {
            assert t[i..i + |w|][0] != w[0];
          }
        }
        ContainsIffOccurs(t, w);
      } else {
        FirstCharAbsent(t, w);
      }
    }
    forall k | 0 <= k < |Negatives|
      ensures !Contains(t, Negatives[k])
    {
      FirstCharAbsent(t, Negatives[k]);
    }
  }

  lemma ContainsIfOccurs(s: string, w: string, i: int)
    requires OccursAt(s, w, i)
    ensures Contains(s, w)
  {
    ContainsIffOccurs(s, w);
  }

  /** No affirmative starts with a character of `t`, so none occurs in it. */
  lemma NoAffirmativeIn(t: string)
    requires forall i :: 0 <= i < |t| ==> t[i] !in {'y', 'c', 'ह', 'स', 'ब', 'h'}
    ensures !MentionsAny(t, Affirmatives)
  {
    forall k | 0 <= k < |Affirmatives|
      ensures !Contains(t, Affirmatives[k])
    {
      FirstCharAbsent(t, Affirmatives[k]);
    }
  }
}
