/** The scheme chat: its greeting, the reply of the conversational service
    and the web citations kept from that reply. */
module Chat {
  import opened Types
  import opened Strings

  /** The English greeting up to the scheme's title. */
  const EnglishOpening := "Hello!" + " I am your Sarthi Agent. What would you like to know about "

  /** The assistant's first message: localised, naming the scheme by its
      local title in Hindi and Marathi and by its English title in English. */
  function Greeting(lang: AppLanguage, scheme: Scheme): (r: string)
    ensures |r| > 0 && r[|r| - 1] == '?'
    ensures lang == English <==> StartsWith(r, "Hello!")
  {
    match lang
    case Marathi =>
      var r := "नमस्ते! मी तुमचा सार्थी आहे. " + scheme.titleLocal + " बद्दल तुम्हाला काय माहिती हवी आहे?";
      assert r[0] != 'H';
      r
    case Hindi =>
      var r := "नमस्ते! मैं आपका सारथी हूँ। " + scheme.titleLocal + " के बारे में आप क्या जानना चाहते हैं?";
      assert r[0] != 'H';
      r
    case English =>
      var r := EnglishOpening + scheme.title + "?";
      assert r[..6] == "Hello!";
      r
  }

  /** The title a greeting names. */
  function GreetedTitle(lang: AppLanguage, scheme: Scheme): string {
    if lang == English then scheme.title else scheme.titleLocal
  }

  /** The greeting mentions the scheme under the title for the interface language. */
  lemma GreetingNamesScheme(lang: AppLanguage, scheme: Scheme)
    ensures Contains(Greeting(lang, scheme), GreetedTitle(lang, scheme))
  {
    var t := GreetedTitle(lang, scheme);
    ContainsIffOccurs(t, t);
    assert OccursAt(t, t, 0);
    match lang
    case Marathi =>
      ContainsInfix("नमस्ते! मी तुमचा सार्थी आहे. ", t, " बद्दल तुम्हाला काय माहिती हवी आहे?", t);
    case Hindi =>
      ContainsInfix("नमस्ते! मैं आपका सारथी हूँ। ", t, " के बारे में आप क्या जानना चाहते हैं?", t);
    case English =>
      ContainsInfix(EnglishOpening, t, "?", t);
  }

  /** The assistant message appended when a chat turn fails. */
  const ChatErrorMessage := "Error communicating with AI."

  /** One grounding chunk of a reply; only chunks with a web part are kept. */
  datatype GroundingChunk = GroundingChunk(web: Option<Source>)

  /** The outcome of the request of one chat turn: the service answered (its
      text and grounding chunks, each absent when not sent), or the call failed. */
  datatype ChatReply =
    | Answered(text: Option<string>, chunks: Option<seq<GroundingChunk>>)
    | RequestFailed

  /** `chunks.filter(c => c.web).map(c => c.web)`: the web citations, in the order given. */
  function WebSources(chunks: seq<GroundingChunk>): (r: seq<Source>)
    ensures |r| <= |chunks|
    ensures forall x :: x in r ==> exists i :: 0 <= i < |chunks| && chunks[i].web == Some(x)
    ensures forall i :: 0 <= i < |chunks| && chunks[i].web.Some? ==> chunks[i].web.value in r
    ensures (forall i :: 0 <= i < |chunks| ==> chunks[i].web.Some?) ==> |r| == |chunks|
  {
    if chunks == [] then []
    else
      var rest := WebSources(chunks[1..]);
      assert forall i :: 1 <= i < |chunks| ==> chunks[i] == chunks[1..][i - 1];
      match chunks[0].web
      case Some(s) => [s] + rest
      case None => rest
  }

  /** Filtering respects concatenation, so citations keep the order of the chunks. */
  lemma {:induction false} WebSourcesAppend(a: seq<GroundingChunk>, b: seq<GroundingChunk>)
    ensures WebSources(a + b) == WebSources(a) + WebSources(b)
    decreases |a|
  {
    if a == [] {
      assert a + b == b;
    } else {
      assert (a + b)[1..] == a[1..] + b;
      WebSourcesAppend(a[1..], b);
    }
  }
}
