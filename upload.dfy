/** ID-document upload: the base64 payload taken from the data URL, the
    outcome of the extraction service and how extracted fields are merged
    into the profile. */
module Upload {
  import opened Types

  /** The position of the first `c` in `s`. */
  function IndexOf(s: string, c: char): (r: Option<nat>)
    ensures r.None? <==> c !in s
    ensures r.Some? ==> r.value < |s| && s[r.value] == c && c !in s[..r.value]
  {
    if s == [] then None
    else if s[0] == c then Some(0)
    else
      match IndexOf(s[1..], c)
      case None => None
      case Some(i) =>
        assert s[..i + 1] == [s[0]] + s[1..][..i];
        Some(i + 1)
  }

  /** `dataUrl.split(',')[1]`: the text between the first comma and the next
      one (or the end); absent when there is no comma at all. */
  function Payload(dataUrl: string): (r: Option<string>)
    ensures r.Some? <==> ',' in dataUrl
    ensures r.Some? ==> ',' !in r.value
  {
    match IndexOf(dataUrl, ',')
    case None => None
    case Some(i) =>
      var rest := dataUrl[i + 1..];
      match IndexOf(rest, ',')
      case None => Some(rest)
      case Some(j) => Some(rest[..j])
  }

  /** `Payload` picks out `mid` in `pre + "," + mid + post` when `pre` and
      `mid` hold no comma and `post` is empty or starts with one. */
  lemma PayloadSplit(pre: string, mid: string, post: string)
    requires ',' !in pre && ',' !in mid
    requires post == [] || post[0] == ','
    ensures Payload(pre + [','] + mid + post) == Some(mid)
  {
    var s := pre + [','] + mid + post;
    assert s[|pre|] == ',' && s[..|pre|] == pre;
    var i := IndexOf(s, ',').value;
    assert i == |pre|;
    var rest := s[i + 1..];
    assert rest == mid + post;
    if post == [] {
      assert rest == mid;
    } else {
      assert rest[|mid|] == ',' && rest[..|mid|] == mid;
    }
  }

  /** Round trip with the reader's data URL: the base64 text comes back unchanged. */
  lemma DataUrlPayload(mimeType: string, base64: string)
    requires ',' !in mimeType && ',' !in base64
    ensures Payload("data:" + mimeType + ";base64," + base64) == Some(base64)
  {
    var pre := "data:" + mimeType + ";base64";
    assert ',' !in pre by {
      assert forall k :: 0 <= k < |pre| ==> pre[k] != ',' by {
        forall k | 0 <= k < |pre| ensures pre[k] != ',' {
          if 5 <= k < 5 + |mimeType| {
            assert pre[k] == mimeType[k - 5];
          }
        }
      }
    }
    assert "data:" + mimeType + ";base64," + base64 == pre + [','] + base64 + [];
    PayloadSplit(pre, base64, []);
  }

  /** What the extraction service reported for one document: a document it
      rejected, the fields it read (with its detection labels, absent when it
      sent none), or a failure of the call itself. */
  datatype ExtractOutcome =
    | Rejected
    | Extracted(fields: UserProfile, labels: Option<seq<string>>)
    | ExtractionFailed

  const VisionSystemError := "Vision System Error."

  /** The message for a rejected document: Marathi for Marathi, English otherwise. */
  function InvalidDocumentMessage(lang: AppLanguage): (r: string)
    ensures lang != Marathi <==> r == "Invalid document. Please try again."
  {
    if lang == Marathi then "अवैध दस्तऐवज. कृपया पुन्हा प्रयत्न करा."
    else "Invalid document. Please try again."
  }

  /** `{ ...prev, ...data }`: every field the extraction supplies replaces the
      old one; every field it leaves absent keeps the old value. */
  function Merge(prev: UserProfile, data: UserProfile): (r: UserProfile)
    ensures data.name.Some? ==> r.name == data.name
    ensures data.name.None? ==> r.name == prev.name
    ensures data.age.Some? ==> r.age == data.age
    ensures data.age.None? ==> r.age == prev.age
    ensures data.gender.Some? ==> r.gender == data.gender
    ensures data.gender.None? ==> r.gender == prev.gender
    ensures data.location.Some? ==> r.location == data.location
    ensures data.location.None? ==> r.location == prev.location
    ensures data.income.Some? ==> r.income == data.income
    ensures data.income.None? ==> r.income == prev.income
    ensures data.occupation.Some? ==> r.occupation == data.occupation
    ensures data.occupation.None? ==> r.occupation == prev.occupation
    ensures data.category.Some? ==> r.category == data.category
    ensures data.category.None? ==> r.category == prev.category
    ensures data.idType.Some? ==> r.idType == data.idType
    ensures data.idType.None? ==> r.idType == prev.idType
  {
    UserProfile(
      Over(prev.name, data.name),
      Over(prev.age, data.age),
      Over(prev.gender, data.gender),
      Over(prev.location, data.location),
      Over(prev.income, data.income),
      Over(prev.occupation, data.occupation),
      Over(prev.category, data.category),
      Over(prev.idType, data.idType))
  }

  function Over<T>(previous: Option<T>, supplied: Option<T>): Option<T> {
    if supplied.Some? then supplied else previous
  }

  /** Merging into the empty profile gives the extracted fields. */
  lemma MergeIntoEmpty(data: UserProfile)
    ensures Merge(EmptyProfile, data) == data
  {
  }

  /** Merging the same extraction twice changes nothing the second time. */
  lemma MergeIdempotent(prev: UserProfile, data: UserProfile)
    ensures Merge(Merge(prev, data), data) == Merge(prev, data)
  {
  }

  /** Two merges in a row equal one merge of the combined extraction. */
  lemma MergeAssociative(p: UserProfile, a: UserProfile, b: UserProfile)
    ensures Merge(Merge(p, a), b) == Merge(p, Merge(a, b))
  {
  }
}
