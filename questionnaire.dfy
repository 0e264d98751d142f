/** The fixed questionnaire: three questions, each bound to one profile field. */
module Questionnaire {
  import opened Types

  /** The profile fields the questionnaire fills. */
  datatype Field = Income | Occupation | Category

  datatype Question = Question(field: Field, title: Localized, options: seq<string>)

  const Questions: seq<Question> := [
    Question(Income,
      Localized("आपकी मासिक पारिवारिक आय क्या है?",
                "तुमचे मासिक कौटुंबिक उत्पन्न काय आहे?",
                "What is your monthly family income?"),
      ["Below ₹10,000", "₹10,000 - ₹25,000", "₹25,000 - ₹50,000", "Above ₹50,000"]),
    Question(Occupation,
      Localized("आपका व्यवसाय क्या है?",
                "तुमचा व्यवसाय काय है?",
                "What is your occupation?"),
      ["Farmer", "Daily Wage Worker", "Self-employed", "Other"]),
    Question(Category,
      Localized("आपकी श्रेणी क्या है?",
                "तुमची प्रवर्ग काय आहे?",
                "What is your category?"),
      ["General", "OBC", "SC", "ST"])
  ]

  /** The index of the last question. */
  const LastQuestion := |Questions| - 1

  function Get(p: UserProfile, f: Field): Option<string> {
    match f
    case Income => p.income
    case Occupation => p.occupation
    case Category => p.category
  }

  /** `{ ...profile, [field]: answer }`: the answered field holds the answer
      verbatim and every other field of the profile is kept. */
  function SetField(p: UserProfile, f: Field, answer: string): (r: UserProfile)
    ensures Get(r, f) == Some(answer)
    ensures forall g :: g != f ==> Get(r, g) == Get(p, g)
    ensures r.name == p.name && r.age == p.age && r.gender == p.gender
    ensures r.location == p.location && r.idType == p.idType
  {
    match f
    case Income => p.(income := Some(answer))
    case Occupation => p.(occupation := Some(answer))
    case Category => p.(category := Some(answer))
  }

  /** The three questions are bound to three different fields, in the order income, occupation, category. */
  lemma QuestionsCoverFields()
    ensures |Questions| == 3
    ensures Questions[0].field == Income && Questions[1].field == Occupation && Questions[2].field == Category
    ensures forall i, j :: 0 <= i < j < |Questions| ==> Questions[i].field != Questions[j].field
  {
  }

  /** Answering the three questions in order leaves all three answers, unmodified, in the profile. */
  lemma AnswersInOrder(p: UserProfile, a0: string, a1: string, a2: string)
    ensures var q := SetField(SetField(SetField(p, Questions[0].field, a0), Questions[1].field, a1), Questions[2].field, a2);
      q.income == Some(a0) && q.occupation == Some(a1) && q.category == Some(a2) &&
      q.name == p.name && q.age == p.age && q.gender == p.gender &&
      q.location == p.location && q.idType == p.idType
  {
  }
}
