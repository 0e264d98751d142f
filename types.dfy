/** Value types of the Sarthi onboarding wizard: the screens, the languages,
    the profile that the wizard accumulates, saved runs, matched schemes and
    chat messages. */
module Types {

  datatype Option<+T> = None | Some(value: T) {
    /** The value, or `default` when absent (the `x || default` idiom). */
    function GetOr(default: T): T {
      match this
      case Some(v) => v
      case None => default
    }
  }

  /** The three interface languages. */
  datatype AppLanguage = Hindi | Marathi | English

  /** The five screens of the wizard. */
  datatype AppStep = LanguageSelection | IdUpload | Questionnaire | Results | Profile

  /** A text in each interface language. */
  datatype Localized = Localized(hindi: string, marathi: string, english: string) {
    function In(lang: AppLanguage): string {
      match lang
      case Hindi => hindi
      case Marathi => marathi
      case English => english
    }
  }

  /** Every field is optional: `None` means the key is absent from the record. */
  datatype UserProfile = UserProfile(
    name: Option<string>,
    age: Option<int>,
    gender: Option<string>,
    location: Option<string>,
    income: Option<string>,
    occupation: Option<string>,
    category: Option<string>,
    idType: Option<string>)

  /** The profile `{}`. */
  const EmptyProfile := UserProfile(None, None, None, None, None, None, None, None)

  /** A web citation attached to a scheme or to a chat answer. */
  datatype Source = Source(title: string, uri: string)

  /** A scheme as returned by the matcher, with its citations. */
  datatype Scheme = Scheme(
    id: string,
    title: string,
    titleLocal: string,
    description: string,
    benefit: string,
    matchPercentage: int,
    nextSteps: seq<string>,
    department: string,
    sources: seq<Source>)

  /** One completed run kept in the device history. */
  datatype SavedProcess = SavedProcess(id: string, date: string, profile: UserProfile, schemes: seq<Scheme>)

  datatype Role = User | Assistant

  datatype ChatMessage = ChatMessage(role: Role, content: string)
}
