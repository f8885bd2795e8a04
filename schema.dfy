/**
 * The request types of the generate handler and the service configuration.
 * The enumerations are string literal types in the service; a request
 * carrying any other string is refused by request validation before the
 * handler runs.
 */
module Schema {
  import opened Wrappers

  datatype UserType = Parent | Founder | Other
  datatype Level = High | Medium | Low
  datatype YesNo = Yes | No

  function UserTypeName(u: UserType): string {
    match u
    case Parent => "Parent"
    case Founder => "Founder"
    case Other => "Other"
  }

  function LevelName(l: Level): string {
    match l
    case High => "High"
    case Medium => "Medium"
    case Low => "Low"
  }

  function YesNoName(y: YesNo): string {
    match y
    case Yes => "Yes"
    case No => "No"
  }

  /** Literal validation: accepts exactly the three user type names. */
  function ParseUserType(s: string): (r: Option<UserType>)
    ensures r.Some? ==> UserTypeName(r.value) == s
    ensures r.None? ==> forall u :: UserTypeName(u) != s
  {
    if s == "Parent" then Some(Parent)
    else if s == "Founder" then Some(Founder)
    else if s == "Other" then Some(Other)
    else None
  }

  /** Literal validation: accepts exactly the three level names. */
  function ParseLevel(s: string): (r: Option<Level>)
    ensures r.Some? ==> LevelName(r.value) == s
    ensures r.None? ==> forall l :: LevelName(l) != s
  {
    if s == "High" then Some(High)
    else if s == "Medium" then Some(Medium)
    else if s == "Low" then Some(Low)
    else None
  }

  /** Literal validation: accepts exactly "Yes" and "No". */
  function ParseYesNo(s: string): (r: Option<YesNo>)
    ensures r.Some? ==> YesNoName(r.value) == s
    ensures r.None? ==> forall y :: YesNoName(y) != s
  {
    if s == "Yes" then Some(Yes)
    else if s == "No" then Some(No)
    else None
  }

  /** Every enumeration value's name parses back to that value. */
  lemma NamesRoundTrip(u: UserType, l: Level, y: YesNo)
    ensures ParseUserType(UserTypeName(u)) == Some(u)
    ensures ParseLevel(LevelName(l)) == Some(l)
    ensures ParseYesNo(YesNoName(y)) == Some(y)
  {
  }

  /** A validated generate request; the three context signals have defaults. */
  datatype ExperienceInput = ExperienceInput(
    accessCode: string,
    userType: UserType,
    scenario: string,
    rawExperience: string,
    timePressure: Level := Medium,
    emotionIntensity: Level := Medium,
    irreversible: YesNo := No)

  /** Settings read from the environment at start-up. */
  datatype Config = Config(accessCode: string, modelName: string, maxOutputTokens: int)

  /** The values used when the environment does not set them. */
  const DefaultConfig: Config := Config("IDEATEST", "gpt-4o-mini", 420)
}
