/** The value types the content generator passes around: the enumerations
    of modes, frameworks, tones, pillars and languages, the brand profile and
    the content request, plus the Option and Result wrappers. */
module Types {

  datatype Option<+T> = None | Some(value: T)

  datatype Result<+R, +E> = Success(value: R) | Failure(error: E)

  /** A value of an enumerated field as it arrives at run time: either one
      of the declared members, or some other value (the type annotations of
      the front end are not checked at run time). `Unrecognised(raw)` stands
      only for a value that is not the run-time value of any declared member;
      a member's own value is always written `Known(member)`. */
  datatype Choice<+E> = Known(member: E) | Unrecognised(raw: string)

  datatype AppMode = Copywriting | Scriptwriting

  datatype Framework =
    // copywriting
    | Aida | Pas | Bab | Fab | Quest | FourP | Pastor | Freestyle
    // scriptwriting
    | HookValueCta | HeroJourney | Explainer | ProblemSolutionStory | ListicleVideo

  datatype Tone = Professional | Friendly | Urgent | Witty | Emotional | Luxury | Dramatic | Excited

  datatype ContentPillar = Educational | Promotional | Inspirational | Entertainment | BehindScenes | Community

  datatype Language = EN | MY | TH

  datatype BrandProfile = BrandProfile(
    id: string,
    name: string,
    industry: string,
    description: string,
    defaultTone: Tone,
    defaultAudience: string)

  /** The request draft; `brand` is attached by the brand-sync effect. */
  datatype ContentRequest = ContentRequest(
    mode: AppMode,
    topic: string,
    description: string,
    framework: Choice<Framework>,
    pillar: Choice<ContentPillar>,
    language: Choice<Language>,
    tone: Tone,
    targetAudience: string,
    brand: Option<BrandProfile>)

  /** The text a tone stands for when it is interpolated into a prompt. */
  function ToneValue(t: Tone): (r: string)
    ensures r != ""
  {
    match t
    case Professional => "PROFESSIONAL"
    case Friendly => "FRIENDLY"
    case Urgent => "URGENT"
    case Witty => "WITTY"
    case Emotional => "EMOTIONAL"
    case Luxury => "LUXURY"
    case Dramatic => "DRAMATIC"
    case Excited => "EXCITED"
  }

  /** The text a pillar stands for when it is interpolated into a prompt;
      a value outside the enumeration is interpolated as it is. */
  function PillarValue(p: Choice<ContentPillar>): (r: string)
    ensures p.Unrecognised? ==> r == p.raw
    ensures p.Known? ==> r != ""
  {
    match p
    case Unrecognised(raw) => raw
    case Known(Educational) => "EDUCATIONAL"
    case Known(Promotional) => "PROMOTIONAL"
    case Known(Inspirational) => "INSPIRATIONAL"
    case Known(Entertainment) => "ENTERTAINMENT"
    case Known(BehindScenes) => "BEHIND_SCENES"
    case Known(Community) => "COMMUNITY"
  }
}
