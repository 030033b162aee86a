/** The records and string enumerations shared by the form, the prompt
    builder and the session. Each enumeration keeps the empty member `''`
    where the declaration has one. */
module Types {

  /** `'web' | 'mobile' | 'both' | ''`. */
  datatype Platform = NoPlatform | Web | MobilePlatform | Both

  /** `'' | 'none' | 'classic' | 'react' | 'vue' | 'mobile'`. */
  datatype TechStack = NoStack | NoneStack | Classic | React | Vue | MobileStack

  /** `'frontend' | 'fullstack'` (no empty member). */
  datatype PrdScope = Frontend | Fullstack

  /** `'single' | 'separate' | ''`. */
  datatype VanillaStructure = Single | Separate | NoStructure

  datatype CustomTechStack = CustomTechStack(frontend: string, backend: string, database: string, deployment: string)

  /** The custom stack with all four fields blank, as the form starts and resets it. */
  const EmptyCustomStack := CustomTechStack("", "", "", "")

  datatype PrdInput = PrdInput(
    idea: string,
    platform: Platform,
    scope: PrdScope,
    features: string,
    audience: string,
    techStack: TechStack,
    customTechStack: CustomTechStack,
    vanillaStructure: VanillaStructure,
    monetization: string,
    successMetrics: string)

  datatype PrdHistoryItem = PrdHistoryItem(id: string, title: string, content: string, date: int, preview: string)

  /** The string a platform value interpolates to; only the empty member is falsy. */
  function PlatformText(p: Platform): (r: string)
    ensures r == "" <==> p == NoPlatform
  {
    match p
    case NoPlatform => ""
    case Web => "web"
    case MobilePlatform => "mobile"
    case Both => "both"
  }

  /** Distinct platforms interpolate to distinct strings. */
  lemma PlatformTextInjective(p: Platform, q: Platform)
    requires PlatformText(p) == PlatformText(q)
    ensures p == q
  {
  }

  /** A thrown value: an `Error` with its message, or anything else. */
  datatype Thrown = ErrorValue(message: string) | OtherValue

  /** A value that may be absent: JavaScript's `null` or `undefined`. */
  datatype Option<T> = None | Some(value: T)
}
