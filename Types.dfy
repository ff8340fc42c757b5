/**
 * The records shared by the controller and the analysis service (types.ts).
 * A photographer's floating-point `rating` is not modelled.
 */
module Types {

  /** An optional value: stands for TypeScript's `T | null` and `T | undefined`. */
  datatype Option<+T> = None | Some(value: T)

  /** The five screens of the application (types.ts:35-41). */
  datatype AppView = HOME | UPLOAD | RESULTS | PROFILE | BOOKING_SUCCESS

  /** A directory entry (types.ts:1-13), without its rating. */
  datatype Photographer = Photographer(
    id: string,
    name: string,
    style: string,
    description: string,
    priceRange: string,
    location: string,
    avatar: string,
    portfolio: seq<string>,
    tags: seq<string>,
    reviewCount: nat)

  /** One photographer proposed by the analysis (types.ts:15-20). */
  datatype MatchResult = MatchResult(
    photographerId: string,
    compatibilityScore: int,
    matchReason: string,
    keyElementsDetected: seq<string>)

  /** The structured analysis of a moodboard (types.ts:22-28). */
  datatype MoodboardAnalysis = MoodboardAnalysis(
    colorPalette: seq<string>,
    vibeKeywords: seq<string>,
    venueType: string,
    lightingStyle: string,
    matches: seq<MatchResult>)

  /** The loader overlay flag and the label it shows (types.ts:30-33). */
  datatype AnalysisState = AnalysisState(isAnalyzing: bool, step: string)

  /** JavaScript's `s.slice(0, n)`: the first `n` elements, or all of `s` when it is shorter. */
  function Take<F>(s: seq<F>, n: nat): (r: seq<F>)
    ensures |r| == if |s| < n then |s| else n
    ensures r == s[..|r|]
  {
    if |s| <= n then s else s[..n]
  }

  /** An encoded image as sent to the model: base64 payload and MIME type. */
  datatype InspirationImage = InspirationImage(data: string, mimeType: string)
}
