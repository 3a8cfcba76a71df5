/** The record shapes of an analysis, as the UI components consume them. */
module Types {

  /** One celebrity lookalike. `similarity` is a JavaScript number on which no
      arithmetic is done; it is kept as an opaque real. */
  datatype CelebrityMatch = CelebrityMatch(
    name: string,
    similarity: real,
    reason: string,
    angle: string,
    imageUrl: string)

  /** The three free-text parts of the facial-proportion reading. */
  datatype FacialAnalysis = FacialAnalysis(fortune: string, health: string, makeup: string)

  datatype AnalysisResult = AnalysisResult(
    celebrityMatches: seq<CelebrityMatch>,
    facialAnalysis: FacialAnalysis)
}
