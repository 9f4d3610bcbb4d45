/** The JSON shapes that cross the HTTP boundary between the browser and the
    backend service. */
module Wire {

  /** One chat message, `{ role, content }`. */
  datatype Message = Message(role: string, content: string)

  /** The `/predict` response body as the browser reads it:
      `{ category, confidence, skills }`. */
  datatype AnalysisResult = AnalysisResult(category: string, confidence: real, skills: seq<string>)
}
