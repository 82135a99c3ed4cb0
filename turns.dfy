/** The records the results page keeps: one question/answer turn, and the seed result. */
module Turns {

  /** One entry of the page's conversation history. */
  datatype Turn = Turn(question: string, answer: string)

  /**
   * The result the conversation continues from, restored once from session
   * storage: the request content originally sent (opaque here, of type `P`)
   * and the response text that came back.
   */
  datatype SeedResult<P> = SeedResult(requestApiContent: P, responseContent: string)
}
