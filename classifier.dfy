/**
 * How the question handler turns the API response into the answer text,
 * first match wins: an HTTP error, a blocked prompt, a blocked response,
 * generated content, or an unexpected shape. The parts of the response the
 * handler reads are modelled field by field. An object-valued field that is
 * absent is `None`; a null one behaves the same way in every access the
 * handler makes, so `None` stands for both. The string fields the handler
 * prints or compares are a `JsString`, which tells undefined from null.
 */
module Classifier {
  import opened Wrappers

  /** A string-valued JSON field: absent (undefined), null, or a string. */
  datatype JsString = Undefined | Null | Str(value: string)

  datatype Part = Part(text: string)
  datatype Content = Content(parts: seq<Part>)
  datatype Candidate = Candidate(finishReason: JsString, content: Option<Content>)
  datatype PromptFeedback = PromptFeedback(blockReason: JsString)
  datatype ErrorInfo = ErrorInfo(message: JsString)
  datatype Body = Body(error: Option<ErrorInfo>, promptFeedback: Option<PromptFeedback>,
                       candidates: Option<seq<Candidate>>)

  /**
   * The value the API client returns: whether the HTTP status was a success,
   * the status as a template literal prints it, and the parsed body.
   */
  datatype Response = Response(ok: bool, status: string, body: Body)

  /** The localized strings the classifier uses. */
  datatype Messages = Messages(promptBlocked: string, responseBlocked: string, unexpectedResponse: string)

  /** Which branch of the decision produced the answer, with the data it quotes. */
  datatype Verdict =
    | HttpError(status: string, message: string)
    | PromptBlocked(reason: string)
    | ResponseBlocked(reason: string)
    | Generated(text: string)
    | Unexpected

  /** The property accesses on a missing value that throw a `TypeError`. */
  datatype Fault =
    | NoCandidates        // `candidates` absent: the blocked branch reads `candidates[0]`
    | EmptyCandidates     // `candidates` empty: `candidates?.[0].finishReason` reads a field of undefined
    | EmptyParts          // `content.parts` empty: `parts[0].text` reads a field of undefined
    | NoErrorObject       // a failed response without `error`: `error.message` reads a field of undefined

  datatype Outcome<T> = Done(value: T) | TypeError(fault: Fault)

  /** How a template literal prints a string field: "undefined", "null" or the string itself. */
  function Show(j: JsString): string
  {
    match j
    case Undefined => "undefined"
    case Null => "null"
    case Str(s) => s
  }

  /** Truthiness of a string field: a non-empty string. */
  predicate Truthy(j: JsString) {
    j.Str? && j.value != ""
  }

  /** `response.body.promptFeedback?.blockReason`. */
  function BlockReason(b: Body): JsString {
    match b.promptFeedback
    case None => Undefined
    case Some(f) => f.blockReason
  }

  /**
   * The decision of lines 63-82 of the question handler. A failed response
   * yields an HTTP error or throws for want of an `error` object; a successful
   * one never yields an HTTP error.
   */
  function Classify(r: Response): (o: Outcome<Verdict>)
    ensures !r.ok <==> (o == TypeError(NoErrorObject) || (o.Done? && o.value.HttpError?))
  {
    if r.ok then
      if Truthy(BlockReason(r.body)) then
        Done(PromptBlocked(BlockReason(r.body).value))
      else
        match r.body.candidates
        case None => TypeError(NoCandidates)
        case Some(cs) =>
          if cs == [] then TypeError(EmptyCandidates)
          else if cs[0].finishReason != Str("STOP") then Done(ResponseBlocked(Show(cs[0].finishReason)))
          else
            match cs[0].content
            case None => Done(Unexpected)
            case Some(c) => if c.parts == [] then TypeError(EmptyParts) else Done(Generated(c.parts[0].text))
    else
      match r.body.error
      case None => TypeError(NoErrorObject)
      case Some(e) => Done(HttpError(r.status, Show(e.message)))
  }

  /**
   * The answer text each verdict becomes: an error names its status first and
   * ends with the provider's message; a block starts with the localized
   * explanation and ends with the reason.
   */
  function Render(v: Verdict, m: Messages): (r: string)
    ensures v.HttpError? ==>
      |r| >= 7 + |v.status| + |v.message| && r[..7 + |v.status|] == "Error: " + v.status && r[|r| - |v.message|..] == v.message
    ensures v.PromptBlocked? ==>
      |r| >= |m.promptBlocked| + |v.reason| && r[..|m.promptBlocked|] == m.promptBlocked && r[|r| - |v.reason|..] == v.reason
    ensures v.ResponseBlocked? ==>
      |r| >= |m.responseBlocked| + |v.reason| && r[..|m.responseBlocked|] == m.responseBlocked && r[|r| - |v.reason|..] == v.reason
  {
    match v
    case HttpError(status, message) => "Error: " + status + "\n\n" + message
    case PromptBlocked(reason) => m.promptBlocked + " Reason: " + reason
    case ResponseBlocked(reason) => m.responseBlocked + " Reason: " + reason
    case Generated(text) => text
    case Unexpected => m.unexpectedResponse
  }

  /**
   * The answer the question handler records for a response, or the fault that
   * aborts it. A failed response with an `error` object yields "Error: ", the
   * status, a blank line and the printed message, whatever the rest of the body
   * holds; a successful one with a block reason yields the prompt-blocked text
   * and the reason, whatever `candidates` holds. Otherwise a first candidate that
   * finished with "STOP" yields the text of its content's first part, or the
   * unexpected-response text when it has no content.
   */
  function Answer(r: Response, m: Messages): (o: Outcome<string>)
    ensures !r.ok && r.body.error.Some? ==>
      o == Done("Error: " + r.status + "\n\n" + Show(r.body.error.value.message))
    ensures r.ok && Truthy(BlockReason(r.body)) ==>
      o == Done(m.promptBlocked + " Reason: " + BlockReason(r.body).value)
    ensures && r.ok && !Truthy(BlockReason(r.body))
            && r.body.candidates.Some? && |r.body.candidates.value| > 0
            && r.body.candidates.value[0].finishReason == Str("STOP")
            && r.body.candidates.value[0].content.Some?
            && |r.body.candidates.value[0].content.value.parts| > 0 ==>
      o == Done(r.body.candidates.value[0].content.value.parts[0].text)
    ensures && r.ok && !Truthy(BlockReason(r.body))
            && r.body.candidates.Some? && |r.body.candidates.value| > 0
            && r.body.candidates.value[0].finishReason == Str("STOP")
            && r.body.candidates.value[0].content.None? ==>
      o == Done(m.unexpectedResponse)
  {
    match Classify(r)
    case TypeError(f) => TypeError(f)
    case Done(v) => Done(Render(v, m))
  }

  /** A failed response's answer depends on its status and its `error` field only. */
  lemma FailedResponseIgnoresRest(r: Response, r': Response, m: Messages)
    requires !r.ok && !r'.ok && r.status == r'.status && r.body.error == r'.body.error
    ensures Answer(r, m) == Answer(r', m)
  {
  }

  /** A successful response whose prompt was blocked is classified so, whatever `candidates` holds. */
  lemma BlockedPromptWins(r: Response)
    requires r.ok && Truthy(BlockReason(r.body))
    ensures Classify(r) == Done(PromptBlocked(BlockReason(r.body).value))
  {
  }

  /**
   * With no block reason, a first candidate that did not finish with "STOP"
   * yields the response-blocked text quoting its finish reason ("undefined" when absent, "null" when null).
   */
  lemma BlockedResponse(r: Response, m: Messages)
    requires r.ok && !Truthy(BlockReason(r.body))
    requires r.body.candidates.Some? && |r.body.candidates.value| > 0
    requires r.body.candidates.value[0].finishReason != Str("STOP")
    ensures Answer(r, m) == Done(m.responseBlocked + " Reason: " + Show(r.body.candidates.value[0].finishReason))
  {
  }

  /**
   * The "unexpected response" text comes out exactly when the response is a
   * success, nothing was blocked, the first candidate finished with "STOP" and it has no content.
   */
  lemma UnexpectedExactly(r: Response)
    ensures Classify(r) == Done(Unexpected) <==>
      && r.ok && !Truthy(BlockReason(r.body))
      && r.body.candidates.Some? && |r.body.candidates.value| > 0
      && r.body.candidates.value[0].finishReason == Str("STOP")
      && r.body.candidates.value[0].content.None?
  {
  }

  /** Generated text comes out exactly when the first part of the first candidate's content is read. */
  lemma GeneratedExactly(r: Response, text: string)
    ensures Classify(r) == Done(Generated(text)) <==>
      && r.ok && !Truthy(BlockReason(r.body))
      && r.body.candidates.Some? && |r.body.candidates.value| > 0
      && r.body.candidates.value[0].finishReason == Str("STOP")
      && r.body.candidates.value[0].content.Some?
      && |r.body.candidates.value[0].content.value.parts| > 0
      && r.body.candidates.value[0].content.value.parts[0].text == text
  {
  }

  /**
   * The handler throws exactly in these cases: a successful response with no
   * block reason and no candidates (or an empty list of them), one whose first
   * candidate's content has no parts, or a failed response without an `error` object.
   */
  lemma FaultsExactly(r: Response)
    ensures Classify(r).TypeError? <==>
      if r.ok then
        && !Truthy(BlockReason(r.body))
        && (|| r.body.candidates.None?
            || r.body.candidates.value == []
            || (&& r.body.candidates.value[0].finishReason == Str("STOP")
                && r.body.candidates.value[0].content.Some?
                && r.body.candidates.value[0].content.value.parts == []))
      else
        r.body.error.None?
  {
  }

  /** In particular a success with no block reason and no `candidates` at all throws. */
  lemma MissingCandidatesThrows(r: Response, m: Messages)
    requires r.ok && !Truthy(BlockReason(r.body)) && r.body.candidates.None?
    ensures Answer(r, m) == TypeError(NoCandidates)
  {
  }
}
