/**
 * The state of one results page: the seed result it continues from and the
 * append-only history of question/answer turns, with the handlers of the
 * copy and send buttons.
 */
module Conversation {
  import opened Wrappers
  import opened Text
  import opened Turns
  import opened Transcript
  import opened Request
  import opened Classifier

  /** A recorded question: already trimmed, and not empty. */
  predicate IsQuestion(q: string) {
    q != [] && Trim(q) == q
  }

  /** What pressing send did. */
  datatype AskOutcome<P> =
    | Ignored                                                  // the question was blank: nothing happened
    | Answered(request: seq<ApiContent<P>>, answer: string)   // the turn was recorded
    | Aborted(request: seq<ApiContent<P>>, fault: Fault)      // the handler threw before recording the turn

  class Session<P> {
    /** The result restored from session storage when the page loaded; it is never reassigned afterwards. */
    const result: SeedResult<P>
    /** The conversation so far, in submission order. */
    var turns: seq<Turn>

    /** Every recorded question is trimmed and non-empty. */
    ghost predicate Valid()
      reads this
    {
      forall k :: 0 <= k < |turns| ==> IsQuestion(turns[k].question)
    }

    /** The page after loading: the restored result and no turns yet. */
    constructor (restored: SeedResult<P>)
      ensures Valid()
      ensures result == restored && turns == []
    {
      result := restored;
      turns := [];
    }

    /**
     * The copy button: the transcript of the seed response and all turns, that
     * is, the pieces of the seed response and of each turn's question and
     * answer, joined in order. Every recorded question goes into its piece
     * verbatim, followed by a blank line.
     */
    method Copy() returns (content: string)
      requires Valid()
      ensures content == Transcript.Transcript(result.responseContent, turns)
      ensures content == Join(Pieces(result.responseContent, turns))
      ensures forall k :: 0 <= k < |turns| ==> Piece(turns[k].question) == turns[k].question + "\n\n"
    {
      content := BuildTranscript(result.responseContent, turns);
      TranscriptIsJoinedPieces(result.responseContent, turns);
      forall k | 0 <= k < |turns| ensures Piece(turns[k].question) == turns[k].question + "\n\n" {
        TrimmedNeedsNoStrip(turns[k].question);
      }
    }

    /**
     * The part of the send handler before the API call: a question that is
     * blank once trimmed builds no request; any other builds the `contents`
     * list that ends with the trimmed question.
     */
    method PrepareRequest(text: string) returns (request: Option<seq<ApiContent<P>>>)
      ensures request.None? <==> SpaceIn(text, 0, |text|)
      ensures request.Some? ==> request.value == RequestContents(result, turns, Trim(text))
    {
      var question := Trim(text);
      if question == [] {
        return None;
      }
      var contents := BuildRequestContents(result, turns, question);
      return Some(contents);
    }

    /**
     * Record an answered question: a blank question changes nothing; any other
     * appends exactly one turn holding the trimmed question and the answer, and
     * leaves the earlier turns as they were.
     */
    method Submit(text: string, answer: string)
      requires Valid()
      modifies this
      ensures Valid()
      ensures Trim(text) == [] ==> turns == old(turns)
      ensures Trim(text) != [] ==> turns == old(turns) + [Turn(Trim(text), answer)]
    {
      var question := Trim(text);
      if question == [] {
        return;
      }
      TrimIdempotent(text);
      turns := turns + [Turn(question, answer)];
    }

    /**
     * The send handler, given the response the API client returns for the
     * request: a blank question is ignored; otherwise the request is built,
     * the response classified, and the turn recorded unless the classification threw.
     */
    method Ask(text: string, response: Response, messages: Messages) returns (outcome: AskOutcome<P>)
      requires Valid()
      modifies this
      ensures Valid()
      ensures Trim(text) == [] ==> outcome == Ignored && turns == old(turns)
      ensures Trim(text) != [] ==>
        var request := RequestContents(result, old(turns), Trim(text));
        match Answer(response, messages)
        case TypeError(f) => outcome == Aborted(request, f) && turns == old(turns)
        case Done(a) => outcome == Answered(request, a) && turns == old(turns) + [Turn(Trim(text), a)]
    {
      var request := PrepareRequest(text);
      if request.None? {
        return Ignored;
      }
      var answer := Answer(response, messages);
      match answer
      case TypeError(f) =>
        outcome := Aborted(request.value, f);
      case Done(a) =>
        Submit(text, a);
        outcome := Answered(request.value, a);
    }
  }

  /** A transcript copied after a turn is recorded extends the one copied before, by that turn's two pieces. */
  lemma CopyAfterSubmit(seed: string, before: seq<Turn>, question: string, answer: string)
    requires IsQuestion(question)
    ensures Transcript.Transcript(seed, before + [Turn(question, answer)])
         == Transcript.Transcript(seed, before) + question + "\n\n" + StripTrailingNewlines(answer) + "\n\n"
  {
    TranscriptAppend(seed, before, Turn(question, answer));
    TrimmedNeedsNoStrip(question);
  }
}
