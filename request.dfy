/**
 * The `contents` list sent with each question: the seed request, the seed
 * response as a model message, every earlier turn as a user message and a
 * model message, and the new question as a user message.
 */
module Request {
  import opened Turns

  datatype Role = User | Model

  /**
   * One element of `contents`: the seed request exactly as it was stored, or a
   * message `{ role, parts: [{ text }] }` with a single text part.
   */
  datatype ApiContent<P> = SeedRequest(payload: P) | Message(role: Role, text: string)

  /** The messages for the earlier turns: for each turn, its question from the user and its answer from the model. */
  function History<P>(turns: seq<Turn>): (h: seq<ApiContent<P>>)
    decreases |turns|
  {
    if turns == [] then [] else
      var n := |turns| - 1;
      History(turns[..n]) + [Message(User, turns[n].question), Message(Model, turns[n].answer)]
  }

  /** `History` holds two messages per turn, the question's at 2k and the answer's at 2k+1. */
  lemma {:induction false} HistoryAt<P>(turns: seq<Turn>, k: nat)
    requires k < |turns|
    ensures |History<P>(turns)| == 2 * |turns|
    ensures History<P>(turns)[2 * k] == Message(User, turns[k].question)
    ensures History<P>(turns)[2 * k + 1] == Message(Model, turns[k].answer)
    decreases |turns|
  {
    var n := |turns| - 1;
    HistoryLength<P>(turns[..n]);
    if k < n {
      HistoryAt<P>(turns[..n], k);
      assert turns[..n][k] == turns[k];
    }
  }

  lemma {:induction false} HistoryLength<P>(turns: seq<Turn>)
    ensures |History<P>(turns)| == 2 * |turns|
    decreases |turns|
  {
    if turns != [] {
      HistoryLength<P>(turns[..|turns| - 1]);
    }
  }

  /** The full `contents` list for `question` after the turns so far. */
  function RequestContents<P>(seed: SeedResult<P>, turns: seq<Turn>, question: string): seq<ApiContent<P>>
  {
    [SeedRequest(seed.requestApiContent), Message(Model, seed.responseContent)]
    + History(turns) + [Message(User, question)]
  }

  /**
   * The shape of `contents`: 2·|turns| + 3 elements, the seed request first,
   * the seed response second, each turn's question and answer at 2k+2 and
   * 2k+3, and the new question last.
   */
  lemma RequestContentsShape<P>(seed: SeedResult<P>, turns: seq<Turn>, question: string)
    ensures var c := RequestContents(seed, turns, question);
      && |c| == 2 * |turns| + 3
      && c[0] == SeedRequest(seed.requestApiContent)
      && c[1] == Message(Model, seed.responseContent)
      && c[|c| - 1] == Message(User, question)
      && forall k :: 0 <= k < |turns| ==>
           c[2 * k + 2] == Message(User, turns[k].question) && c[2 * k + 3] == Message(Model, turns[k].answer)
  {
    var c := RequestContents(seed, turns, question);
    HistoryLength<P>(turns);
    forall k | 0 <= k < |turns|
      ensures c[2 * k + 2] == Message(User, turns[k].question) && c[2 * k + 3] == Message(Model, turns[k].answer)
    {
      HistoryAt<P>(turns, k);
    }
  }

  /** The role a message at index `i >= 1` of `contents` must have: model at odd indices, user at even ones. */
  function RoleAt(i: nat): Role
  {
    if i % 2 == 1 then Model else User
  }

  /**
   * After the seed request every element is a message, the roles alternate
   * starting with the model, and the list ends with a user message.
   */
  lemma RolesAlternate<P>(seed: SeedResult<P>, turns: seq<Turn>, question: string)
    ensures var c := RequestContents(seed, turns, question);
      && (forall i :: 1 <= i < |c| ==> c[i].Message? && c[i].role == RoleAt(i))
      && c[|c| - 1].role == User
  {
    var c := RequestContents(seed, turns, question);
    RequestContentsShape(seed, turns, question);
    forall i | 1 <= i < |c| ensures c[i].Message? && c[i].role == RoleAt(i) {
      if 2 <= i < |c| - 1 {
        var k := (i - 2) / 2;
        assert 0 <= k < |turns|;
        if i == 2 * k + 2 {
          assert c[2 * k + 2] == Message(User, turns[k].question);
          assert i % 2 == 0;
        } else {
          assert i == 2 * k + 3;
          assert c[2 * k + 3] == Message(Model, turns[k].answer);
          assert i % 2 == 1;
        }
      }
    }
  }

  /**
   * The request builder of the question handler: push the seed request and the
   * seed response, then each earlier turn's question and answer, then the new question.
   */
  method BuildRequestContents<P>(seed: SeedResult<P>, turns: seq<Turn>, question: string)
    returns (apiContents: seq<ApiContent<P>>)
    ensures apiContents == RequestContents(seed, turns, question)
  {
    apiContents := [];
    apiContents := apiContents + [SeedRequest(seed.requestApiContent)];
    apiContents := apiContents + [Message(Model, seed.responseContent)];
    var i := 0;
    while i < |turns|
      invariant 0 <= i <= |turns|
      invariant apiContents == [SeedRequest(seed.requestApiContent), Message(Model, seed.responseContent)] + History(turns[..i])
    {
      assert turns[..i + 1][..i] == turns[..i];
      apiContents := apiContents + [Message(User, turns[i].question)];
      apiContents := apiContents + [Message(Model, turns[i].answer)];
      i := i + 1;
    }
    assert turns[..|turns|] == turns;
    apiContents := apiContents + [Message(User, question)];
  }
}
