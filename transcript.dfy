/** The text the copy button puts on the clipboard. */
module Transcript {
  import opened Text
  import opened Turns

  /** One piece of the transcript: the text without its trailing line feeds, then a blank line. */
  function Piece(s: string): string
  {
    StripTrailingNewlines(s) + "\n\n"
  }

  /**
   * The transcript of a conversation: the seed response's piece, then, turn by
   * turn in order, the question's piece and the answer's piece.
   */
  function Transcript(seed: string, turns: seq<Turn>): string
    decreases |turns|
  {
    if turns == [] then
      Piece(seed)
    else
      var n := |turns| - 1;
      Transcript(seed, turns[..n]) + Piece(turns[n].question) + Piece(turns[n].answer)
  }

  /**
   * The transcript starts with the seed response stripped of its trailing line
   * feeds and a blank line, and it always ends in a blank line.
   */
  lemma TranscriptShape(seed: string, turns: seq<Turn>)
    ensures StripTrailingNewlines(seed) + "\n\n" <= Transcript(seed, turns)
    ensures var r := Transcript(seed, turns); |r| >= 2 && r[|r| - 2..] == "\n\n"
  {
    var r := Transcript(seed, turns);
    if turns == [] {
    } else {
      var n := |turns| - 1;
      var a := Piece(turns[n].answer);
      assert r[|r| - 2..] == a[|a| - 2..];
      TranscriptExtends(seed, [], turns);
      assert [] + turns == turns;
    }
  }

  /** A later turn adds its question's piece and its answer's piece at the end. */
  lemma TranscriptAppend(seed: string, turns: seq<Turn>, t: Turn)
    ensures Transcript(seed, turns + [t])
         == Transcript(seed, turns) + Piece(t.question) + Piece(t.answer)
  {
    assert (turns + [t])[..|turns|] == turns;
  }

  /** Adding turns never changes the transcript built so far. */
  lemma {:induction false} TranscriptExtends(seed: string, turns: seq<Turn>, more: seq<Turn>)
    ensures Transcript(seed, turns) <= Transcript(seed, turns + more)
    decreases |more|
  {
    if more != [] {
      var n := |more| - 1;
      TranscriptExtends(seed, turns, more[..n]);
      assert turns + more == (turns + more[..n]) + [more[n]];
      TranscriptAppend(seed, turns + more[..n], more[n]);
    } else {
      assert turns + more == turns;
    }
  }

  /**
   * The pieces in order: the seed response, then question and answer of each
   * turn. Joining them is the transcript (`TranscriptIsJoinedPieces`).
   */
  function Pieces(seed: string, turns: seq<Turn>): (ps: seq<string>)
    ensures |ps| == 2 * |turns| + 1 && ps[0] == seed
    ensures forall k :: 0 <= k < |turns| ==> ps[2 * k + 1] == turns[k].question && ps[2 * k + 2] == turns[k].answer
    decreases |turns|
  {
    if turns == [] then
      [seed]
    else
      var n := |turns| - 1;
      var prev := Pieces(seed, turns[..n]);
      assert forall k :: 0 <= k < n ==> turns[..n][k] == turns[k];
      prev + [turns[n].question, turns[n].answer]
  }

  /** Each string's piece, concatenated in order. */
  function Join(ps: seq<string>): string
  {
    if ps == [] then "" else Join(ps[..|ps| - 1]) + Piece(ps[|ps| - 1])
  }

  /** The transcript is the concatenation, in order, of the pieces of the seed and of every turn. */
  lemma {:induction false} TranscriptIsJoinedPieces(seed: string, turns: seq<Turn>)
    ensures Transcript(seed, turns) == Join(Pieces(seed, turns))
    decreases |turns|
  {
    if turns == [] {
      assert Join([seed]) == Join([]) + Piece(seed);
    } else {
      var n := |turns| - 1;
      TranscriptIsJoinedPieces(seed, turns[..n]);
      var prev := Pieces(seed, turns[..n]);
      var ps := Pieces(seed, turns);
      assert ps == prev + [turns[n].question, turns[n].answer];
      assert ps[..|ps| - 1] == prev + [turns[n].question];
      assert (prev + [turns[n].question])[..|prev|] == prev;
    }
  }

  /**
   * The copy handler: start from the seed response's piece and add, turn by
   * turn, the question's piece and then the answer's piece.
   */
  method BuildTranscript(seed: string, turns: seq<Turn>) returns (content: string)
    ensures content == Transcript(seed, turns)
  {
    content := StripTrailingNewlines(seed) + "\n\n";
    var i := 0;
    while i < |turns|
      invariant 0 <= i <= |turns|
      invariant content == Transcript(seed, turns[..i])
    {
      TranscriptAppend(seed, turns[..i], turns[i]);
      assert turns[..i + 1] == turns[..i] + [turns[i]];
      content := content + (StripTrailingNewlines(turns[i].question) + "\n\n");
      content := content + (StripTrailingNewlines(turns[i].answer) + "\n\n");
      i := i + 1;
    }
    assert turns[..|turns|] == turns;
  }
}
