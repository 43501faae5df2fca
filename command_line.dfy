/**
 * The tokenising step of both programs' input loop: each line read is
 * stripped of surrounding whitespace and split on single spaces,
 * `line.strip().split(' ')`.
 */
module CommandLine {
  import opened PyStr

  function Tokenise(line: string): (tokens: seq<string>)
    ensures |tokens| >= 1
  {
    Split(Strip(line))
  }

  /**
   * A line whose words are separated by single spaces tokenises to those
   * words, whatever whitespace surrounds it; the words joined back with
   * spaces give the stripped line.
   */
  lemma TokeniseWords(front: string, words: seq<string>, back: string)
    requires AllSpace(front) && AllSpace(back)
    requires |words| >= 1 && forall i | 0 <= i < |words| :: ' ' !in words[i]
    requires Join(words) == [] || (!IsSpace(Join(words)[0]) && !IsSpace(Join(words)[|Join(words)| - 1]))
    ensures Tokenise(front + Join(words) + back) == words
  {
    StripPadded(front, Join(words), back);
    SplitJoin(words);
  }

  /** Joining the tokens with single spaces gives back the stripped line. */
  lemma TokeniseJoin(line: string)
    ensures Join(Tokenise(line)) == Strip(line)
  {
    JoinSplit(Strip(line));
  }

  /** A blank line becomes the single empty token, never an empty list. */
  lemma TokeniseBlank(line: string)
    requires AllSpace(line)
    ensures Tokenise(line) == [""]
  {
    StripBlank(line);
    SplitEmpty();
  }
}
