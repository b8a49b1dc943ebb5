// How both session variants read the text of a send: blank, one of the two
// command words, or a message to post. The tests run in this order.

module Commands {
  import opened Text

  datatype Command = Blank | CutCommand | ClearCommand | Post

  function Classify(text: string): Command {
    var t := Trim(text);
    if t == [] then Blank
    else if t == "cut" then CutCommand
    else if t == "clear" then ClearCommand
    else Post
  }

  /** A send is a no-op exactly when the text is all white space. */
  lemma ClassifyBlankIff(text: string)
    ensures Classify(text) == Blank <==> AllSpace(text)
  {
    BlankIffAllSpace(text);
  }

  /** The command words are recognised whatever white space surrounds them. */
  lemma ClassifyPaddedCommands(before: string, after: string)
    requires AllSpace(before) && AllSpace(after)
    ensures Classify(before + "cut" + after) == CutCommand
    ensures Classify(before + "clear" + after) == ClearCommand
  {
    TrimPadded(before, "cut", after);
    TrimPadded(before, "clear", after);
  }

  /** Only the exact command word acts as a command: a word with non-space
      ends that is neither "cut" nor "clear", under any white-space padding,
      is posted, so "cut it" and "cutter" are messages. */
  lemma ClassifyPaddedPost(before: string, w: string, after: string)
    requires AllSpace(before) && AllSpace(after)
    requires w != [] && !IsSpace(w[0]) && !IsSpace(w[|w| - 1])
    requires w != "cut" && w != "clear"
    ensures Classify(before + w + after) == Post
  {
    TrimPadded(before, w, after);
  }
}
