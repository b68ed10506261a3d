/**
  The line filters of the security-feature stripping: a line is dropped when
  it contains, as an ordinal substring, any token of the file's token list
  (`new[] { ... }.Any(line.Contains)`); every other line is kept, in order.
  A text's lines are its pieces between '\n' characters.
*/
module LineFilter {
  import opened OrdinalText

  const LineBreak: string := "\n"

  /** The lines of a text. */
  function Lines(text: string): seq<string> {
    Split(text, LineBreak)
  }

  /** The visible predicate of each filter: some listed token occurs in the line. */
  predicate ContainsAny(line: string, tokens: seq<string>) {
    exists k :: 0 <= k < |tokens| && Contains(line, tokens[k])
  }

  /** The lines that contain none of the tokens, in their original order. */
  function KeepLines(lines: seq<string>, tokens: seq<string>): (kept: seq<string>)
    ensures forall l :: multiset(kept)[l] == if ContainsAny(l, tokens) then 0 else multiset(lines)[l]
    ensures forall l :: l in kept <==> l in lines && !ContainsAny(l, tokens)
    ensures |kept| <= |lines|
  {
    if lines == [] then []
    else
      var rest := KeepLines(lines[1..], tokens);
      assert lines == [lines[0]] + lines[1..];
      if ContainsAny(lines[0], tokens) then rest else [lines[0]] + rest
  }

  /** The text after the filter: the kept lines joined by line breaks. */
  function RemoveLines(text: string, tokens: seq<string>): string {
    Join(KeepLines(Lines(text), tokens), LineBreak)
  }

  /**
    Reading the filtered text back gives exactly the kept lines; when no
    line survives, the text is empty.
  */
  lemma {:induction false} RemoveLinesKeepsExactly(text: string, tokens: seq<string>)
    ensures var kept := KeepLines(Lines(text), tokens);
      && (kept != [] ==> Lines(RemoveLines(text, tokens)) == kept)
      && (kept == [] ==> RemoveLines(text, tokens) == "")
  {
    var kept := KeepLines(Lines(text), tokens);
    if kept != [] {
      SplitPartsAvoidPattern(text, LineBreak);
      forall k | 0 <= k < |kept| ensures !Contains(kept[k], LineBreak) {
        assert kept[k] in Lines(text);
      }
      SplitOfJoin(kept, LineBreak);
    }
  }

  /** A kept line never contains any token: filtering twice changes nothing more. */
  lemma {:induction false} KeepLinesIdempotent(lines: seq<string>, tokens: seq<string>)
    ensures KeepLines(KeepLines(lines, tokens), tokens) == KeepLines(lines, tokens)
    decreases |lines|
  {
    if lines != [] {
      KeepLinesIdempotent(lines[1..], tokens);
    }
  }
}
