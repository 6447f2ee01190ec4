/** The line source a reader consumes: an open text file or io.StringIO,
    iterated with next(), one line (terminator included) per call. */
module TextSource {
  import opened Common

  /** A text file opened for reading. `lines` is what iteration yields in
      order; `pos` counts the lines already consumed. */
  class TextFile {
    const lines: seq<string>
    var pos: nat

    ghost predicate Valid()
      reads this
    {
      pos <= |lines|
    }

    constructor (lines: seq<string>)
      ensures Valid() && this.lines == lines && pos == 0
    {
      this.lines := lines;
      pos := 0;
    }

    /** next(file): the next line, or None for StopIteration once every line is
        consumed (and for every call after that). */
    method NextLine() returns (line: Option<string>)
      requires Valid()
      modifies this
      ensures Valid()
      ensures old(pos) < |lines| ==> line == Some(lines[old(pos)]) && pos == old(pos) + 1
      ensures old(pos) == |lines| ==> line == None && pos == old(pos)
    {
      if pos < |lines| {
        line := Some(lines[pos]);
        pos := pos + 1;
      } else {
        line := None;
      }
    }
  }

  /** Length of the first line of `text`, its '\n' included when it has one. */
  function LineLength(text: string): (n: nat)
    requires text != []
    ensures 0 < n <= |text|
    ensures forall k :: 0 <= k < n - 1 ==> text[k] != '\n'
    ensures n < |text| ==> text[n - 1] == '\n'
  {
    if text[0] == '\n' || |text| == 1 then 1 else 1 + LineLength(text[1..])
  }

  function Concat(lines: seq<string>): string
  {
    if lines == [] then [] else lines[0] + Concat(lines[1..])
  }

  /** The lines io.StringIO(text) yields: the text cut after every '\n', the
      terminator kept; a final line without one is yielded as it is. */
  function SplitLines(text: string): (lines: seq<string>)
    ensures Concat(lines) == text
    ensures forall i :: 0 <= i < |lines| ==> lines[i] != []
    ensures forall i, k :: 0 <= i < |lines| && 0 <= k < |lines[i]| - 1 ==> lines[i][k] != '\n'
    ensures forall i :: 0 <= i < |lines| - 1 ==> lines[i][|lines[i]| - 1] == '\n'
    decreases |text|
  {
    if text == [] then []
    else
      var n := LineLength(text);
      assert text[..n] + text[n..] == text;
      [text[..n]] + SplitLines(text[n..])
  }

  /** A line that ends in '\n' and holds no other '\n' is split off whole. */
  lemma SplitTerminatedLine(line: string, rest: string)
    requires '\n' !in line
    ensures SplitLines(line + "\n" + rest) == [line + "\n"] + SplitLines(rest)
  {
    var text := line + "\n" + rest;
    var n := LineLength(text);
    assert text[|line|] == '\n';
    assert n == |line| + 1;
    assert text[..n] == line + "\n";
    assert text[n..] == rest;
  }
}
