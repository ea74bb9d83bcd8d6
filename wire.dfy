/**
 * The newline-delimited text connection between client and server: the
 * client's writer appends each line and a terminator, the server's reader
 * splits the received text back into lines.
 */
module Wire {

  /** The line terminator written after every line. */
  const NewLine: string := "\n"

  /** The text on the connection after `lines` were written, in order. */
  function Stream(lines: seq<string>): (w: string)
    ensures w == [] <==> lines == []
    ensures w != [] ==> w[|w| - 1] == '\n'
  {
    if lines == [] then [] else lines[0] + NewLine + Stream(lines[1..])
  }

  /** Writing one more line appends that line and a terminator to the stream. */
  lemma {:induction false} StreamAppend(lines: seq<string>, line: string)
    ensures Stream(lines + [line]) == Stream(lines) + line + NewLine
  {
    if lines == [] {
      assert [] + [line] == [line];
      assert [line][1..] == [];
    } else {
      assert (lines + [line])[1..] == lines[1..] + [line];
      StreamAppend(lines[1..], line);
    }
  }

  /** The index of the first terminator in `w`, or |w| when there is none. */
  function LineEnd(w: string): (i: nat)
    ensures i <= |w|
    ensures i < |w| ==> w[i] == '\n'
    ensures forall j :: 0 <= j < i ==> w[j] != '\n'
  {
    if w == [] || w[0] == '\n' then 0 else 1 + LineEnd(w[1..])
  }

  /**
   * The lines a line reader returns for `w`: text up to each terminator,
   * then any unterminated rest as a final line.
   */
  function ReadLines(w: string): (lines: seq<string>)
    ensures SingleLines(lines)
    decreases |w|
  {
    if w == [] then []
    else
      var i := LineEnd(w);
      [w[..i]] + (if i < |w| then ReadLines(w[i + 1..]) else [])
  }

  /** No line holds a terminator of its own. */
  predicate SingleLines(lines: seq<string>)
  {
    forall k :: 0 <= k < |lines| ==> '\n' !in lines[k]
  }

  /** Two runs of lines without terminators, one after the other. */
  lemma SingleLinesAppend(a: seq<string>, b: seq<string>)
    requires SingleLines(a) && SingleLines(b)
    ensures SingleLines(a + b)
  {
    forall k | 0 <= k < |a + b|
      ensures '\n' !in (a + b)[k]
    {
      if k < |a| { assert (a + b)[k] == a[k]; } else { assert (a + b)[k] == b[k - |a|]; }
    }
  }

  /** Lines free of terminators are read back exactly as they were written. */
  lemma {:induction false} ReadLinesInverts(lines: seq<string>)
    requires SingleLines(lines)
    ensures ReadLines(Stream(lines)) == lines
  {
    if lines != [] {
      var l := lines[0];
      var rest := Stream(lines[1..]);
      var w := Stream(lines);
      assert w == l + ("\n" + rest);
      assert w[|l|] == '\n';
      var i := LineEnd(w);
      assert i == |l|;
      assert w[..i] == l;
      assert w[i + 1..] == rest;
      ReadLinesInverts(lines[1..]);
    }
  }
}
