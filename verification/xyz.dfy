/** The geometry block the xyz-based templates hand to a code's input
    generator: the converter's xyz text without its first two lines (atom count
    and comment), the remaining lines joined by a newline and two spaces so
    that they sit indented inside the input template. */
module Xyz {
  import opened Text

  const Newline := "\n"
  const Indent := "\n  "

  /** The block: empty for text of at most two lines, and every newline in it
      followed by the two-space indent. */
  function XyzBody(xyz: string): (body: string)
    ensures |Split(xyz, Newline)| <= 2 ==> body == ""
    ensures IndentedNewlines(body)
  {
    LinesHaveNoNewline(xyz);
    JoinIndented(GeometryLines(xyz));
    Join(GeometryLines(xyz), Indent)
  }

  /** `xyz.split('\n')[2:]`: empty when there are at most two lines. */
  function GeometryLines(xyz: string): (lines: seq<string>)
  {
    var all := Split(xyz, Newline);
    if |all| <= 2 then [] else all[2..]
  }

  /** The block splits back at its indents into the geometry lines, in order. */
  lemma XyzBodyLines(xyz: string)
    requires |Split(xyz, Newline)| > 2
    ensures Split(XyzBody(xyz), Indent) == GeometryLines(xyz)
    ensures GeometryLines(xyz) == Split(xyz, Newline)[2..]
  {
    LinesHaveNoNewline(xyz);
    SplitJoinIndent(GeometryLines(xyz));
  }

  /** The dropped lines are exactly the first two: the block is the same with
      any other header in front. */
  lemma XyzBodyIgnoresHeader(count: string, comment: string, rest: string)
    requires '\n' !in count && '\n' !in comment
    ensures GeometryLines(count + "\n" + comment + "\n" + rest) == Split(rest, Newline)
  {
    var tail := comment + "\n" + rest;
    var whole := count + "\n" + comment + "\n" + rest;
    assert whole == count + "\n" + tail by {
      AppendAssoc(count + "\n", comment, "\n");
      AppendAssoc(count + "\n", comment + "\n", rest);
    }
    var pieces := Split(rest, Newline);
    SplitLine(comment, rest);
    SplitLine(count, tail);
    var all := Split(whole, Newline);
    assert all == [count] + ([comment] + pieces);
    assert all[2..] == pieces;
  }

  /** A line without a newline, then a newline: the first piece of the split. */
  lemma SplitLine(line: string, rest: string)
    requires '\n' !in line
    ensures Split(line + "\n" + rest, Newline) == [line] + Split(rest, Newline)
  {
    NoCharNoContains(line, '\n');
    assert Newline[..0] == "";
    assert line + Newline[..0] == line;
    SplitAtFirst(line, Newline, rest);
  }

  /** Every newline is followed by two spaces. */
  predicate IndentedNewlines(s: string) {
    forall i :: 0 <= i < |s| && s[i] == '\n' ==> i + 2 < |s| && s[i + 1] == ' ' && s[i + 2] == ' '
  }

  // ---------------------------------------------------------------------------
  // Helpers

  lemma LinesHaveNoNewline(xyz: string)
    ensures var lines := GeometryLines(xyz);
            forall k :: 0 <= k < |lines| ==> '\n' !in lines[k]
  {
    var all := Split(xyz, Newline);
    SplitPiecesFree(xyz, Newline);
    forall k | 0 <= k < |all|
      ensures '\n' !in all[k]
    {
      CharContains(all[k], '\n');
    }
  }

  lemma {:induction false} JoinIndented(parts: seq<string>)
    requires forall k :: 0 <= k < |parts| ==> '\n' !in parts[k]
    ensures IndentedNewlines(Join(parts, Indent))
    decreases |parts|
  {
    if |parts| > 1 {
      var p := parts[0];
      var rest := Join(parts[1..], Indent);
      JoinIndented(parts[1..]);
      assert IndentedNewlines(rest);
      var s := Join(parts, Indent);
      assert s == p + Indent + rest;
      forall i | 0 <= i < |s| && s[i] == '\n'
        ensures i + 2 < |s| && s[i + 1] == ' ' && s[i + 2] == ' '
      {
        if i >= |p| + 3 {
          var j := i - |p| - 3;
          assert rest[j] == s[i];
          assert j + 2 < |rest|;
          assert s[i + 1] == rest[j + 1] && s[i + 2] == rest[j + 2];
        } else {
          assert i == |p|;
        }
      }
      assert IndentedNewlines(s);
    }
  }

  /** A piece without a newline, followed by the first two characters of the
      indent, does not hold the indent. */
  lemma {:induction false} NoIndentBeforeSeam(x: string)
    requires '\n' !in x
    ensures !Contains(x + Indent[..|Indent| - 1], Indent)
    decreases |x|
  {
    var s := x + Indent[..|Indent| - 1];
    if |x| == 0 {
      assert s == "\n ";
      assert s[1..] == " ";
      assert !Contains(" "[1..], Indent);
    } else {
      assert s[0] == x[0] != '\n';
      assert s[1..] == x[1..] + Indent[..|Indent| - 1];
      NoIndentBeforeSeam(x[1..]);
    }
  }

  lemma {:induction false} SplitJoinIndent(parts: seq<string>)
    requires |parts| >= 1
    requires forall k :: 0 <= k < |parts| ==> '\n' !in parts[k]
    ensures Split(Join(parts, Indent), Indent) == parts
    decreases |parts|
  {
    NoCharNoPattern(parts[0], Indent, 0);
    if |parts| == 1 {
      SplitNoSeparator(parts[0], Indent);
    } else {
      NoIndentBeforeSeam(parts[0]);
      SplitAtFirst(parts[0], Indent, Join(parts[1..], Indent));
      SplitJoinIndent(parts[1..]);
      assert parts == [parts[0]] + parts[1..];
    }
  }
}
