/** The tool listing of the libraries SDK: the one-line description taken
    from a module's docstring, and the aligned table of all tools. Module
    discovery is reflection and is replaced by the list it would produce. */
module Sdk {
  import opened Wrappers
  import opened Strings

  const NoDescription: string := "(no description)"
  const NoTools: string := "No tools found in libs/"

  // ---------------------------------------------------------------------
  // _first_line

  /** `not line.strip()`: the line is whitespace only. */
  predicate Blank(line: string) {
    forall i | 0 <= i < |line| :: line[i] in Whitespace
  }

  /** The index of the first line that is not blank, or `|lines|`. */
  function FirstNonBlank(lines: seq<string>): (k: nat)
    ensures k <= |lines|
    decreases |lines|
  {
    if lines == [] then 0 else if !Blank(lines[0]) then 0 else 1 + FirstNonBlank(lines[1..])
  }

  /** `FirstNonBlank` is the first line that is not blank, and any such index is it. */
  lemma {:induction false} FirstNonBlankIs(lines: seq<string>, k: nat)
    requires k <= |lines|
    requires forall i | 0 <= i < k :: Blank(lines[i])
    requires k < |lines| ==> !Blank(lines[k])
    ensures FirstNonBlank(lines) == k
    decreases k
  {
    if k > 0 {
      FirstNonBlankIs(lines[1..], k - 1);
    }
  }

  /** The description of a docstring's stripped lines: the first non-blank
      line, stripped and without trailing dots, or the placeholder. */
  function Describe(lines: seq<string>): string {
    var k := FirstNonBlank(lines);
    if k == |lines| then NoDescription else TrimEnd(Strip(lines[k]), {'.'})
  }

  /** The description `_first_line` gives. */
  function FirstLineOf(doc: Option<string>): string {
    if doc == None || doc == Some("") then NoDescription else Describe(SplitLines(Strip(doc.value)))
  }

  /** The scan of `_first_line`: steps through the lines in order and stops
      at the first one that is not blank. */
  method FindText(lines: seq<string>) returns (k: nat)
    ensures k == FirstNonBlank(lines)
  {
    k := 0;
    while k < |lines|
      invariant k <= |lines|
      invariant FirstNonBlank(lines) == k + FirstNonBlank(lines[k..])
    {
      var line := Strip(lines[k]);
      if line != "" {
        StripEmpty(lines[k]);
        return;
      }
      StripEmpty(lines[k]);
      assert lines[k..][1..] == lines[k + 1..];
      k := k + 1;
    }
  }

  /** `_first_line` */
  method FirstLine(doc: Option<string>) returns (r: string)
    ensures r == FirstLineOf(doc)
    ensures doc == None || doc == Some("") ==> r == NoDescription
  {
    if doc == None || doc == Some("") {
      return NoDescription;
    }
    var lines := SplitLines(Strip(doc.value));
    var k := FindText(lines);
    if k == |lines| {
      return NoDescription;
    }
    r := TrimEnd(Strip(lines[k]), {'.'});
  }

  /** The description is the first line that is not blank, stripped and
      without its trailing dots. */
  lemma {:induction false} DescribeFirst(lines: seq<string>, k: nat)
    requires k < |lines|
    requires forall i | 0 <= i < k :: Blank(lines[i])
    requires !Blank(lines[k])
    ensures Describe(lines) == TrimEnd(Strip(lines[k]), {'.'})
  {
    FirstNonBlankIs(lines, k);
  }

  /** Lines that are all blank have no description. */
  lemma {:induction false} DescribeAllBlank(lines: seq<string>)
    requires forall i | 0 <= i < |lines| :: Blank(lines[i])
    ensures Describe(lines) == NoDescription
  {
    FirstNonBlankIs(lines, |lines|);
  }

  /** A description never ends with a dot; it is empty only when the first
      text line is made of dots. */
  lemma {:induction false} DescriptionHasNoFinalDot(lines: seq<string>)
    ensures var r := Describe(lines); r == [] || r[|r| - 1] != '.'
    ensures var k := FirstNonBlank(lines);
      k < |lines| ==>
        var text := Strip(lines[k]);
        (Describe(lines) == [] <==> forall i | 0 <= i < |text| :: text[i] == '.')
  {
    var k := FirstNonBlank(lines);
    if k < |lines| {
      var text := Strip(lines[k]);
      var r := TrimEnd(text, {'.'});
      if r != [] {
        assert r[|r| - 1] == text[|r| - 1];
      }
    }
  }

  /** A docstring of blank lines only has no description. */
  lemma {:induction false} AllBlankHasNoDescription(doc: string)
    requires Blank(doc)
    ensures FirstLineOf(Some(doc)) == NoDescription
  {
    StripBlank(doc);
  }

  /** A one-line docstring is described by itself, stripped and without its
      trailing dots. */
  lemma {:induction false} OneLineDescription(doc: string)
    requires forall i | 0 <= i < |doc| :: doc[i] !in LineBreaks
    requires !Blank(doc)
    ensures FirstLineOf(Some(doc)) == TrimEnd(Strip(doc), {'.'})
  {
    var s := Strip(doc);
    StripEmpty(doc);
    StripKeepsFree(doc, LineBreaks);
    NoLineBreak(s);
    StripTrimmed(s);
    StripEmpty(s);
    DescribeFirst([s], 0);
  }

  // ---------------------------------------------------------------------
  // list()

  /** One discovered tool: its name, its import line and its description. */
  datatype Tool = Tool(name: string, importPath: string, desc: string)

  /** `max(len(m[0]) for m in modules)` */
  function LongestName(tools: seq<Tool>): (n: nat)
    requires tools != []
    ensures forall i | 0 <= i < |tools| :: |tools[i].name| <= n
    decreases |tools|
  {
    if |tools| == 1 then |tools[0].name|
    else
      var m := LongestName(tools[1..]);
      assert forall i | 1 <= i < |tools| :: |tools[i].name| <= m by {
        assert forall i | 1 <= i < |tools| :: tools[i] == tools[1..][i - 1];
      }
      if |tools[0].name| >= m then |tools[0].name| else m
  }

  /** The width is the length of one of the names, so no wider than needed. */
  lemma {:induction false} LongestNameAttained(tools: seq<Tool>) returns (i: nat)
    requires tools != []
    ensures i < |tools| && |tools[i].name| == LongestName(tools)
    decreases |tools|
  {
    if |tools| == 1 {
      i := 0;
    } else if |tools[0].name| >= LongestName(tools[1..]) {
      i := 0;
    } else {
      var j := LongestNameAttained(tools[1..]);
      i := j + 1;
      assert tools[i] == tools[1..][j];
    }
  }

  function Spaces(n: nat): (r: string)
    ensures |r| == n && forall i | 0 <= i < n :: r[i] == ' '
  {
    seq(n, _ => ' ')
  }

  /** `f"{name:<{width}}"`: the name followed by spaces up to `width` characters. */
  function PadRight(name: string, width: nat): (r: string)
    ensures |r| == if |name| < width then width else |name|
    ensures r[..|name|] == name
    ensures forall i | |name| <= i < |r| :: r[i] == ' '
  {
    if |name| < width then name + Spaces(width - |name|) else name
  }

  /** The line of one tool. */
  function Row(tool: Tool, width: nat): string {
    "  " + PadRight(tool.name, width) + "  " + tool.desc
  }

  /** The lines of all tools, in order. */
  function Rows(tools: seq<Tool>, width: nat): (r: seq<string>)
    ensures |r| == |tools|
    ensures forall i | 0 <= i < |tools| :: r[i] == Row(tools[i], width)
  {
    seq(|tools|, i requires 0 <= i < |tools| => Row(tools[i], width))
  }

  /** The text `list()` returns for the discovered tools. */
  function Listing(tools: seq<Tool>): string {
    if tools == [] then NoTools else Join(Rows(tools, LongestName(tools)), "\n")
  }

  /** `list()`: a line per tool, appended in a loop, joined by newlines. */
  method List(tools: seq<Tool>) returns (r: string)
    ensures r == Listing(tools)
  {
    if tools == [] {
      return NoTools;
    }
    var width := LongestName(tools);
    var lines: seq<string> := [];
    for i := 0 to |tools|
      invariant lines == Rows(tools[..i], width)
    {
      lines := lines + [Row(tools[i], width)];
    }
    assert tools[..|tools|] == tools;
    r := Join(lines, "\n");
  }

  /** The line of a tool whose name fits the width: two spaces, the name,
      spaces up to the width, two spaces, the description. */
  lemma {:induction false} RowShape(tool: Tool, width: nat)
    requires |tool.name| <= width
    ensures var row := Row(tool, width);
      && |row| == 2 + width + 2 + |tool.desc|
      && row[..2] == "  "
      && row[2..2 + |tool.name|] == tool.name
      && (forall j | 2 + |tool.name| <= j < 2 + width + 2 :: row[j] == ' ')
      && row[2 + width + 2..] == tool.desc
  {
    var pad := PadRight(tool.name, width);
    var head := "  " + pad;
    var row := head + "  " + tool.desc;
    assert Row(tool, width) == row;
    assert row[..2] == head[..2];
    assert row[2..2 + |tool.name|] == pad[..|tool.name|];
    assert forall j | 2 + |tool.name| <= j < 2 + width :: row[j] == pad[j - 2];
    assert row[2 + width + 2..] == tool.desc;
  }

  /** Every line of a listing has the layout of the table, the names padded
      to the longest one, so the descriptions start in the same column. */
  lemma {:induction false} RowLayout(tools: seq<Tool>, i: nat)
    requires 0 <= i < |tools|
    ensures var width := LongestName(tools); var row := Rows(tools, width)[i];
      && |row| == 2 + width + 2 + |tools[i].desc|
      && row[..2] == "  "
      && row[2..2 + |tools[i].name|] == tools[i].name
      && (forall j | 2 + |tools[i].name| <= j < 2 + width + 2 :: row[j] == ' ')
      && row[2 + width + 2..] == tools[i].desc
  {
    RowShape(tools[i], LongestName(tools));
  }

  /** A line has no newline when the name and the description have none. */
  lemma {:induction false} RowIsOneLine(tool: Tool, width: nat)
    requires '\n' !in tool.name && '\n' !in tool.desc
    ensures '\n' !in Row(tool, width)
  {
    var pad := PadRight(tool.name, width);
    assert '\n' !in pad by {
      if |tool.name| < width {
        assert pad == tool.name + Spaces(width - |tool.name|);
      }
    }
    assert Row(tool, width) == "  " + pad + "  " + tool.desc;
  }

  /** With names and descriptions free of newlines, the listing splits back
      into exactly one line per tool, in input order. */
  lemma {:induction false} ListingLines(tools: seq<Tool>)
    requires tools != []
    requires forall i | 0 <= i < |tools| :: '\n' !in tools[i].name && '\n' !in tools[i].desc
    ensures Split(Listing(tools), '\n') == Rows(tools, LongestName(tools))
  {
    RowsSplitBack(tools, LongestName(tools));
  }

  lemma {:induction false} RowsSplitBack(tools: seq<Tool>, width: nat)
    requires tools != []
    requires forall i | 0 <= i < |tools| :: '\n' !in tools[i].name && '\n' !in tools[i].desc
    ensures Split(Join(Rows(tools, width), "\n"), '\n') == Rows(tools, width)
  {
    var rows := Rows(tools, width);
    forall k | 0 <= k < |rows| ensures '\n' !in rows[k] {
      RowIsOneLine(tools[k], width);
    }
    SplitJoin(rows, '\n');
  }

  /** A listing has no tools only when nothing was discovered. */
  lemma {:induction false} EmptyListing(tools: seq<Tool>)
    ensures Listing(tools) == NoTools <==> tools == []
  {
    if tools != [] {
      var rows := Rows(tools, LongestName(tools));
      assert rows[0][0] == ' ';
      JoinStarts(rows);
      assert NoTools[0] == 'N';
    }
  }

  /** A join of lines starts with the first line's first character. */
  lemma {:induction false} JoinStarts(rows: seq<string>)
    requires rows != [] && rows[0] != []
    ensures Join(rows, "\n") != [] && Join(rows, "\n")[0] == rows[0][0]
  {
  }
}
