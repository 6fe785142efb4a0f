/** What the drawing shows: its geometry, and a decoder that undoes it. */
module DrawingLaws {
  import opened Drawing

  /* ---- Geometry ---- */

  predicate Ascii(s: string) {
    forall i :: 0 <= i < |s| ==> s[i] as int < 0x80
  }

  lemma {:induction false} AsciiByBytes(s: string)
    ensures ByteLen(s) >= |s|
    ensures ByteLen(s) == |s| <==> Ascii(s)
  {
    if s != [] {
      AsciiByBytes(s[1..]);
      assert s == [s[0]] + s[1..];
    }
  }

  /** A box has straight sides exactly when its name is ASCII: the edges count bytes, the text row characters. */
  lemma StraightExactlyForAscii(name: string)
    ensures |Cell(name, 1)| == |name| + 6
    ensures |Cell(name, 0)| == |Cell(name, 2)| == ByteLen(name) + 6
    ensures |Cell(name, 0)| == |Cell(name, 1)| <==> Ascii(name)
  {
    AsciiByBytes(name);
  }

  function Width(root: string): nat {
    |root| + 6
  }

  /** A row in three parts: root column, five columns of connector, child. */
  lemma RowColumns(root: string, children: seq<string>, i: nat, j: nat)
    requires Ascii(root) && i < |children| && j < 3
    ensures var row, w := Row(root, children, i, j), Width(root);
            && |row| == w + 5 + |Cell(children[i], j)|
            && row[..w] == RootCell(root, |children|, i, j)
            && row[w..w + 5] == Middle(|children|, i, j)
            && row[w + 5..] == Cell(children[i], j)
  {
    StraightExactlyForAscii(root);
    var row, w := Row(root, children, i, j), Width(root);
    assert |RootCell(root, |children|, i, j)| == w;
    assert row == RootCell(root, |children|, i, j) + (Middle(|children|, i, j) + Cell(children[i], j));
  }

  /** The root's box is drawn beside the middle child and nowhere else. */
  lemma RootDrawnOnce(root: string, children: seq<string>, i: nat, j: nat)
    requires Ascii(root) && i < |children| && j < 3
    ensures |Row(root, children, i, j)| >= Width(root)
    ensures Row(root, children, i, j)[..Width(root)] == Cell(root, j) <==> i == |children| / 2
    ensures Row(root, children, i, j)[..Width(root)] == Repeat(' ', Width(root)) <==> i != |children| / 2
  {
    RowColumns(root, children, i, j);
    StraightExactlyForAscii(root);
    assert Cell(root, j)[0] != Repeat(' ', Width(root))[0];
  }

  /** Column W + 1 is drawn from the first child's text row to the last's, column W on the root's text row alone. */
  lemma ConnectorUnbroken(root: string, children: seq<string>, i: nat, j: nat)
    requires Ascii(root) && i < |children| && j < 3
    ensures |Row(root, children, i, j)| > Width(root) + 1
    ensures Row(root, children, i, j)[Width(root) + 1] != ' ' <==> 1 <= 3 * i + j <= 3 * (|children| - 1) + 1
    ensures Row(root, children, i, j)[Width(root)] != ' ' <==> 3 * i + j == 3 * (|children| / 2) + 1
  {
    RowColumns(root, children, i, j);
    var row, w, k := Row(root, children, i, j), Width(root), |children|;
    assert row[w] == row[w..w + 5][0] == Middle(k, i, j)[0];
    assert row[w + 1] == row[w..w + 5][1] == Middle(k, i, j)[1];
  }

  /** Which neighbours a box-drawing character points to. */
  datatype Arms = Arms(up: bool, down: bool, left: bool, right: bool)

  function ArmsOf(c: char): Arms {
    match c
    case '\U{2501}' => Arms(false, false, true, true)
    case '\U{2503}' => Arms(true, true, false, false)
    case '\U{250F}' => Arms(false, true, false, true)
    case '\U{2513}' => Arms(false, true, true, false)
    case '\U{2517}' => Arms(true, false, false, true)
    case '\U{251B}' => Arms(true, false, true, false)
    case '\U{2523}' => Arms(true, true, false, true)
    case '\U{253B}' => Arms(true, false, true, true)
    case '\U{254B}' => Arms(true, true, true, true)
    case _ => Arms(false, false, false, false)
  }

  /** A box has its four corners, straight edges between them, and the name between walls, two blanks from each. */
  lemma BoxDrawn(name: string)
    ensures var top, low, w := Cell(name, 0), Cell(name, 2), ByteLen(name) + 6;
            && |top| == |low| == w
            && top[0] == '\U{250F}' && top[w - 1] == '\U{2513}'
            && low[0] == '\U{2517}' && low[w - 1] == '\U{251B}'
            && (forall x :: 0 < x < w - 1 ==> top[x] == '\U{2501}')
            && (forall x :: 0 < x < w - 1 ==> low[x] == '\U{2501}')
    ensures Cell(name, 1) == "\U{2503}  " + name + "  \U{2503}"
  {
  }

  /** Between the boxes a bar runs to an arrowhead on a text row; elsewhere blanks stand beside the connector. */
  lemma BranchDrawn(root: string, children: seq<string>, i: nat, j: nat)
    requires Ascii(root) && i < |children| && j < 3
    ensures var row, w := Row(root, children, i, j), Width(root);
            && |row| >= w + 5
            && (if j == 1 then row[w + 2] == row[w + 3] == '\U{2501}' && row[w + 4] == '\U{25B6}'
                else row[w] == row[w + 2] == row[w + 3] == row[w + 4] == ' ')
  {
    ShowsMiddle(root, children, i, j);
    hide Row;
  }

  /** The five columns from `w` on are these. */
  predicate Shows(row: string, w: nat, mid: string) {
    && |mid| == 5 && |row| >= w + 5
    && row[w] == mid[0] && row[w + 1] == mid[1] && row[w + 2] == mid[2] && row[w + 3] == mid[3] && row[w + 4] == mid[4]
  }

  lemma ShowsMiddle(root: string, children: seq<string>, i: nat, j: nat)
    requires Ascii(root) && i < |children| && j < 3
    ensures Shows(Row(root, children, i, j), Width(root), Middle(|children|, i, j))
  {
    RowColumns(root, children, i, j);
    var row, w, mid := Row(root, children, i, j), Width(root), Middle(|children|, i, j);
    MiddleSize(|children|, i, j);
    hide Row, Middle, Cell;
    var part := row[w..w + 5];
    assert part == mid;
    assert part[0] == row[w] && part[1] == row[w + 1] && part[2] == row[w + 2];
    assert part[3] == row[w + 3] && part[4] == row[w + 4];
  }

  /** The connector's character on one row points exactly where its neighbours point back. */
  ghost predicate Meets(above: string, row: string, below: string, x: nat)
    requires 0 < x < |row| - 1 && x < |above| && x < |below|
  {
    ArmsOf(row[x]) ==
    Arms(ArmsOf(above[x]).down, ArmsOf(below[x]).up, ArmsOf(row[x - 1]).right, ArmsOf(row[x + 1]).left)
  }

  /** The row above or below, blank beyond the first and the last. */
  function Above(root: string, children: seq<string>, i: nat, j: nat): string
    requires i < |children| && j < 3
  {
    if j > 0 then Row(root, children, i, j - 1)
    else if i > 0 then Row(root, children, i - 1, 2)
    else Repeat(' ', Width(root) + 5)
  }

  function Below(root: string, children: seq<string>, i: nat, j: nat): string
    requires i < |children| && j < 3
  {
    if j < 2 then Row(root, children, i, j + 1)
    else if i < |children| - 1 then Row(root, children, i + 1, 0)
    else Repeat(' ', Width(root) + 5)
  }

  const BLANKS := "     "

  function MiddleAbove(k: nat, i: nat, j: nat): string
    requires i < k && j < 3
  {
    if j > 0 then Middle(k, i, j - 1) else if i > 0 then Middle(k, i - 1, 2) else BLANKS
  }

  function MiddleBelow(k: nat, i: nat, j: nat): string
    requires i < k && j < 3
  {
    if j < 2 then Middle(k, i, j + 1) else if i < k - 1 then Middle(k, i + 1, 0) else BLANKS
  }

  lemma MiddlesMeet(k: nat, i: nat, j: nat)
    requires i < k && j < 3
    ensures |MiddleAbove(k, i, j)| == |Middle(k, i, j)| == |MiddleBelow(k, i, j)| == 5
    ensures Meets(MiddleAbove(k, i, j), Middle(k, i, j), MiddleBelow(k, i, j), 1)
  {
  }

  lemma ShowsAbove(root: string, children: seq<string>, i: nat, j: nat)
    requires Ascii(root) && i < |children| && j < 3
    ensures Shows(Above(root, children, i, j), Width(root), MiddleAbove(|children|, i, j))
    ensures Shows(Below(root, children, i, j), Width(root), MiddleBelow(|children|, i, j))
  {
    hide Row, Middle;
    if j > 0 {
      ShowsMiddle(root, children, i, j - 1);
    } else if i > 0 {
      ShowsMiddle(root, children, i - 1, 2);
    }
    if j < 2 {
      ShowsMiddle(root, children, i, j + 1);
    } else if i < |children| - 1 {
      ShowsMiddle(root, children, i + 1, 0);
    }
  }

  /** All arms of the connector meet. */
  lemma ArmsMeet(root: string, children: seq<string>, i: nat, j: nat)
    requires Ascii(root) && i < |children| && j < 3
    ensures |Row(root, children, i, j)| > Width(root) + 2
    ensures |Above(root, children, i, j)| > Width(root) + 1 && |Below(root, children, i, j)| > Width(root) + 1
    ensures Meets(Above(root, children, i, j), Row(root, children, i, j), Below(root, children, i, j), Width(root) + 1)
  {
    ShowsMiddle(root, children, i, j);
    ShowsAbove(root, children, i, j);
    MiddlesMeet(|children|, i, j);
    hide Row, Middle, Above, Below, MiddleAbove, MiddleBelow, ArmsOf;
  }

  /** The length of a character in UTF-8 grows where seven, eleven and sixteen bits are used up. */
  lemma BytesExactly(c: char)
    ensures CharBytes(c) ==
            1 + (if c as int >= 128 then 1 else 0) + (if c as int >= 2048 then 1 else 0)
            + (if c as int >= 65536 then 1 else 0)
  {
  }

  /** A childless node's name without a percent sign comes out as its box, all on one line: no row ends in a newline. */
  lemma ChildlessBox(name: string, sprintf: string -> string)
    requires forall s :: '%' !in s ==> sprintf(s) == s
    requires '%' !in name && NEWLINE !in name
    ensures sprintf(Cell(name, 0)) + sprintf(Cell(name, 1)) + sprintf(Cell(name, 2)) ==
            Cell(name, 0) + Cell(name, 1) + Cell(name, 2)
    ensures NEWLINE !in sprintf(Cell(name, 0)) + sprintf(Cell(name, 1)) + sprintf(Cell(name, 2))
  {
    PlainCell(name, 0);
    PlainCell(name, 1);
    PlainCell(name, 2);
  }

  lemma PlainCell(name: string, j: nat)
    requires j < 3
    ensures '%' !in name ==> '%' !in Cell(name, j)
    ensures NEWLINE !in name ==> NEWLINE !in Cell(name, j)
  {
  }

  /* ---- Lines ---- */

  predicate OneLine(s: string) {
    NEWLINE !in s
  }

  predicate OneLines(s: seq<string>) {
    forall i :: 0 <= i < |s| ==> OneLine(s[i])
  }

  /** Where the last line of `s` starts. */
  function LineStart(s: string): (n: nat)
    ensures n <= |s|
  {
    if s == [] || s[|s| - 1] == NEWLINE then |s| else LineStart(s[..|s| - 1])
  }

  /** The lines of a text whose lines all end in a newline. */
  function SplitLines(text: string): seq<string>
    decreases |text|
  {
    if text == [] then []
    else
      var body := text[..|text| - 1];
      var n := LineStart(body);
      SplitLines(body[..n]) + [body[n..]]
  }

  predicate Ended(s: string) {
    s == [] || s[|s| - 1] == NEWLINE
  }

  lemma {:induction false} LineStartAfter(s: string, line: string)
    requires Ended(s)
    requires OneLine(line)
    ensures LineStart(s + line) == |s|
  {
    if line == [] {
      assert s + line == s;
    } else {
      LineStartAfter(s, line[..|line| - 1]);
      assert (s + line)[..|s + line| - 1] == s + line[..|line| - 1];
    }
  }

  lemma SplitLast(body: string, n: nat)
    requires n == LineStart(body) <= |body|
    ensures SplitLines(body + [NEWLINE]) == SplitLines(body[..n]) + [body[n..]]
  {
    var text := body + [NEWLINE];
    assert text != [] && text[..|text| - 1] == body;
  }

  lemma Joined(a: string, b: string, c: string)
    ensures a + (b + c) == (a + b) + c
    ensures (a + b)[..|a|] == a && (a + b)[|a|..] == b
  {
  }

  lemma EndedBy(s: string)
    ensures Ended(s + [NEWLINE])
  {
  }

  lemma SplitAppend(s: string, line: string)
    requires Ended(s)
    requires OneLine(line)
    ensures SplitLines(s + (line + [NEWLINE])) == SplitLines(s) + [line]
    ensures Ended(s + (line + [NEWLINE]))
  {
    LineStartAfter(s, line);
    SplitLast(s + line, |s|);
    Joined(s, line, [NEWLINE]);
    EndedBy(s + line);
    hide *;
  }

  /** The text is exactly these lines, each ended by a newline. */
  predicate Splits(text: string, lines: seq<string>) {
    Ended(text) && SplitLines(text) == lines
  }

  lemma SplitsAppend(text: string, lines: seq<string>, line: string)
    requires Splits(text, lines) && OneLine(line)
    ensures Splits(text + (line + [NEWLINE]), lines + [line])
  {
    SplitAppend(text, line);
    hide SplitLines, Ended, OneLine;
  }

  /** The text of some lines. */
  function JoinLines(lines: seq<string>): string {
    if lines == [] then [] else JoinLines(lines[..|lines| - 1]) + (lines[|lines| - 1] + [NEWLINE])
  }

  lemma JoinAppend(lines: seq<string>, line: string)
    ensures JoinLines(lines + [line]) == JoinLines(lines) + (line + [NEWLINE])
  {
    var all := lines + [line];
    assert all[..|all| - 1] == lines && all[|all| - 1] == line;
  }

  lemma {:induction false} JoinConcat(x: seq<string>, y: seq<string>)
    ensures JoinLines(x + y) == JoinLines(x) + JoinLines(y)
    decreases |y|
  {
    if y == [] {
      assert x + y == x;
    } else {
      var front, last := y[..|y| - 1], y[|y| - 1];
      assert x + y == (x + front) + [last] && y == front + [last];
      JoinConcat(x, front);
      JoinAppend(x + front, last);
      JoinAppend(front, last);
    }
  }

  /** Splitting undoes joining, */
  lemma {:induction false} JoinSplits(lines: seq<string>)
    requires OneLines(lines)
    ensures SplitLines(JoinLines(lines)) == lines && Ended(JoinLines(lines))
    decreases |lines|
  {
    if lines != [] {
      var front, last := lines[..|lines| - 1], lines[|lines| - 1];
      assert lines == front + [last];
      JoinSplits(front);
      hide SplitLines, Ended, OneLine, JoinLines;
      JoinAppend(front, last);
      SplitAppend(JoinLines(front), last);
    }
  }

  /** and joining undoes splitting. */
  lemma {:induction false} SplitJoins(text: string)
    requires Ended(text)
    ensures JoinLines(SplitLines(text)) == text && OneLines(SplitLines(text))
    decreases |text|
  {
    if text != [] {
      var body := text[..|text| - 1];
      var n := LineStart(body);
      LineStartEnds(body);
      SplitJoins(body[..n]);
      assert SplitLines(text) == SplitLines(body[..n]) + [body[n..]];
      assert text == body[..n] + (body[n..] + [NEWLINE]);
      hide SplitLines, LineStart, Ended, JoinLines;
      JoinAppend(SplitLines(body[..n]), body[n..]);
    }
  }

  lemma {:induction false} LineStartEnds(s: string)
    ensures Ended(s[..LineStart(s)]) && OneLine(s[LineStart(s)..])
  {
    if s != [] && s[|s| - 1] != NEWLINE {
      var front := s[..|s| - 1];
      LineStartEnds(front);
      assert front[..LineStart(s)] == s[..LineStart(s)];
      assert s[LineStart(s)..] == front[LineStart(s)..] + [s[|s| - 1]];
    }
  }

  lemma CellOneLine(name: string, j: nat)
    requires OneLine(name) && j < 3
    ensures OneLine(Cell(name, j)) && OneLine(Repeat(' ', |Cell(name, j)|))
  {
  }

  lemma MiddleOneLine(k: nat, i: nat, j: nat)
    requires i < k && j < 3
    ensures OneLine(Middle(k, i, j))
  {
  }

  lemma RowOneLine(root: string, children: seq<string>, i: nat, j: nat)
    requires OneLine(root) && OneLines(children) && i < |children| && j < 3
    ensures OneLine(Row(root, children, i, j))
  {
    hide Cell, Middle, Repeat;
    CellOneLine(root, j);
    MiddleOneLine(|children|, i, j);
    CellOneLine(children[i], j);
  }

  /** The rows before row `j` of child `i`, as lines. */
  function RowList(root: string, children: seq<string>, i: nat, j: nat): (r: seq<string>)
    requires i <= |children| && j <= 3 && (i == |children| ==> j == 0)
    ensures |r| == 3 * i + j
    decreases i, j
  {
    if j > 0 then RowList(root, children, i, j - 1) + [Row(root, children, i, j - 1)]
    else if i > 0 then RowList(root, children, i - 1, 3)
    else []
  }

  lemma {:induction false} RowListAt(root: string, children: seq<string>, i: nat, j: nat, a: nat, b: nat)
    requires i <= |children| && j <= 3 && (i == |children| ==> j == 0)
    requires b < 3 && 3 * a + b < 3 * i + j
    ensures a < |children| && RowList(root, children, i, j)[3 * a + b] == Row(root, children, a, b)
    decreases i, j
  {
    hide Row;
    if j == 0 {
      RowListAt(root, children, i - 1, 3, a, b);
    } else if 3 * a + b == 3 * i + j - 1 {
      assert a == i && b == j - 1;
    } else {
      RowListAt(root, children, i, j - 1, a, b);
    }
  }

  lemma RowsStep(root: string, children: seq<string>, i: nat, j: nat)
    requires i < |children| && j < 3
    ensures Rows(root, children, i, j + 1) == Rows(root, children, i, j) + (Row(root, children, i, j) + [NEWLINE])
    ensures RowList(root, children, i, j + 1) == RowList(root, children, i, j) + [Row(root, children, i, j)]
  {
    hide Row;
  }

  lemma RowsWrap(root: string, children: seq<string>, i: nat)
    requires 0 < i <= |children|
    ensures Rows(root, children, i, 0) == Rows(root, children, i - 1, 3)
    ensures RowList(root, children, i, 0) == RowList(root, children, i - 1, 3)
  {
  }

  lemma NoRows(root: string, children: seq<string>)
    ensures Splits(Rows(root, children, 0, 0), RowList(root, children, 0, 0))
  {
  }

  lemma {:induction false} RowsSplit(root: string, children: seq<string>, i: nat, j: nat)
    requires OneLine(root) && OneLines(children)
    requires i <= |children| && j <= 3 && (i == |children| ==> j == 0)
    ensures Splits(Rows(root, children, i, j), RowList(root, children, i, j))
    decreases i, j
  {
    hide *;
    if j > 0 {
      RowsSplit(root, children, i, j - 1);
      RowOneLine(root, children, i, j - 1);
      RowsStep(root, children, i, j - 1);
      SplitsAppend(Rows(root, children, i, j - 1), RowList(root, children, i, j - 1), Row(root, children, i, j - 1));
    } else if i > 0 {
      RowsSplit(root, children, i - 1, 3);
      RowsWrap(root, children, i);
    } else {
      NoRows(root, children);
    }
  }

  /** The drawing has three lines a child: exactly the rows. */
  lemma RenderedLines(root: string, children: seq<string>)
    requires OneLine(root) && OneLines(children)
    ensures |SplitLines(Render(root, children))| == 3 * |children|
    ensures forall i: nat, j: nat :: i < |children| && j < 3 ==>
              SplitLines(Render(root, children))[3 * i + j] == Row(root, children, i, j)
  {
    RowsSplit(root, children, |children|, 0);
    forall i: nat, j: nat | i < |children| && j < 3
      ensures RowList(root, children, |children|, 0)[3 * i + j] == Row(root, children, i, j)
    {
      RowListAt(root, children, |children|, 0, i, j);
    }
  }

  /* ---- Decoding ---- */

  /** The bars `s` starts with. */
  function Bars(s: string): nat {
    if s == [] || s[0] != BAR then 0 else 1 + Bars(s[1..])
  }

  /** The longest start of `s` within so many bytes. */
  function TakeBytes(s: string, n: nat): string {
    if s == [] || CharBytes(s[0]) > n then [] else [s[0]] + TakeBytes(s[1..], n - CharBytes(s[0]))
  }

  function Slice(s: string, from: nat, to: int): string {
    if from <= to <= |s| then s[from..to] else []
  }

  function Line(lines: seq<string>, r: nat): string {
    if r < |lines| then lines[r] else []
  }

  /** The root's name: as many bytes of its text row as its top edge has bars, less four. */
  function DecodeRoot(lines: seq<string>): string {
    var m := |lines| / 3 / 2;
    var bars := Bars(Slice(Line(lines, 3 * m), 1, |Line(lines, 3 * m)|));
    TakeBytes(Slice(Line(lines, 3 * m + 1), 3, |Line(lines, 3 * m + 1)|), if bars < 4 then 0 else bars - 4)
  }

  /** A child's name: its text row without the root's column, the connector and the walls. */
  function DecodeChild(lines: seq<string>, root: string, i: nat): string {
    var line := Line(lines, 3 * i + 1);
    Slice(line, |root| + 14, |line| - 3)
  }

  function Decode(text: string): (string, seq<string>) {
    var lines := SplitLines(text);
    var root := DecodeRoot(lines);
    (root, seq(|lines| / 3, i requires 0 <= i < |lines| / 3 => DecodeChild(lines, root, i)))
  }

  lemma {:induction false} BarsOf(n: nat, rest: string)
    requires rest != [] && rest[0] != BAR
    ensures Bars(Repeat(BAR, n) + rest) == n
  {
    var s := Repeat(BAR, n) + rest;
    if n == 0 {
      assert s == rest;
    } else {
      BarsOf(n - 1, rest);
      assert s[1..] == Repeat(BAR, n - 1) + rest;
    }
  }

  lemma {:induction false} TakeBytesOf(s: string, rest: string)
    ensures TakeBytes(s + rest, ByteLen(s)) == s
  {
    if s == [] {
      assert s + rest == rest;
    } else {
      TakeBytesOf(s[1..], rest);
      assert (s + rest)[1..] == s[1..] + rest;
      assert s == [s[0]] + s[1..];
    }
  }

  lemma TopRow(root: string, rest: string)
    requires rest != [] && rest[0] == TOP_RIGHT
    ensures Bars(([TOP_LEFT] + Repeat(BAR, ByteLen(root) + 4) + rest)[1..]) == ByteLen(root) + 4
  {
    var row := [TOP_LEFT] + Repeat(BAR, ByteLen(root) + 4) + rest;
    assert row[1..] == Repeat(BAR, ByteLen(root) + 4) + rest;
    BarsOf(ByteLen(root) + 4, rest);
  }

  lemma TextRow(root: string, rest: string)
    ensures TakeBytes((CellText(root) + rest)[3..], ByteLen(root)) == root
  {
    var after := "  " + [WALL] + rest;
    assert CellText(root) + rest == ([WALL] + "  ") + (root + after);
    assert (CellText(root) + rest)[3..] == root + after;
    TakeBytesOf(root, after);
  }

  /** How the root's first two rows start. */
  lemma RootRows(root: string, children: seq<string>) returns (afterTop: string, afterText: string)
    requires children != []
    ensures afterTop != [] && afterTop[0] == TOP_RIGHT
    ensures Row(root, children, |children| / 2, 0) == [TOP_LEFT] + Repeat(BAR, ByteLen(root) + 4) + afterTop
    ensures Row(root, children, |children| / 2, 1) == CellText(root) + afterText
  {
    hide Middle, Repeat, ByteLen;
    var k, m := |children|, |children| / 2;
    afterTop := [TOP_RIGHT] + Middle(k, m, 0) + Cell(children[m], 0);
    afterText := Middle(k, m, 1) + Cell(children[m], 1);
  }

  lemma TextRowLong(root: string, rest: string)
    ensures |CellText(root) + rest| >= 3
  {
  }

  lemma SliceRest(s: string, n: nat)
    requires n <= |s|
    ensures Slice(s, n, |s|) == s[n..]
  {
  }

  /** The decoder needs of the root's first two rows only how they start. */
  lemma RootRead(root: string, lines: seq<string>, afterTop: string, afterText: string)
    requires |lines| >= 3
    requires afterTop != [] && afterTop[0] == TOP_RIGHT
    requires lines[3 * (|lines| / 3 / 2)] == [TOP_LEFT] + Repeat(BAR, ByteLen(root) + 4) + afterTop
    requires lines[3 * (|lines| / 3 / 2) + 1] == CellText(root) + afterText
    ensures DecodeRoot(lines) == root
  {
    var m := |lines| / 3 / 2;
    TopRow(root, afterTop);
    TextRow(root, afterText);
    TextRowLong(root, afterText);
    hide Bars, TakeBytes, ByteLen, Repeat, CellText, Slice;
    SliceRest(lines[3 * m], 1);
    SliceRest(lines[3 * m + 1], 3);
  }

  lemma RootDecoded(root: string, children: seq<string>, lines: seq<string>)
    requires children != [] && |lines| == 3 * |children|
    requires lines[3 * (|children| / 2)] == Row(root, children, |children| / 2, 0)
    requires lines[3 * (|children| / 2) + 1] == Row(root, children, |children| / 2, 1)
    ensures DecodeRoot(lines) == root
  {
    hide *;
    var afterTop, afterText := RootRows(root, children);
    RootRead(root, lines, afterTop, afterText);
  }

  lemma ChildDecoded(root: string, children: seq<string>, lines: seq<string>, i: nat)
    requires i < |children| && |lines| == 3 * |children|
    requires lines[3 * i + 1] == Row(root, children, i, 1)
    ensures DecodeChild(lines, root, i) == children[i]
  {
    var left := RootCell(root, |children|, i, 1) + Middle(|children|, i, 1) + ([WALL] + "  ");
    ChildRow(root, children, i);
    hide Row, RootCell, Middle;
    SliceMiddle(left, children[i], "  " + [WALL]);
  }

  lemma ChildRow(root: string, children: seq<string>, i: nat)
    requires i < |children|
    ensures var left := RootCell(root, |children|, i, 1) + Middle(|children|, i, 1) + ([WALL] + "  ");
            |left| == |root| + 14 && Row(root, children, i, 1) == left + (children[i] + ("  " + [WALL]))
  {
    hide Branch, Middle;
    MiddleSize(|children|, i, 1);
    assert |Cell(root, 1)| == |root| + 6;
    assert Cell(children[i], 1) == ([WALL] + "  ") + (children[i] + ("  " + [WALL]));
  }

  lemma MiddleSize(k: nat, i: nat, j: nat)
    requires i < k && j < 3
    ensures |Middle(k, i, j)| == 5
  {
  }

  lemma SliceMiddle(a: string, b: string, c: string)
    ensures Slice(a + (b + c), |a|, |a + (b + c)| - |c|) == b
  {
  }

  /** The drawing determines the root's name and the children's, in order, whatever characters they hold on one line. */
  lemma RenderDecodes(root: string, children: seq<string>)
    requires children != []
    requires OneLine(root) && OneLines(children)
    ensures Decode(Render(root, children)) == (root, children)
  {
    hide Row, Render, SplitLines, DecodeRoot, DecodeChild;
    var lines := SplitLines(Render(root, children));
    RenderedLines(root, children);
    var m := |children| / 2;
    assert lines[3 * m + 0] == Row(root, children, m, 0) && lines[3 * m + 1] == Row(root, children, m, 1);
    RootDecoded(root, children, lines);
    forall i: nat | i < |children| ensures DecodeChild(lines, root, i) == children[i] {
      assert lines[3 * i + 1] == Row(root, children, i, 1);
      ChildDecoded(root, children, lines, i);
    }
    assert Decode(Render(root, children)).1 == children;
  }

  lemma RenderInjective(root: string, children: seq<string>, root': string, children': seq<string>)
    requires children != [] && children' != []
    requires OneLine(root) && OneLines(children)
    requires OneLine(root') && OneLines(children')
    requires Render(root, children) == Render(root', children')
    ensures root == root' && children == children'
  {
    RenderDecodes(root, children);
    RenderDecodes(root', children');
  }
}
