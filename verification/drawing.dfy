/** The box drawing of a node and its children. */
module Drawing {

  // The box-drawing characters in use.
  const BAR: char := '\U{2501}'
  const WALL: char := '\U{2503}'
  const TOP_LEFT: char := '\U{250F}'
  const TOP_RIGHT: char := '\U{2513}'
  const LOW_LEFT: char := '\U{2517}'
  const LOW_RIGHT: char := '\U{251B}'
  const TEE: char := '\U{2523}'
  const CROSS: char := '\U{254B}'
  const UP: char := '\U{253B}'
  const ARROW: char := '\U{25B6}'
  const NEWLINE: char := '\n'

  function Repeat(c: char, n: nat): string {
    seq(n, _ => c)
  }

  /** Go's `len` of a string: bytes of its UTF-8 form. */
  function CharBytes(c: char): nat {
    if c as int < 0x80 then 1 else if c as int < 0x800 then 2 else if c as int < 0x10000 then 3 else 4
  }

  function ByteLen(s: string): nat {
    if s == [] then 0 else CharBytes(s[0]) + ByteLen(s[1..])
  }

  function CellTop(text: string): string {
    [TOP_LEFT] + Repeat(BAR, ByteLen(text) + 4) + [TOP_RIGHT]
  }

  function CellText(text: string): string {
    [WALL] + "  " + text + "  " + [WALL]
  }

  function CellLower(text: string): string {
    [LOW_LEFT] + Repeat(BAR, ByteLen(text) + 4) + [LOW_RIGHT]
  }

  /** The rows of a node's box. */
  function Cell(name: string, j: nat): string
    requires j < 3
  {
    if j == 0 then CellTop(name) else if j == 1 then CellText(name) else CellLower(name)
  }

  function Box(name: string): seq<string> {
    [Cell(name, 0), Cell(name, 1), Cell(name, 2)]
  }

  class Node {
    var name: string
    var outVertices: seq<Node>
    var inVertices: seq<Node>

    constructor (name: string)
      ensures this.name == name && outVertices == [] && inVertices == []
    {
      this.name, outVertices, inVertices := name, [], [];
    }

    method Insert(name: string) returns (v: Node)
      modifies this`outVertices
      ensures outVertices == old(outVertices) + [v]
      ensures fresh(v) && v.name == name && v.outVertices == [] && v.inVertices == []
    {
      v := new Node(name);
      outVertices := outVertices + [v];
    }
  }

  function ChildNames(vs: seq<Node>): seq<string>
    reads vs
  {
    seq(|vs|, i requires 0 <= i < |vs| reads vs => vs[i].name)
  }

  method ToAscii(g: Node) returns (output: seq<string>)
    ensures output == Box(g.name)
  {
    output := [];
    output := output + [CellTop(g.name)];
    output := output + [CellText(g.name)];
    output := output + [CellLower(g.name)];
  }

  /* ---- The drawing, row by row, with no state carried from one row to the next ---- */

  /** The branch drawn at child `i` of `k`, on the row of its text. */
  function Branch(k: nat, i: nat): string
    requires i < k
  {
    if k == 1 then [BAR, BAR, BAR, BAR, ARROW]
    else if i == 0 then [' ', TOP_LEFT, BAR, BAR, ARROW]
    else if i == k - 1 && k > 2 then [' ', LOW_LEFT, BAR, BAR, ARROW]
    else if i == k - 1 then [BAR, UP, BAR, BAR, ARROW]
    else if i == k / 2 then [BAR, CROSS, BAR, BAR, ARROW]
    else [' ', TEE, BAR, BAR, ARROW]
  }

  /** The columns between the root's box and the children, on row `j` of child `i`. */
  function Middle(k: nat, i: nat, j: nat): string
    requires i < k && j < 3
  {
    if j == 1 then Branch(k, i)
    else if (if j == 0 then 0 < i else i < k - 1) then [' ', WALL, ' ', ' ', ' ']
    else "     "
  }

  /** The root's box beside child `k / 2`, blank beside the others. */
  function RootCell(root: string, k: nat, i: nat, j: nat): string
    requires j < 3
  {
    if i == k / 2 then Cell(root, j) else Repeat(' ', |Cell(root, j)|)
  }

  function Row(root: string, children: seq<string>, i: nat, j: nat): string
    requires i < |children| && j < 3
  {
    RootCell(root, |children|, i, j) + Middle(|children|, i, j) + Cell(children[i], j)
  }

  /** All rows before row `j` of child `i`, each ended by a newline. */
  function Rows(root: string, children: seq<string>, i: nat, j: nat): string
    requires i <= |children| && j <= 3 && (i == |children| ==> j == 0)
    decreases i, j
  {
    if j > 0 then Rows(root, children, i, j - 1) + (Row(root, children, i, j - 1) + [NEWLINE])
    else if i > 0 then Rows(root, children, i - 1, 3)
    else ""
  }

  function Render(root: string, children: seq<string>): string {
    Rows(root, children, |children|, 0)
  }

  lemma RowParts(root: string, children: seq<string>, i: nat, j: nat, left: string, mid: string, cell: string)
    requires i < |children| && j < 3
    requires left == if i == |children| / 2 then Cell(root, j) else Repeat(' ', |Cell(root, j)|)
    requires mid == Middle(|children|, i, j) && cell == Cell(children[i], j)
    ensures Rows(root, children, i, j + 1) == Rows(root, children, i, j) + (left + mid + cell + [NEWLINE])
  {
  }

  /** The part between the boxes on row `j` of child `i`, and the connector handed to the next row. */
  method Connect(k: nat, m: nat, i: nat, j: nat, vertical: string) returns (mid: string, next: string)
    requires i < k && m == k / 2 && j < 3
    requires vertical == if (if j < 2 then 0 < i else i < k - 1) then [' ', WALL] else "  "
    ensures mid == Middle(k, i, j)
    ensures next == if (if j < 1 then 0 < i else i < k - 1) then [' ', WALL] else "  "
  {
    next := vertical;
    if j == 1 {
      if k == 1 {
        mid := [BAR, BAR, BAR, BAR, ARROW];
      } else if k == 2 {
        if i == 0 {
          next := [' ', WALL];
          mid := [' ', TOP_LEFT, BAR, BAR, ARROW];
        } else {
          next := "  ";
          mid := [BAR, UP, BAR, BAR, ARROW];
        }
      } else if i == 0 {
        next := [' ', WALL];
        mid := [' ', TOP_LEFT, BAR, BAR, ARROW];
      } else if i == m {
        next := [' ', WALL];
        mid := [BAR, CROSS, BAR, BAR, ARROW];
      } else if i < k - 1 {
        next := [' ', WALL];
        mid := [' ', TEE, BAR, BAR, ARROW];
      } else {
        next := "  ";
        mid := [' ', LOW_LEFT, BAR, BAR, ARROW];
      }
    } else {
      mid := vertical + "   ";
    }
  }

  /**
   * The string builder's text. `sprintf` stands for formatting a line without operands, which a childless node
   * goes through.
   */
  method SPPrint(n: Node, sprintf: string -> string) returns (text: string)
    ensures n.outVertices != [] ==> text == Render(n.name, ChildNames(n.outVertices))
    ensures n.outVertices == [] ==>
              text == sprintf(Cell(n.name, 0)) + sprintf(Cell(n.name, 1)) + sprintf(Cell(n.name, 2))
  {
    hide Cell, Middle, Row, Branch, Repeat, CellTop, CellText, CellLower;
    var b := "";
    var output := ToAscii(n);
    ghost var names := ChildNames(n.outVertices);
    if |n.outVertices| > 0 {
      var children: seq<seq<string>> := [];
      for v := 0 to |n.outVertices|
        invariant |children| == v && forall x :: 0 <= x < v ==> children[x] == Box(names[x])
      {
        var child := ToAscii(n.outVertices[v]);
        children := children + [child];
      }
      var m := |children| / 2;
      var k := |children|;
      var vertical := "  ";
      for i := 0 to k
        invariant b == Rows(n.name, names, i, 0)
        invariant vertical == if 0 < i < k then [' ', WALL] else "  "
      {
        var printNode := i == m;
        for j := 0 to 3
          invariant b == Rows(n.name, names, i, j)
          invariant vertical == if (if j < 2 then 0 < i else i < k - 1) then [' ', WALL] else "  "
        {
          var left := if printNode then output[j] else Repeat(' ', |output[j]|);
          var mid;
          mid, vertical := Connect(k, m, i, j, vertical);
          RowParts(n.name, names, i, j, left, mid, children[i][j]);
          b := b + (left + mid + children[i][j] + [NEWLINE]);
        }
      }
      text := b;
    } else {
      for j := 0 to 3
        invariant b == if j == 0 then "" else if j == 1 then sprintf(output[0])
                       else if j == 2 then sprintf(output[0]) + sprintf(output[1])
                       else sprintf(output[0]) + sprintf(output[1]) + sprintf(output[2])
      {
        b := b + sprintf(output[j]);
      }
      text := b;
    }
  }
}
