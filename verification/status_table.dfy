/** The rows of the status table: broker classes beside ingress entries. */
module StatusTable {
  import opened Drawing
  import opened DrawingLaws
  import opened Mesh
  import opened Names

  // The pointers the table follows: a nil one is None.
  datatype Target = Target(ref: Option<KReference>)
  datatype EgressStatus = EgressStatus(name: string, destination: Option<Target>)
  datatype IngressStatus = IngressStatus(name: string, url: Option<string>, egresses: seq<EgressStatus>)
  datatype MeshStatus = MeshStatus(classes: seq<string>, ingresses: seq<IngressStatus>)

  datatype TableRow = TableRow(class_: string, ingress: string, state: string)

  predicate Linked(e: EgressStatus) {
    e.destination.Some? && e.destination.value.ref.Some?
  }

  /** No nil pointer is in the way of printing the ingress. */
  predicate Printable(i: IngressStatus) {
    i.url.Some? && forall e :: e in i.egresses ==> Linked(e)
  }

  /** No pointer on the way to a label is nil, and that is all it takes. */
  lemma PrintableExactly(i: IngressStatus)
    ensures Printable(i) <==>
              && i.url != None
              && forall e :: e in i.egresses ==> exists ref :: e.destination == Some(Target(Some(ref)))
  {
    forall e ensures Linked(e) <==> exists ref :: e.destination == Some(Target(Some(ref))) {
      if Linked(e) {
        assert e.destination == Some(Target(Some(e.destination.value.ref.value)));
      }
    }
  }

  function Label(e: EgressStatus): string
    requires Linked(e)
  {
    var ref := e.destination.value.ref.value;
    "[" + Join(ref.namespace, ref.name) + "]"
  }

  function Labels(egresses: seq<EgressStatus>): seq<string>
    requires forall e :: e in egresses ==> Linked(e)
  {
    seq(|egresses|, n requires 0 <= n < |egresses| => Label(egresses[n]))
  }

  function Head(name: string, url: string): string {
    "Broker: " + name + " \nURL: " + url + "\n"
  }

  function BrokerLabel(name: string): string {
    "[B] " + name
  }

  function Entry(i: IngressStatus): string
    requires Printable(i)
  {
    Head(i.name, i.url.value) + Topology(i)
  }

  /** The drawing part of an entry, if there is anything to draw. */
  function Topology(i: IngressStatus): string
    requires Printable(i)
  {
    if i.egresses == [] then "" else "\nTopology:\n" + Render(BrokerLabel(i.name), Labels(i.egresses)) + "\n"
  }

  /** A list as a table column: a dash when there is nothing to show. */
  function Padded(s: seq<string>): (r: seq<string>)
    ensures r != []
  {
    if s == [] then ["-"] else s
  }

  function Entries(ingresses: seq<IngressStatus>): seq<string>
    requires forall i :: i in ingresses ==> Printable(i)
  {
    seq(|ingresses|, n requires 0 <= n < |ingresses| => Entry(ingresses[n]))
  }

  /** `s[r]`, and the last element from there on. */
  function At(s: seq<string>, r: nat): string
    requires s != []
  {
    if r < |s| then s[r] else s[|s| - 1]
  }

  /** The text of one ingress; None when a nil pointer is followed. */
  method IngressEntry(i: IngressStatus, sprintf: string -> string) returns (text: Option<string>)
    ensures text == if Printable(i) then Some(Entry(i)) else None
  {
    hide Render, Head, Label;
    if i.url.None? {
      return None;
    }
    var l := Head(i.name, i.url.value);
    ghost var head := l;
    if |i.egresses| > 0 {
      l := l + "\nTopology:\n";
      var n := new Node(BrokerLabel(i.name));
      for x := 0 to |i.egresses|
        invariant forall y :: 0 <= y < x ==> Linked(i.egresses[y])
        invariant n.name == BrokerLabel(i.name) && |n.outVertices| == x
        invariant forall y :: 0 <= y < x ==> n.outVertices[y].name == Label(i.egresses[y])
      {
        var e := i.egresses[x];
        assert e in i.egresses;
        if !Linked(e) {
          return None;
        }
        var v := n.Insert(Label(e));
      }
      assert ChildNames(n.outVertices) == Labels(i.egresses);
      var drawing := SPPrint(n, sprintf);
      l := l + drawing + "\n";
      assert l == head + ("\nTopology:\n" + drawing + "\n");
    }
    assert Printable(i);
    assert head + "" == head;
    text := Some(l);
  }

  method IngressEntries(ingresses: seq<IngressStatus>, sprintf: string -> string) returns (result: Option<seq<string>>)
    ensures result.Some? <==> forall i :: i in ingresses ==> Printable(i)
    ensures result.Some? ==> result.value == Padded(Entries(ingresses))
  {
    hide Entry;
    if |ingresses| == 0 {
      return Some(["-"]);
    }
    var entries := [];
    for x := 0 to |ingresses|
      invariant forall y :: 0 <= y < x ==> Printable(ingresses[y])
      invariant |entries| == x && forall y :: 0 <= y < x ==> entries[y] == Entry(ingresses[y])
    {
      var text := IngressEntry(ingresses[x], sprintf);
      assert ingresses[x] in ingresses;
      if text.None? {
        return None;
      }
      entries := entries + [text.value];
    }
    assert entries == Entries(ingresses);
    result := Some(entries);
  }

  const READY := "Ready"
  const NOT_INITIALIZED := "Not initialized"

  /** As many rows as the longer list, the shorter one's last element repeated. */
  ghost predicate Paired(classes: seq<string>, entries: seq<string>, rows: seq<TableRow>)
    requires classes != [] && entries != []
  {
    && |rows| == (if |entries| > |classes| then |entries| else |classes|)
    && forall r :: 0 <= r < |rows| ==> rows[r] == TableRow(At(classes, r), At(entries, r), READY)
  }

  /** Every class and every entry is in some row, and nothing else is. */
  ghost predicate AllShown(classes: seq<string>, entries: seq<string>, rows: seq<TableRow>) {
    && (forall c :: c in classes <==> exists r :: 0 <= r < |rows| && rows[r].class_ == c)
    && (forall e :: e in entries <==> exists r :: 0 <= r < |rows| && rows[r].ingress == e)
  }

  /** Pairing by the clamped index drops nothing of either list. */
  lemma PairingShowsAll(classes: seq<string>, entries: seq<string>, rows: seq<TableRow>)
    requires classes != [] && entries != [] && Paired(classes, entries, rows)
    ensures AllShown(classes, entries, rows)
  {
    forall c | c in classes ensures exists r :: 0 <= r < |rows| && rows[r].class_ == c {
      var r :| 0 <= r < |classes| && classes[r] == c;
      assert rows[r].class_ == c;
    }
    forall e | e in entries ensures exists r :: 0 <= r < |rows| && rows[r].ingress == e {
      var r :| 0 <= r < |entries| && entries[r] == e;
      assert rows[r].ingress == e;
    }
  }

  /** The two loops that walk the longer list and hold the shorter one's index at its last element. */
  method PairRows(classes: seq<string>, ingresses: seq<string>) returns (out: seq<TableRow>)
    requires classes != [] && ingresses != []
    ensures Paired(classes, ingresses, out)
  {
    out := [];
    if |ingresses| > |classes| {
      var c := 0;
      var last := |classes| - 1;
      for x := 0 to |ingresses|
        invariant c == if x < last then x else last
        invariant |out| == x && forall r :: 0 <= r < x ==> out[r] == TableRow(At(classes, r), At(ingresses, r), READY)
      {
        out := out + [TableRow(classes[c], ingresses[x], READY)];
        if c < last {
          c := c + 1;
        }
      }
    } else {
      var i := 0;
      var last := |ingresses| - 1;
      for x := 0 to |classes|
        invariant i == if x < last then x else last
        invariant |out| == x && forall r :: 0 <= r < x ==> out[r] == TableRow(At(classes, r), At(ingresses, r), READY)
      {
        out := out + [TableRow(classes[x], ingresses[i], READY)];
        if i < last {
          i := i + 1;
        }
      }
    }
  }

  /** The rows; None when printing an ingress follows a nil pointer. */
  method NewMeshTableRow(mesh: Option<MeshStatus>, sprintf: string -> string) returns (rows: Option<seq<TableRow>>)
    ensures mesh.None? ==> rows == Some([TableRow("-", "-", "Not initialized")])
    ensures mesh.Some? && mesh.value.classes == [] && rows.Some? ==>
              forall r :: 0 <= r < |rows.value| ==> rows.value[r].class_ == "-"
    ensures mesh.Some? && mesh.value.ingresses == [] && rows.Some? ==>
              forall r :: 0 <= r < |rows.value| ==> rows.value[r].ingress == "-"
    ensures mesh.Some? ==> (rows.Some? <==> forall i :: i in mesh.value.ingresses ==> Printable(i))
    ensures mesh.Some? && rows.Some? ==>
              var classes, entries := Padded(mesh.value.classes), Padded(Entries(mesh.value.ingresses));
              Paired(classes, entries, rows.value) && AllShown(classes, entries, rows.value)
  {
    if mesh.None? {
      return Some([TableRow("-", "-", NOT_INITIALIZED)]);
    }
    var classes := mesh.value.classes;
    if |classes| == 0 {
      classes := ["-"];
    }
    var entries := IngressEntries(mesh.value.ingresses, sprintf);
    if entries.None? {
      return None;
    }
    hide Paired, AllShown;
    var ingresses := entries.value;
    var out := PairRows(classes, ingresses);
    PairingShowsAll(classes, ingresses, out);
    RowsExactly(classes, ingresses, out);
    rows := Some(out);
  }

  /** An entry's text shows all there is in it: the broker, its URL, and the destinations in order. */
  lemma EntryShowsAll(i: IngressStatus, i': IngressStatus)
    requires Printable(i) && Printable(i') && Entry(i) == Entry(i')
    requires OneLine(i.name) && OneLine(i.url.value) && OneLines(Labels(i.egresses))
    requires OneLine(i'.name) && OneLine(i'.url.value) && OneLines(Labels(i'.egresses))
    ensures i.name == i'.name && i.url == i'.url && |i.egresses| == |i'.egresses|
    ensures forall n :: 0 <= n < |i.egresses| ==> Label(i.egresses[n]) == Label(i'.egresses[n])
  {
    hide Label, Render, OneLine, Head;
    HeadShows(i.name, i.url.value, Topology(i), i'.name, i'.url.value, Topology(i'));
    NameOneLine(i.name);
    if i.egresses != [] && i'.egresses != [] {
      var root, l, l' := BrokerLabel(i.name), Labels(i.egresses), Labels(i'.egresses);
      SamePrefix("\nTopology:\n", Render(root, l), Render(root, l'), "\n");
      RenderInjective(root, l, root, l');
      assert |l| == |l'|;
      forall n | 0 <= n < |i.egresses|
        ensures Label(i.egresses[n]) == Label(i'.egresses[n])
      {
        assert l[n] == l'[n];
      }
    }
  }

  /** The first two lines show broker and URL, and leave the rest. */
  lemma HeadShows(name: string, url: string, rest: string, name': string, url': string, rest': string)
    requires OneLine(name) && OneLine(url) && OneLine(name') && OneLine(url')
    requires Head(name, url) + rest == Head(name', url') + rest'
    ensures name == name' && url == url' && rest == rest'
  {
    var a, a' := "Broker: " + name + " ", "Broker: " + name' + " ";
    var b, b' := "URL: " + url, "URL: " + url';
    assert Head(name, url) + rest == a + ([NEWLINE] + (b + ([NEWLINE] + rest)));
    assert Head(name', url') + rest' == a' + ([NEWLINE] + (b' + ([NEWLINE] + rest')));
    SameLine(a, b + ([NEWLINE] + rest), a', b' + ([NEWLINE] + rest'));
    SameLine(b, rest, b', rest');
    SamePrefix("Broker: ", name, name', " ");
    assert b + "" == b && b' + "" == b';
    SamePrefix("URL: ", url, url', "");
  }

  /** Equal texts have equal first lines. */
  lemma SameLine(a: string, rest: string, b: string, rest': string)
    requires OneLine(a) && OneLine(b)
    requires a + ([NEWLINE] + rest) == b + ([NEWLINE] + rest')
    ensures a == b && rest == rest'
  {
    var x, y := a + ([NEWLINE] + rest), b + ([NEWLINE] + rest');
    assert x[|a|] == NEWLINE && y[|b|] == NEWLINE;
    assert x[..|a|] == a && y[..|b|] == b;
    assert forall k :: 0 <= k < |a| ==> x[k] == a[k] && a[k] in a;
    assert forall k :: 0 <= k < |b| ==> y[k] == b[k] && b[k] in b;
    assert x[|a| + 1..] == rest && y[|b| + 1..] == rest';
  }

  lemma NameOneLine(name: string)
    requires OneLine(name)
    ensures OneLine(BrokerLabel(name))
  {
  }

  lemma SamePrefix(before: string, a: string, b: string, after: string)
    requires before + a + after == before + b + after
    ensures a == b
  {
    assert |a| == |b|;
    assert a == (before + a + after)[|before|..|before| + |a|];
    assert b == (before + b + after)[|before|..|before| + |b|];
  }

  /** Labels tell destinations apart where namespaces hold no slash. */
  lemma LabelIdentifies(e: EgressStatus, e': EgressStatus)
    requires Linked(e) && Linked(e')
    requires SlashFree(e.destination.value.ref.value.namespace) && SlashFree(e'.destination.value.ref.value.namespace)
    requires Label(e) == Label(e')
    ensures e.destination.value.ref.value.namespace == e'.destination.value.ref.value.namespace
    ensures e.destination.value.ref.value.name == e'.destination.value.ref.value.name
  {
    var r, r' := e.destination.value.ref.value, e'.destination.value.ref.value;
    var a, b := Join(r.namespace, r.name), Join(r'.namespace, r'.name);
    hide Join;
    SamePrefix("[", a, b, "]");
    JoinInjective(r.namespace, r.name, r'.namespace, r'.name);
  }

  /** The lines of an entry: broker, URL and, if it has egresses, a heading with the lines of the drawing. */
  function EntryLines(i: IngressStatus, drawing: seq<string>): seq<string>
    requires i.url.Some?
  {
    ["Broker: " + i.name + " ", "URL: " + i.url.value]
    + if i.egresses == [] then [] else ["", "Topology:"] + drawing + [""]
  }

  lemma EntryHasLines(i: IngressStatus)
    requires Printable(i) && OneLine(i.name) && OneLine(i.url.value) && OneLines(Labels(i.egresses))
    ensures SplitLines(Entry(i)) == EntryLines(i, SplitLines(Render(BrokerLabel(i.name), Labels(i.egresses))))
  {
    hide Render, Label, SplitLines, OneLine, EntryLines, Entry;
    var text := Render(BrokerLabel(i.name), Labels(i.egresses));
    NameOneLine(i.name);
    DrawingEnded(BrokerLabel(i.name), Labels(i.egresses));
    SplitJoins(text);
    EntryJoins(i, SplitLines(text));
    LinesOneLine(i, SplitLines(text));
    JoinSplits(EntryLines(i, SplitLines(text)));
  }

  lemma DrawingEnded(root: string, children: seq<string>)
    requires OneLine(root) && OneLines(children)
    ensures Ended(Render(root, children))
  {
    RowsSplit(root, children, |children|, 0);
  }

  lemma LinesOneLine(i: IngressStatus, drawing: seq<string>)
    requires i.url.Some? && OneLine(i.name) && OneLine(i.url.value) && OneLines(drawing)
    ensures OneLines(EntryLines(i, drawing))
  {
  }

  lemma EntryJoins(i: IngressStatus, drawing: seq<string>)
    requires Printable(i) && JoinLines(drawing) == Render(BrokerLabel(i.name), Labels(i.egresses))
    ensures JoinLines(EntryLines(i, drawing)) == Entry(i)
  {
    hide Render, Labels;
    var a, b := "Broker: " + i.name + " ", "URL: " + i.url.value;
    TwoLines(a, b);
    assert Head(i.name, i.url.value) == a + [NEWLINE] + (b + [NEWLINE]);
    if i.egresses != [] {
      TwoLines("", "Topology:");
      JoinConcat([a, b], ["", "Topology:"] + drawing + [""]);
      JoinConcat(["", "Topology:"], drawing);
      JoinAppend(["", "Topology:"] + drawing, "");
      hide JoinLines;
      assert "" + [NEWLINE] + ("Topology:" + [NEWLINE]) == "\nTopology:\n";
      assert "" + [NEWLINE] == "\n";
    } else {
      assert [a, b] + [] == [a, b];
    }
  }

  lemma TwoLines(a: string, b: string)
    ensures JoinLines([a, b]) == a + [NEWLINE] + (b + [NEWLINE])
  {
    var none: seq<string> := [];
    JoinAppend(none, a);
    JoinAppend(none + [a], b);
    assert none + [a] + [b] == [a, b];
  }

  /** The drawing shows the broker at its root and each destination, by namespace and name, as a child. */
  lemma TopologyShows(i: IngressStatus, n: nat)
    requires Printable(i) && n < |i.egresses| && OneLine(i.name) && OneLines(Labels(i.egresses))
    requires Linked(i.egresses[n])
    ensures var (root, children) := Decode(Render(BrokerLabel(i.name), Labels(i.egresses)));
            var ref := i.egresses[n].destination.value.ref.value;
            root == "[B] " + i.name && |children| == |i.egresses|
            && children[n] == "[" + (ref.namespace + "/" + ref.name) + "]"
  {
    hide Render, Decode;
    NameOneLine(i.name);
    RenderDecodes(BrokerLabel(i.name), Labels(i.egresses));
  }

  /** Row `r` shows class `r` and entry `r`, the last ones from there on, and that the mesh is ready. */
  lemma RowsExactly(classes: seq<string>, entries: seq<string>, rows: seq<TableRow>)
    requires classes != [] && entries != [] && Paired(classes, entries, rows)
    ensures |rows| >= |classes| && |rows| >= |entries| && (|rows| == |classes| || |rows| == |entries|)
    ensures forall r :: 0 <= r < |rows| ==> rows[r].state == "Ready"
    ensures forall r :: 0 <= r < |rows| ==>
              rows[r].class_ == if r < |classes| then classes[r] else classes[|classes| - 1]
    ensures forall r :: 0 <= r < |rows| ==>
              rows[r].ingress == if r < |entries| then entries[r] else entries[|entries| - 1]
  {
  }
}
