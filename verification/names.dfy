/** "namespace/name" keys, the index of `trackedTriggers` and the names of ingresses and egresses. */
module Names {

  /** The `"%s/%s"` join. */
  function Join(namespace: string, name: string): string {
    namespace + "/" + name
  }

  predicate SlashFree(s: string) {
    '/' !in s
  }

  /** When two different pairs share a key: one namespace runs on, past a slash, into the other's name. */
  ghost predicate Straddles(ns: string, n: string, ns': string, n': string) {
    exists t: string :: ns' == ns + "/" + t && n == t + "/" + n'
  }

  lemma JoinAt(ns: string, n: string)
    ensures Join(ns, n)[..|ns|] == ns
    ensures Join(ns, n)[|ns|] == '/'
    ensures Join(ns, n)[|ns| + 1..] == n
  {
    assert Join(ns, n) == ns + ("/" + n);
    assert ("/" + n)[1..] == n;
  }

  /** Two pairs share a key exactly when they are the same pair or one straddles the other. */
  lemma JoinCollision(ns: string, n: string, ns': string, n': string)
    ensures Join(ns, n) == Join(ns', n') <==>
            (ns == ns' && n == n') || Straddles(ns, n, ns', n') || Straddles(ns', n', ns, n)
  {
    if Join(ns, n) == Join(ns', n') {
      JoinAt(ns, n);
      JoinAt(ns', n');
      if |ns| < |ns'| {
        StraddlesWhenShorter(ns, n, ns', n');
      } else if |ns'| < |ns| {
        StraddlesWhenShorter(ns', n', ns, n);
      }
    }
    if Straddles(ns, n, ns', n') {
      StraddlingJoins(ns, n, ns', n');
    }
    if Straddles(ns', n', ns, n) {
      StraddlingJoins(ns', n', ns, n);
    }
  }

  lemma StraddlesWhenShorter(ns: string, n: string, ns': string, n': string)
    requires Join(ns, n) == Join(ns', n') && |ns| < |ns'|
    ensures Straddles(ns, n, ns', n')
  {
    var key := Join(ns, n);
    JoinAt(ns, n);
    JoinAt(ns', n');
    var t := ns'[|ns| + 1..];
    assert ns' == ns + "/" + t by {
      assert ns'[..|ns|] == key[..|ns|];
      assert ns'[|ns|] == key[|ns|];
    }
    assert n == t + "/" + n' by {
      assert key == ns + "/" + (t + "/" + n');
    }
  }

  lemma StraddlingJoins(ns: string, n: string, ns': string, n': string)
    requires Straddles(ns, n, ns', n')
    ensures Join(ns, n) == Join(ns', n')
  {
    var t: string :| ns' == ns + "/" + t && n == t + "/" + n';
    assert Join(ns', n') == ns + "/" + t + "/" + n' == ns + "/" + (t + "/" + n');
  }

  /** Kubernetes namespaces hold no slash; the join is injective on those, whatever the names hold. */
  lemma JoinInjective(ns: string, n: string, ns': string, n': string)
    requires SlashFree(ns) && SlashFree(ns')
    requires Join(ns, n) == Join(ns', n')
    ensures ns == ns' && n == n'
  {
    JoinCollision(ns, n, ns', n');
    StraddlingHasSlash(ns, n, ns', n');
    StraddlingHasSlash(ns', n', ns, n);
  }

  lemma StraddlingHasSlash(ns: string, n: string, ns': string, n': string)
    ensures Straddles(ns, n, ns', n') ==> !SlashFree(ns')
  {
    if Straddles(ns, n, ns', n') {
      var t: string :| ns' == ns + "/" + t && n == t + "/" + n';
      assert ns'[|ns|] == '/';
    }
  }
}

/** String sets listed in ascending order, as Kubernetes' `sets.String` does with `List`. */
module StringLists {

  /** Go's `<` on strings. */
  predicate Less(a: string, b: string) {
    b != [] && (a == [] || a[0] < b[0] || (a[0] == b[0] && Less(a[1..], b[1..])))
  }

  lemma {:induction false} LessTotal(a: string, b: string)
    ensures a == b || Less(a, b) || Less(b, a)
  {
    if a != [] && b != [] && a[0] == b[0] {
      LessTotal(a[1..], b[1..]);
      assert a == [a[0]] + a[1..] && b == [b[0]] + b[1..];
    }
  }

  lemma {:induction false} LessTransitive(a: string, b: string, c: string)
    requires Less(a, b) && Less(b, c)
    ensures Less(a, c)
  {
    if a != [] && a[0] == b[0] == c[0] {
      LessTransitive(a[1..], b[1..], c[1..]);
    }
  }

  lemma {:induction false} LessIrreflexive(a: string)
    ensures !Less(a, a)
  {
    if a != [] {
      LessIrreflexive(a[1..]);
    }
  }

  /** Dictionary order: a proper prefix comes first, otherwise the first difference decides. */
  ghost predicate Precedes(a: string, b: string) {
    a < b || exists i: nat :: Differ(a, b, i) && a[i] < b[i]
  }

  predicate Differ(a: string, b: string, i: nat) {
    i < |a| && i < |b| && a[..i] == b[..i] && a[i] != b[i]
  }

  lemma {:induction false} LessExactly(a: string, b: string)
    ensures Less(a, b) <==> Precedes(a, b)
  {
    if a != [] && b != [] {
      if a[0] != b[0] {
        assert Differ(a, b, 0);
        assert forall i: nat :: Differ(a, b, i) && i > 0 ==> a[..i][0] == b[..i][0];
      } else {
        LessExactly(a[1..], b[1..]);
        PrecedesTail(a, b);
      }
    }
  }

  lemma PrecedesTail(a: string, b: string)
    requires a != [] && b != [] && a[0] == b[0]
    ensures Precedes(a, b) <==> Precedes(a[1..], b[1..])
  {
    assert a == [a[0]] + a[1..] && b == [b[0]] + b[1..];
    forall i: nat | i < |a| - 1 && i < |b| - 1
      ensures Differ(a, b, i + 1) <==> Differ(a[1..], b[1..], i)
    {
      assert a[..i + 1] == [a[0]] + a[1..][..i] && b[..i + 1] == [b[0]] + b[1..][..i];
    }
    if i: nat :| Differ(a, b, i) && a[i] < b[i] {
      assert i > 0 && Differ(a[1..], b[1..], i - 1);
    }
    if i: nat :| Differ(a[1..], b[1..], i) && a[1..][i] < b[1..][i] {
      assert Differ(a, b, i + 1);
    }
  }

  ghost predicate Ascending(s: seq<string>) {
    forall i, j :: 0 <= i < j < |s| ==> Less(s[i], s[j])
  }

  function Elements(s: seq<string>): set<string> {
    set x | x in s
  }

  /** Inserting into an ascending list, at the place the order gives. */
  function Insert(s: seq<string>, x: string): (r: seq<string>)
    requires Ascending(s)
    ensures Ascending(r)
    ensures Elements(r) == Elements(s) + {x}
  {
    if s == [] then [x]
    else if s[0] == x then s
    else if Less(x, s[0]) then
      InsertFront(s, x);
      [x] + s
    else
      LessTotal(x, s[0]);
      var t := Insert(s[1..], x);
      InsertBack(s, x, t);
      [s[0]] + t
  }

  lemma InsertFront(s: seq<string>, x: string)
    requires Ascending(s) && s != [] && Less(x, s[0])
    ensures Ascending([x] + s)
    ensures Elements([x] + s) == Elements(s) + {x}
  {
    forall j | 0 < j < |s| ensures Less(x, s[j]) {
      LessTransitive(x, s[0], s[j]);
    }
  }

  lemma InsertBack(s: seq<string>, x: string, t: seq<string>)
    requires Ascending(s) && s != [] && Less(s[0], x)
    requires Ascending(t) && Elements(t) == Elements(s[1..]) + {x}
    ensures Ascending([s[0]] + t)
    ensures Elements([s[0]] + t) == Elements(s) + {x}
  {
    forall j | 0 <= j < |t| ensures Less(s[0], t[j]) {
      assert t[j] in Elements(t);
    }
    forall y ensures y in Elements([s[0]] + t) <==> y in Elements(s) + {x} {
      assert y in Elements(t) <==> y in Elements(s[1..]) || y == x;
      assert s == [s[0]] + s[1..];
    }
  }

  function InsertAll(s: seq<string>, xs: seq<string>): (r: seq<string>)
    requires Ascending(s)
    ensures Ascending(r)
    ensures Elements(r) == Elements(s) + Elements(xs)
    decreases xs
  {
    if xs == [] then s
    else
      assert xs == [xs[0]] + xs[1..];
      InsertAll(Insert(s, xs[0]), xs[1..])
  }

  /** `sets.NewString(a...).Insert(b...).List()`. */
  function SortedUnion(a: seq<string>, b: seq<string>): (r: seq<string>)
    ensures Ascending(r)
    ensures Elements(r) == Elements(a) + Elements(b)
  {
    InsertAll(InsertAll([], a), b)
  }

  /** An ascending list is determined by its elements, so the order of insertion cannot show. */
  lemma {:induction false} AscendingUnique(a: seq<string>, b: seq<string>)
    requires Ascending(a) && Ascending(b)
    requires Elements(a) == Elements(b)
    ensures a == b
  {
    assert a != [] ==> a[0] in Elements(a);
    assert b != [] ==> b[0] in Elements(b);
    if a != [] && b != [] {
      AscendingHeads(a, b);
      AscendingTail(a);
      AscendingTail(b);
      AscendingUnique(a[1..], b[1..]);
      assert a == [a[0]] + a[1..] && b == [b[0]] + b[1..];
    }
  }

  lemma AscendingHeads(a: seq<string>, b: seq<string>)
    requires Ascending(a) && Ascending(b) && a != [] && b != []
    requires Elements(a) == Elements(b)
    ensures a[0] == b[0]
  {
    assert a[0] in Elements(b) && b[0] in Elements(a);
    var i :| 0 <= i < |b| && b[i] == a[0];
    var j :| 0 <= j < |a| && a[j] == b[0];
    if 0 < i && 0 < j {
      LessTransitive(a[0], a[j], a[0]);
      LessIrreflexive(a[0]);
    }
  }

  lemma AscendingTail(a: seq<string>)
    requires Ascending(a) && a != []
    ensures Ascending(a[1..])
    ensures Elements(a[1..]) == Elements(a) - {a[0]}
  {
    LessIrreflexive(a[0]);
    assert a == [a[0]] + a[1..];
    forall y | y in a[1..] ensures y != a[0] {
      var k :| 0 <= k < |a[1..]| && a[1..][k] == y;
      assert Less(a[0], a[k + 1]);
    }
  }

  /** A merged list is the one list of both lists' elements, each once, in dictionary order. */
  lemma SortedUnionExactly(a: seq<string>, b: seq<string>, r: seq<string>)
    ensures r == SortedUnion(a, b) <==>
              && (forall x :: x in r <==> x in a || x in b)
              && (forall i, j :: 0 <= i < j < |r| ==> Precedes(r[i], r[j]))
  {
    hide Precedes;
    var u := SortedUnion(a, b);
    forall s: string, t: string ensures Less(s, t) <==> Precedes(s, t) {
      LessExactly(s, t);
    }
    hide Less;
    assert forall x :: x in u <==> x in Elements(u);
    assert forall x :: x in a || x in b <==> x in Elements(a) + Elements(b);
    if (forall x :: x in r <==> x in a || x in b) && forall i, j :: 0 <= i < j < |r| ==> Precedes(r[i], r[j]) {
      assert Elements(r) == Elements(u);
      AscendingUnique(r, u);
    }
  }
}
