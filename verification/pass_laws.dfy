/** What a caller gets from one pass, and from a second one. */
module PassLaws {
  import opened Bags
  import opened Mesh
  import opened PassLemmas
  import opened PassSpec
  import opened StringLists

  /* ---- Class by class ---- */

  /** Where the run of class `i` starts in a list that realizes `bags`. */
  ghost function Start<T>(bags: seq<multiset<T>>, i: nat): nat
    requires i <= |bags|
  {
    if i == 0 then 0 else Start(bags, i - 1) + |bags[i - 1]|
  }

  lemma {:induction false} StartPrefix<T>(bags: seq<multiset<T>>, n: nat, i: nat)
    requires i <= n <= |bags|
    ensures Start(bags[..n], i) == Start(bags, i)
  {
    if i > 0 {
      StartPrefix(bags, n, i - 1);
    }
  }

  lemma {:induction false} StartMonotone<T>(bags: seq<multiset<T>>, i: nat, j: nat)
    requires i <= j <= |bags|
    ensures Start(bags, i) <= Start(bags, j)
  {
    if i < j {
      StartMonotone(bags, i, j - 1);
    }
  }

  /** A realized list ends with the last bag's run, after a list that realizes the other bags. */
  lemma RealizesLast(ingresses: seq<Ingress>, bags: seq<multiset<IngressView>>) returns (n: nat)
    requires Realizes(ingresses, bags) && bags != []
    ensures n == |ingresses| - |bags[|bags| - 1]|
    ensures Realizes(ingresses[..n], bags[..|bags| - 1])
    ensures multiset(Views(ingresses[n..])) == bags[|bags| - 1]
  {
    hide Views;
    n := |ingresses| - |bags[|bags| - 1]|;
  }

  lemma {:induction false} RealizedLength(ingresses: seq<Ingress>, bags: seq<multiset<IngressView>>)
    requires Realizes(ingresses, bags)
    ensures |ingresses| == Start(bags, |bags|)
    decreases |bags|
  {
    if bags != [] {
      var last := |bags| - 1;
      var n := RealizesLast(ingresses, bags);
      hide Realizes, Views;
      RealizedLength(ingresses[..n], bags[..last]);
      StartPrefix(bags, last, last);
    }
  }

  lemma SliceOfFront<T>(s: seq<T>, n: nat, lo: nat, hi: nat)
    requires lo <= hi <= n <= |s|
    ensures s[..n][lo..hi] == s[lo..hi]
  {
  }

  /** The last run starts where the others end. */
  lemma LastRun(ingresses: seq<Ingress>, bags: seq<multiset<IngressView>>)
    requires Realizes(ingresses, bags) && bags != []
    ensures Start(bags, |bags| - 1) <= Start(bags, |bags|) == |ingresses|
    ensures multiset(Views(ingresses[Start(bags, |bags| - 1)..Start(bags, |bags|)])) == bags[|bags| - 1]
  {
    var n := RealizesLast(ingresses, bags);
    RealizedLength(ingresses, bags);
    hide Realizes, Views;
    assert Start(bags, |bags| - 1) == n && ingresses[n..|ingresses|] == ingresses[n..];
  }

  /** An earlier run is the same one in the shorter list. */
  lemma EarlierRun(ingresses: seq<Ingress>, bags: seq<multiset<IngressView>>, n: nat, i: nat)
    requires i < |bags| - 1 && n <= |ingresses|
    requires Start(bags[..|bags| - 1], i) <= Start(bags[..|bags| - 1], i + 1) <= n
    ensures Start(bags, i) <= Start(bags, i + 1) <= n
    ensures ingresses[Start(bags, i)..Start(bags, i + 1)] ==
            ingresses[..n][Start(bags[..|bags| - 1], i)..Start(bags[..|bags| - 1], i + 1)]
  {
    StartPrefix(bags, |bags| - 1, i);
    StartPrefix(bags, |bags| - 1, i + 1);
    SliceOfFront(ingresses, n, Start(bags, i), Start(bags, i + 1));
  }

  /** A realized list has exactly the bags' entries, run by run in the order of the classes. */
  lemma {:induction false} RunOfClass(ingresses: seq<Ingress>, bags: seq<multiset<IngressView>>, i: nat)
    requires Realizes(ingresses, bags) && i < |bags|
    ensures Start(bags, i) <= Start(bags, i + 1) <= Start(bags, |bags|) == |ingresses|
    ensures multiset(Views(ingresses[Start(bags, i)..Start(bags, i + 1)])) == bags[i]
    decreases |bags|
  {
    hide Realizes, Views, Start;
    if i == |bags| - 1 {
      LastRun(ingresses, bags);
    } else {
      var n := RealizesLast(ingresses, bags);
      RealizedLength(ingresses, bags);
      RunOfClass(ingresses[..n], bags[..|bags| - 1], i);
      EarlierRun(ingresses, bags, n, i);
    }
  }

  /** Map iteration order cannot show: the verdict, the caches and each class's ingresses up to order are fixed. */
  lemma OrderIndependent(pre: Cache, cs: seq<string>, b: BrokerBinding, l: Listers,
                         post: Cache, result: Option<seq<Ingress>>, post': Cache, result': Option<seq<Ingress>>)
    requires PassOutcome(pre, cs, b, l, post, result)
    requires PassOutcome(pre, cs, b, l, post', result')
    ensures result.None? <==> result'.None?
    ensures result.Some? ==> post == post' && SameRuns(result.value, result'.value, ClassBags(pre, cs, l))
  {
    if result.Some? {
      SameWhenRealized(result.value, result'.value, ClassBags(pre, cs, l));
    }
  }

  /** Two lists with the same runs, up to order within each. */
  ghost predicate SameRuns(x: seq<Ingress>, y: seq<Ingress>, bags: seq<multiset<IngressView>>) {
    && |x| == |y| == Start(bags, |bags|)
    && forall i :: 0 <= i < |bags| ==> SameRun(x, y, bags, i)
  }

  ghost predicate SameRun(x: seq<Ingress>, y: seq<Ingress>, bags: seq<multiset<IngressView>>, i: nat)
    requires i < |bags|
  {
    var lo, hi := Start(bags, i), Start(bags, i + 1);
    && lo <= hi <= |x| && hi <= |y|
    && multiset(Views(x[lo..hi])) == multiset(Views(y[lo..hi]))
  }

  lemma SameWhenRealized(x: seq<Ingress>, y: seq<Ingress>, bags: seq<multiset<IngressView>>)
    requires Realizes(x, bags) && Realizes(y, bags)
    ensures SameRuns(x, y, bags)
  {
    RealizedLength(x, bags);
    RealizedLength(y, bags);
    forall i | 0 <= i < |bags| ensures SameRun(x, y, bags, i) {
      RunOfClass(x, bags, i);
      RunOfClass(y, bags, i);
    }
  }

  /* ---- Which ingresses are listed ---- */

  ghost predicate Listed(ingresses: seq<Ingress>, v: IngressView) {
    exists i :: 0 <= i < |ingresses| && View(ingresses[i]) == v
  }

  ghost predicate Bagged(bags: seq<multiset<IngressView>>, v: IngressView) {
    exists j :: 0 <= j < |bags| && v in bags[j]
  }

  lemma ViewsMember(s: seq<Ingress>, v: IngressView)
    ensures v in multiset(Views(s)) <==> Listed(s, v)
  {
    if i :| 0 <= i < |s| && View(s[i]) == v {
      assert Views(s)[i] == v;
    }
  }

  lemma ListedSplit(ingresses: seq<Ingress>, n: nat, v: IngressView)
    requires n <= |ingresses|
    ensures Listed(ingresses, v) <==> Listed(ingresses[..n], v) || Listed(ingresses[n..], v)
  {
    var front, back := ingresses[..n], ingresses[n..];
    if i :| 0 <= i < |front| && View(front[i]) == v {
      assert View(ingresses[i]) == v;
    }
    if i :| 0 <= i < |back| && View(back[i]) == v {
      assert View(ingresses[n + i]) == v;
    }
    if i :| 0 <= i < |ingresses| && View(ingresses[i]) == v {
      assert View(if i < n then front[i] else back[i - n]) == v;
    }
  }

  lemma BaggedSplit(bags: seq<multiset<IngressView>>, v: IngressView)
    requires bags != []
    ensures Bagged(bags, v) <==> Bagged(bags[..|bags| - 1], v) || v in bags[|bags| - 1]
  {
    var front := bags[..|bags| - 1];
    assert forall j :: 0 <= j < |front| ==> front[j] == bags[j];
  }

  lemma {:induction false} RealizedMembers(ingresses: seq<Ingress>, bags: seq<multiset<IngressView>>, v: IngressView)
    requires Realizes(ingresses, bags)
    ensures Listed(ingresses, v) <==> Bagged(bags, v)
    decreases |bags|
  {
    if bags != [] {
      hide Listed, Bagged;
      var last := |bags| - 1;
      var n := |ingresses| - |bags[last]|;
      RealizedMembers(ingresses[..n], bags[..last], v);
      ListedSplit(ingresses, n, v);
      ViewsMember(ingresses[n..], v);
      BaggedSplit(bags, v);
    }
  }

  /** `v` is the ingress of some tracked ref of class `c` that the lister finds ready. */
  ghost predicate ReadyIn(s: Cache, c: string, l: Listers, v: IngressView) {
    var refs := RefsAt(s.brokers, c);
    exists uid :: uid in refs && BrokerReady(l, refs[uid]) && v == IngressOf(refs[uid], s.triggers, l)
  }

  lemma ClassMembers(s: Cache, c: string, l: Listers, v: IngressView)
    ensures v in ClassBag(s, c, l) <==> ReadyIn(s, c, l, v)
  {
    var refs := RefsAt(s.brokers, c);
    var listed := ReadyIngresses(refs, s.triggers, l);
    ValuesWitness(listed, v);
    if uid :| uid in refs && BrokerReady(l, refs[uid]) && v == IngressOf(refs[uid], s.triggers, l) {
      assert uid in listed && listed[uid] == v;
    }
  }

  /** Listed are exactly the tracked refs of the visited classes that the lister finds ready. */
  lemma ListedExactlyWhenReady(pre: Cache, cs: seq<string>, b: BrokerBinding, l: Listers, post: Cache,
                               ingresses: seq<Ingress>, v: IngressView)
    requires PassOutcome(pre, cs, b, l, post, Some(ingresses))
    ensures Listed(ingresses, v) <==> exists c :: c in cs && ReadyIn(pre, c, l, v)
  {
    hide PassOutcome, ReadyIn, Listed;
    SucceededPass(pre, cs, b, l, post, ingresses);
    RealizedMembers(ingresses, ClassBags(pre, cs, l), v);
    BaggedClasses(pre, cs, l, v);
  }

  lemma BaggedClasses(s: Cache, cs: seq<string>, l: Listers, v: IngressView)
    ensures Bagged(ClassBags(s, cs, l), v) <==> exists c :: c in cs && ReadyIn(s, c, l, v)
  {
    hide ClassBag, ReadyIn;
    if j :| 0 <= j < |cs| && v in ClassBag(s, cs[j], l) {
      ClassMembers(s, cs[j], l, v);
    }
    if c :| c in cs && ReadyIn(s, c, l, v) {
      var j :| 0 <= j < |cs| && cs[j] == c;
      ClassMembers(s, c, l, v);
      assert v in ClassBags(s, cs, l)[j];
    }
  }

  /** A successful pass drops a broker exactly when it visits its class and does not find it. */
  lemma BrokersPrunedExactly(pre: Cache, cs: seq<string>, b: BrokerBinding, l: Listers, post: Cache,
                             ingresses: seq<Ingress>, c: string, uid: UID)
    requires PassOutcome(pre, cs, b, l, post, Some(ingresses))
    requires uid in RefsAt(pre.brokers, c)
    ensures uid !in RefsAt(post.brokers, c) <==> c in cs && Get(l.brokers, RefsAt(pre.brokers, c)[uid]).NotFound?
  {
    SucceededPass(pre, cs, b, l, post, ingresses);
  }

  /** And a trigger exactly when some ready broker of a visited class bears its key and it is not found. */
  lemma TriggersPrunedExactly(pre: Cache, cs: seq<string>, b: BrokerBinding, l: Listers, post: Cache,
                              ingresses: seq<Ingress>, key: string, uid: UID)
    requires PassOutcome(pre, cs, b, l, post, Some(ingresses))
    requires uid in RefsAt(pre.triggers, key)
    ensures uid !in RefsAt(post.triggers, key) <==>
            && Get(l.triggers, RefsAt(pre.triggers, key)[uid]).NotFound?
            && exists c :: c in cs && key in ReadyNames(RefsAt(pre.brokers, c), l)
  {
    SucceededPass(pre, cs, b, l, post, ingresses);
    assert key in ReadyKeys(pre, cs, l) <==> exists c :: c in cs && key in ReadyNames(RefsAt(pre.brokers, c), l);
  }

  /* ---- Every pass has an outcome ---- */

  lemma {:induction false} ListOf<T>(m: multiset<T>) returns (s: seq<T>)
    ensures multiset(s) == m
    decreases |m|
  {
    s := [];
    if m != multiset{} {
      var x :| x in m;
      var rest := ListOf(m - multiset{x});
      s := rest + [x];
    }
  }

  lemma {:induction false} IngressesFor(views: seq<IngressView>) returns (s: seq<Ingress>)
    ensures Views(s) == views
    decreases |views|
  {
    s := [];
    if views != [] {
      var last := views[|views| - 1];
      var front := IngressesFor(views[..|views| - 1]);
      var egresses := ListOf(last.egresses);
      s := front + [Ingress(last.name, last.address, egresses)];
      assert Views(s) == Views(front) + [last];
    }
  }

  lemma {:induction false} ListingOf(bags: seq<multiset<IngressView>>) returns (ingresses: seq<Ingress>)
    ensures Realizes(ingresses, bags)
    decreases |bags|
  {
    ingresses := [];
    if bags != [] {
      var front, last := bags[..|bags| - 1], bags[|bags| - 1];
      var before := ListingOf(front);
      var views := ListOf(last);
      var run := IngressesFor(views);
      ingresses := before + run;
      RealizesAppend(before, front, run, last);
      assert front + [last] == bags;
    }
  }

  /** From any caches, for any listers, a pass can end in one way: with a listing, or with an error if a `Get` fails. */
  lemma PassPossible(pre: Cache, cs: seq<string>, b: BrokerBinding, l: Listers)
    returns (post: Cache, result: Option<seq<Ingress>>)
    ensures PassOutcome(pre, cs, b, l, post, result)
    ensures result.Some? <==> !PassFails(pre, cs, l)
  {
    if PassFails(pre, cs, l) {
      post, result := AfterPass(pre, cs, b, l), None;
      AfterIsPartial(pre, cs, b, l);
    } else {
      var ingresses := ListingOf(ClassBags(pre, cs, l));
      post, result := AfterPass(pre, cs, b, l), Some(ingresses);
    }
  }

  /* ---- A second pass ---- */

  lemma SecondAfterPass(pre: Cache, cs: seq<string>, b: BrokerBinding, b': BrokerBinding, l: Listers)
    ensures AfterPass(AfterPass(pre, cs, b, l), cs, b', l) == AfterPass(pre, cs, b, l)
  {
    var mid := AfterPass(pre, cs, b, l);
    AfterIsPartial(pre, cs, b, l);
    PartialKeepsKeys(pre, mid, cs, b, l, cs);
    PruneAtSettled(pre.brokers, Elements(cs), b, b', l.brokers);
    PruneAtSettled(pre.triggers, ReadyKeys(pre, cs, l), b, b', l.triggers);
  }

  lemma PruneAtSettled<T>(m: map<string, Entry>, keys: set<string>, b: BrokerBinding, b': BrokerBinding,
                          lister: map<(string, string), Reply<T>>)
    ensures PruneAt(PruneAt(m, keys, b, lister), keys, b', lister) == PruneAt(m, keys, b, lister)
  {
    var once := PruneAt(m, keys, b, lister);
    forall k | k in once ensures k in keys ==> Prune(once[k].refs, lister) == once[k].refs {
      if k in m && k in keys {
        assert Prune(Prune(m[k].refs, lister), lister) == Prune(m[k].refs, lister);
      }
    }
  }

  /** Repeating a pass that succeeded, for any binding, changes no cache and lists the same ingresses. */
  lemma PassIdempotent(pre: Cache, cs: seq<string>, b: BrokerBinding, l: Listers, post: Cache, ingresses: seq<Ingress>,
                       b': BrokerBinding, post': Cache, result': Option<seq<Ingress>>)
    requires PassOutcome(pre, cs, b, l, post, Some(ingresses))
    requires PassOutcome(post, cs, b', l, post', result')
    ensures result'.Some? && post' == post && SameRuns(ingresses, result'.value, ClassBags(pre, cs, l))
  {
    AfterIsPartial(pre, cs, b, l);
    forall c | c in cs
      ensures ClassFails(post, c, l) == ClassFails(pre, c, l) && ClassBag(post, c, l) == ClassBag(pre, c, l)
    {
      PartialKeepsClass(pre, post, cs, b, l, c);
    }
    assert ClassBags(post, cs, l) == ClassBags(pre, cs, l);
    SecondAfterPass(pre, cs, b, b', l);
    SameWhenRealized(ingresses, result'.value, ClassBags(pre, cs, l));
  }

  /** A merge changes nothing exactly when the KMesh's list is ascending already and holds the binding's classes. */
  lemma MergeSettled(kmesh: map<UID, seq<string>>, k: UID, classes: seq<string>)
    requires k in kmesh
    ensures Merge(kmesh, k, classes) == kmesh <==> Ascending(kmesh[k]) && Elements(classes) <= Elements(kmesh[k])
  {
    if Ascending(kmesh[k]) && Elements(classes) <= Elements(kmesh[k]) {
      AscendingUnique(kmesh[k], SortedUnion(kmesh[k], classes));
    }
    assert Merge(kmesh, k, classes)[k] == SortedUnion(kmesh[k], classes);
  }

  /** The first merge keeps the list raw; repeating it changes the cache exactly when that list is not ascending. */
  lemma FirstMergeSettled(kmesh: map<UID, seq<string>>, k: UID, classes: seq<string>)
    requires k !in kmesh
    ensures Merge(Merge(kmesh, k, classes), k, classes) == Merge(kmesh, k, classes) <==> Ascending(classes)
  {
    MergeSettled(Merge(kmesh, k, classes), k, classes);
  }

  /** A list out of order is kept so by the first merge and sorted by the second. */
  lemma FirstMergeMayMove(k: UID, a: string, b: string)
    requires Less(a, b)
    ensures var once := Merge(map[], k, [b, a]);
            once[k] == [b, a] && Merge(once, k, [b, a])[k] == [a, b]
  {
    var twice := SortedUnion([b, a], [b, a]);
    assert Elements([b, a]) == {a, b} == Elements([a, b]);
    assert Ascending([a, b]);
    AscendingUnique(twice, [a, b]);
  }

  /** From the second merge on, merging and passing again is a fixed point of the caches and of the listing. */
  lemma ReconcileFixedPoint(pre: Cache, k: UID, b: BrokerBinding, l: Listers, post: Cache, ingresses: seq<Ingress>,
                            post': Cache, result': Option<seq<Ingress>>)
    requires k in pre.kmesh
    requires var s := pre.(kmesh := Merge(pre.kmesh, k, b.classes));
             PassOutcome(s, ClassesOf(s, k), b, l, post, Some(ingresses))
    requires var s := post.(kmesh := Merge(post.kmesh, k, b.classes));
             PassOutcome(s, ClassesOf(s, k), b, l, post', result')
    ensures post' == post && result'.Some?
    ensures var s := pre.(kmesh := Merge(pre.kmesh, k, b.classes));
            SameRuns(ingresses, result'.value, ClassBags(s, ClassesOf(s, k), l))
  {
    var s := pre.(kmesh := Merge(pre.kmesh, k, b.classes));
    AfterIsPartial(s, ClassesOf(s, k), b, l);
    MergeSettled(post.kmesh, k, b.classes);
    assert post.(kmesh := post.kmesh) == post;
    PassIdempotent(s, ClassesOf(s, k), b, l, post, ingresses, b, post', result');
  }
}
