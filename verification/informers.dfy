/** The shared informer factory: one informer per type, each started once. */
module Informers {
  import opened Bags
  import opened Mesh

  /** The identities of Go types and of informer objects. */
  type Type = nat
  type Handle = nat

  /** `launched` lists the informers whose `Run` has been started, in order. */
  datatype Factory = Factory(informers: map<Type, Handle>, started: set<Type>, launched: seq<Handle>)

  /** The calls, with what came back: `made` is what the constructor function gives if it is called,
      `order` the order in which the map was walked, `seen` what the waiter copied under the lock. */
  datatype Call =
    | InformerFor(t: Type, made: Handle, got: Handle)
    | Start(order: seq<Type>)
    | Snapshot(seen: map<Type, Handle>)

  const NEW := Factory(map[], {}, [])

  ghost predicate Walks(order: seq<Type>, types: set<Type>) {
    && (forall t :: t in order <==> t in types)
    && forall i, j :: 0 <= i < j < |order| ==> order[i] != order[j]
  }

  function Handles(informers: map<Type, Handle>, order: seq<Type>): seq<Handle> {
    seq(|order|, i requires 0 <= i < |order| => if order[i] in informers then informers[order[i]] else 0)
  }

  function StartedOnly(f: Factory): map<Type, Handle> {
    map t | t in f.informers && t in f.started :: f.informers[t]
  }

  ghost predicate Enabled(f: Factory, c: Call) {
    match c
    case InformerFor(t, made, got) => got == if t in f.informers then f.informers[t] else made
    case Start(order) => Walks(order, f.informers.Keys - f.started)
    case Snapshot(seen) => seen == StartedOnly(f)
  }

  function Apply(f: Factory, c: Call): Factory {
    match c
    case InformerFor(t, made, got) => f.(informers := f.informers[t := got])
    case Start(order) =>
      f.(started := f.started + f.informers.Keys, launched := f.launched + Handles(f.informers, order))
    case Snapshot(seen) => f
  }

  function After(calls: seq<Call>): Factory {
    if calls == [] then NEW else Apply(After(calls[..|calls| - 1]), calls[|calls| - 1])
  }

  ghost predicate Run(calls: seq<Call>) {
    calls == [] || (Run(calls[..|calls| - 1]) && Enabled(After(calls[..|calls| - 1]), calls[|calls| - 1]))
  }

  lemma WalksFurther(order: seq<Type>, types: set<Type>, t: Type)
    requires Walks(order, types) && t !in types
    ensures Walks(order + [t], types + {t})
  {
  }

  lemma EmptyWalk(informers: map<Type, Handle>)
    ensures Walks([], {}) && Handles(informers, []) == []
  {
  }

  lemma HandlesFurther(informers: map<Type, Handle>, order: seq<Type>, t: Type, base: seq<Handle>)
    requires t in informers
    ensures base + Handles(informers, order + [t]) == base + Handles(informers, order) + [informers[t]]
  {
  }

  /**
   * The part of `WaitForCacheSync` that waits, without the lock, on the copy: `synced` is what each informer's
   * wait comes to.
   */
  method AwaitAll(seen: map<Type, Handle>, synced: Handle -> bool) returns (res: map<Type, bool>)
    ensures res.Keys == seen.Keys
    ensures forall t :: t in res ==> res[t] == synced(seen[t])
  {
    res := map[];
    var todo := seen.Keys;
    while todo != {}
      invariant todo <= seen.Keys
      invariant res.Keys == seen.Keys - todo
      invariant forall t :: t in res ==> res[t] == synced(seen[t])
      decreases |todo|
    {
      var t :| t in todo;
      todo := todo - {t};
      res := res[t := synced(seen[t])];
    }
  }

  class SharedInformerFactory {
    var informers: map<Type, Handle>
    var startedInformers: map<Type, bool>
    var launched: seq<Handle>
    const customResync: map<Type, int>
    const defaultResync: int

    ghost predicate Valid()
      reads this
    {
      forall t :: t in startedInformers ==> startedInformers[t]
    }

    ghost function Abs(): Factory
      reads this
    {
      Factory(informers, startedInformers.Keys, launched)
    }

    constructor (customResync: map<Type, int>, defaultResync: int)
      ensures Valid() && Abs() == NEW
      ensures this.customResync == customResync && this.defaultResync == defaultResync
    {
      informers, startedInformers, launched := map[], map[], [];
      this.customResync, this.defaultResync := customResync, defaultResync;
    }

    /** `period` is the resync period the constructor function is called with, if it is called. */
    method InformerFor(t: Type, made: Handle) returns (informer: Handle, period: Option<int>)
      requires Valid()
      modifies this
      ensures Valid()
      ensures Enabled(old(Abs()), Call.InformerFor(t, made, informer))
      ensures Abs() == Apply(old(Abs()), Call.InformerFor(t, made, informer))
      ensures period.Some? <==> t !in old(informers)
      ensures period.Some? ==> period.value == if t in customResync then customResync[t] else defaultResync
    {
      if t in informers {
        assert informers == informers[t := informers[t]];
        return informers[t], None;
      }
      var resyncPeriod := if t in customResync then customResync[t] else defaultResync;
      informer, period := made, Some(resyncPeriod);
      informers := informers[t := informer];
    }

    method Start() returns (ghost order: seq<Type>)
      requires Valid()
      modifies this
      ensures Valid()
      ensures Enabled(old(Abs()), Call.Start(order))
      ensures Abs() == Apply(old(Abs()), Call.Start(order))
    {
      hide Walks, Handles;
      order := [];
      ghost var walked: set<Type>, was, base := {}, startedInformers.Keys, launched;
      EmptyWalk(informers);
      var todo := informers.Keys;
      while todo != {}
        invariant Valid() && informers == old(informers)
        invariant todo <= informers.Keys
        invariant forall t :: t in walked <==> t in informers && t !in was && t !in todo
        invariant forall t :: t in startedInformers <==> t in was || t in walked
        invariant Walks(order, walked)
        invariant launched == base + Handles(informers, order)
        decreases |todo|
      {
        var t :| t in todo;
        todo := todo - {t};
        if !(t in startedInformers && startedInformers[t]) {
          HandlesFurther(informers, order, t, base);
          WalksFurther(order, walked, t);
          launched := launched + [informers[t]];
          startedInformers := startedInformers[t := true];
          order, walked := order + [t], walked + {t};
        }
      }
      assert walked == informers.Keys - was;
      assert startedInformers.Keys == was + informers.Keys;
    }

    /** The part of `WaitForCacheSync` that holds the lock. */
    method StartedSnapshot() returns (seen: map<Type, Handle>)
      requires Valid()
      ensures Enabled(Abs(), Call.Snapshot(seen))
    {
      seen := map[];
      var todo := informers.Keys;
      while todo != {}
        invariant todo <= informers.Keys
        invariant seen == map t | t in StartedOnly(Abs()) && t !in todo :: informers[t]
        decreases |todo|
      {
        var t :| t in todo;
        todo := todo - {t};
        if t in startedInformers && startedInformers[t] {
          seen := seen[t := informers[t]];
        }
      }
    }

    /** `synced` is what waiting for each informer comes to; calls made meanwhile do not change what is waited for. */
    method WaitForCacheSync(synced: Handle -> bool) returns (res: map<Type, bool>)
      requires Valid()
      ensures res.Keys == StartedOnly(Abs()).Keys
      ensures forall t :: t in res ==> res[t] == synced(informers[t])
    {
      var seen := StartedSnapshot();
      res := AwaitAll(seen, synced);
    }
  }

  lemma {:induction false} RunPrefix(calls: seq<Call>, n: nat)
    requires Run(calls) && n <= |calls|
    ensures Run(calls[..n])
    ensures n < |calls| ==> Enabled(After(calls[..n]), calls[n])
    decreases |calls|
  {
    if n == |calls| {
      assert calls[..n] == calls;
    } else {
      var before := calls[..|calls| - 1];
      if n < |before| {
        RunPrefix(before, n);
        assert before[..n] == calls[..n];
      }
    }
  }

  /** One informer per type, the same one ever after. */
  lemma {:induction false} MemoIsForever(calls: seq<Call>, n: nat, t: Type)
    requires Run(calls) && n <= |calls|
    ensures Run(calls[..n])
    ensures t in After(calls[..n]).informers ==>
              t in After(calls).informers && After(calls).informers[t] == After(calls[..n]).informers[t]
    decreases |calls|
  {
    RunPrefix(calls, n);
    if n == |calls| {
      assert calls[..n] == calls;
    } else {
      var before := calls[..|calls| - 1];
      MemoIsForever(before, n, t);
      assert before[..n] == calls[..n];
    }
  }

  /** Whoever asks for a type, and whenever, gets the informer the first request made. */
  lemma AllCallersShare(calls: seq<Call>, i: nat, j: nat)
    requires Run(calls) && i <= j < |calls|
    requires calls[i].InformerFor? && calls[j].InformerFor? && calls[i].t == calls[j].t
    ensures calls[j].got == calls[i].got
    ensures (forall k :: 0 <= k < i ==> !(calls[k].InformerFor? && calls[k].t == calls[i].t)) ==>
        calls[j].got == calls[i].made
  {
    var t := calls[i].t;
    RunPrefix(calls, i);
    RunPrefix(calls, j);
    RunPrefix(calls, i + 1);
    assert calls[..i + 1][..i] == calls[..i];
    if i < j {
      MemoIsForever(calls[..j], i + 1, t);
      assert calls[..j][..i + 1] == calls[..i + 1];
    }
    if forall k :: 0 <= k < i ==> !(calls[k].InformerFor? && calls[k].t == t) {
      RegisteredByRequest(calls[..i], t);
    }
  }

  /** A type is registered exactly when it has been asked for. */
  lemma {:induction false} RegisteredByRequest(calls: seq<Call>, t: Type)
    requires Run(calls)
    ensures t in After(calls).informers <==> exists k :: 0 <= k < |calls| && calls[k].InformerFor? && calls[k].t == t
    decreases |calls|
  {
    if calls != [] {
      var before := calls[..|calls| - 1];
      RegisteredByRequest(before, t);
      if k :| 0 <= k < |calls| && calls[k].InformerFor? && calls[k].t == t && k < |before| {
        assert before[k].t == t;
      }
    }
  }

  /** What has been launched is, counted, the informers of the started types: nothing more, nothing twice. */
  lemma {:induction false} LaunchedAreStarted(calls: seq<Call>)
    requires Run(calls)
    ensures After(calls).started <= After(calls).informers.Keys
    ensures multiset(After(calls).launched) == Values(StartedOnly(After(calls)))
    decreases |calls|
  {
    if calls != [] {
      var before, c := calls[..|calls| - 1], calls[|calls| - 1];
      LaunchedAreStarted(before);
      var f, g := After(before), After(calls);
      match c {
        case InformerFor(t, made, got) =>
          assert StartedOnly(g) == StartedOnly(f);
        case Start(order) =>
          StartAll(f, order, f.informers.Keys - f.started);
          assert f.started + (f.informers.Keys - f.started) == f.started + f.informers.Keys;
        case Snapshot(seen) =>
      }
    }
  }

  /** Launching the types of `order` adds exactly their informers. */
  lemma {:induction false} StartAll(f: Factory, order: seq<Type>, types: set<Type>)
    requires Walks(order, types) && types <= f.informers.Keys && types !! f.started
    ensures Values(StartedOnly(f.(started := f.started + types))) ==
        Values(StartedOnly(f)) + multiset(Handles(f.informers, order))
    decreases |order|
  {
    if order == [] {
      assert f.started + types == f.started;
    } else {
      hide Handles, Walks;
      var rest, t := order[..|order| - 1], order[|order| - 1];
      var fewer := types - {t};
      WalksBack(order, types);
      HandlesBack(f.informers, order);
      StartAll(f, rest, fewer);
      var some := StartedOnly(f.(started := f.started + fewer));
      assert StartedOnly(f.(started := f.started + types)) == some[t := f.informers[t]];
      ValuesInsert(some, t, f.informers[t]);
    }
  }

  lemma HandlesBack(informers: map<Type, Handle>, order: seq<Type>)
    requires order != [] && order[|order| - 1] in informers
    ensures multiset(Handles(informers, order))
            == multiset(Handles(informers, order[..|order| - 1])) + multiset{informers[order[|order| - 1]]}
  {
    assert Handles(informers, order) == Handles(informers, order[..|order| - 1]) + [informers[order[|order| - 1]]];
  }

  lemma WalksBack(order: seq<Type>, types: set<Type>)
    requires Walks(order, types) && order != []
    ensures order[|order| - 1] in types && Walks(order[..|order| - 1], types - {order[|order| - 1]})
  {
    var rest, last := order[..|order| - 1], order[|order| - 1];
    assert order == rest + [last];
    assert last in order;
  }

  ghost predicate NoneTwice(s: seq<Handle>) {
    forall h :: multiset(s)[h] <= 1
  }

  /** No two started types share an informer. */
  ghost predicate Apart(f: Factory) {
    forall s, t :: s in f.started && t in f.started && s != t ==>
      s in f.informers && t in f.informers && f.informers[s] != f.informers[t]
  }

  /** No informer runs twice exactly when no two started types were given the same one. */
  lemma EachRunsAtMostOnce(calls: seq<Call>)
    requires Run(calls)
    ensures NoneTwice(After(calls).launched) <==> Apart(After(calls))
  {
    LaunchedAreStarted(calls);
    var f, m := After(calls), StartedOnly(After(calls));
    hide Run, After;
    ValuesOnce(m);
    assert m.Keys == f.started && forall t :: t in m ==> m[t] == f.informers[t];
  }

  /** Call `k` is the first to ask for its type. */
  ghost predicate FirstRequest(calls: seq<Call>, k: nat) {
    && k < |calls| && calls[k].InformerFor?
    && forall j :: 0 <= j < k ==> !(calls[j].InformerFor? && calls[j].t == calls[k].t)
  }

  /** No two first requests were answered with the same informer by the constructor functions they brought. */
  ghost predicate ConstructorsDiffer(calls: seq<Call>) {
    forall i: nat, j: nat :: FirstRequest(calls, i) && FirstRequest(calls, j) && i != j ==>
      calls[i].made != calls[j].made
  }

  /** A registered type has the informer its first request made. */
  lemma {:induction false} RegisteredByFirst(calls: seq<Call>, t: Type) returns (k: nat)
    requires Run(calls) && t in After(calls).informers
    ensures FirstRequest(calls, k) && calls[k].t == t && After(calls).informers[t] == calls[k].made
    decreases |calls|
  {
    var before, last := calls[..|calls| - 1], |calls| - 1;
    if t in After(before).informers {
      k := RegisteredByFirst(before, t);
      assert forall j :: 0 <= j <= k ==> calls[j] == before[j];
    } else {
      k := last;
      RegisteredByRequest(before, t);
      assert forall j :: 0 <= j < last ==> calls[j] == before[j];
    }
  }

  /** And a first request's type is registered with it. */
  lemma FirstIsRegistered(calls: seq<Call>, k: nat)
    requires Run(calls) && FirstRequest(calls, k)
    ensures calls[k].t in After(calls).informers && After(calls).informers[calls[k].t] == calls[k].made
  {
    RegisteredByRequest(calls, calls[k].t);
    var n := RegisteredByFirst(calls, calls[k].t);
    assert n == k;
  }

  /** Callers whose constructor functions give different informers for different types never see one run twice. */
  lemma DifferentRunOnce(calls: seq<Call>)
    requires Run(calls) && ConstructorsDiffer(calls)
    ensures NoneTwice(After(calls).launched)
  {
    EachRunsAtMostOnce(calls);
    LaunchedAreStarted(calls);
    var f := After(calls);
    hide Run, After, NoneTwice, FirstRequest;
    forall s, t | s in f.started && t in f.started && s != t
      ensures f.informers[s] != f.informers[t]
    {
      var i := RegisteredByFirst(calls, s);
      var j := RegisteredByFirst(calls, t);
    }
  }

  /** After a `Start` that is the exact condition. */
  lemma RunOnceExactly(calls: seq<Call>)
    requires Run(calls) && calls != [] && calls[|calls| - 1].Start?
    ensures NoneTwice(After(calls).launched) <==> ConstructorsDiffer(calls)
  {
    hide Run, After, ConstructorsDiffer, NoneTwice, Apart;
    EachRunsAtMostOnce(calls);
    if ConstructorsDiffer(calls) {
      DifferentRunOnce(calls);
    }
    if Apart(After(calls)) {
      ApartMeansDiffer(calls);
    }
  }

  lemma ApartMeansDiffer(calls: seq<Call>)
    requires Run(calls) && calls != [] && calls[|calls| - 1].Start? && Apart(After(calls))
    ensures ConstructorsDiffer(calls)
  {
    hide Run, After;
    forall i: nat, j: nat | FirstRequest(calls, i) && FirstRequest(calls, j) && i != j
      ensures calls[i].made != calls[j].made
    {
      FirstsDiffer(calls, i, j);
      FirstIsRegistered(calls, i);
      FirstIsRegistered(calls, j);
      StartLaunchesAll(calls, calls[i].t);
      StartLaunchesAll(calls, calls[j].t);
    }
  }

  lemma FirstsDiffer(calls: seq<Call>, i: nat, j: nat)
    requires FirstRequest(calls, i) && FirstRequest(calls, j) && i != j
    ensures calls[i].t != calls[j].t
  {
  }

  /** One informer handed out for two types runs twice. */
  lemma SharedRunsTwice()
    ensures var calls := [InformerFor(0, 7, 7), InformerFor(1, 7, 7), Start([0, 1])];
            Run(calls) && After(calls).launched == [7, 7] && !NoneTwice(After(calls).launched)
  {
    var c0, c1, c2 := InformerFor(0, 7, 7), InformerFor(1, 7, 7), Start([0, 1]);
    Longer([], c0);
    assert [] + [c0] == [c0];
    Longer([c0], c1);
    assert [c0] + [c1] == [c0, c1];
    Longer([c0, c1], c2);
    assert [c0, c1] + [c2] == [c0, c1, c2];
    assert Handles(map[0 := 7, 1 := 7], [0, 1]) == [7, 7];
    assert multiset([7, 7])[7] == 2;
  }

  lemma Longer(calls: seq<Call>, c: Call)
    requires Run(calls) && Enabled(After(calls), c)
    ensures Run(calls + [c]) && After(calls + [c]) == Apply(After(calls), c)
  {
    assert (calls + [c])[..|calls|] == calls;
  }

  lemma {:induction false} ValuesOnce<K, V>(m: map<K, V>)
    ensures (forall v :: Values(m)[v] <= 1) <==> forall j, k :: j in m && k in m && j != k ==> m[j] != m[k]
    decreases |m|
  {
    if m != map[] {
      var k :| k in m;
      var rest := m - {k};
      SmallerWithout(m, k);
      ValuesRemove(m, k);
      ValuesOnce(rest);
      ValuesWitness(rest, m[k]);
      assert forall j :: j in rest <==> j in m && j != k;
      if forall v :: Values(m)[v] <= 1 {
        assert Values(m)[m[k]] <= 1;
        assert forall v :: Values(rest)[v] <= Values(m)[v];
      }
    }
  }

  /** After a `Start` every registered informer has been launched. */
  lemma StartLaunchesAll(calls: seq<Call>, t: Type)
    requires Run(calls) && calls != [] && calls[|calls| - 1].Start?
    requires t in After(calls).informers
    ensures t in After(calls).started && After(calls).informers[t] in After(calls).launched
  {
    LaunchedAreStarted(calls);
    ValuesWitness(StartedOnly(After(calls)), After(calls).informers[t]);
    assert t in StartedOnly(After(calls));
  }

  /** A waiter that copies after the last `Start` waits for exactly the types registered before that `Start`. */
  lemma {:induction false} SnapshotIsLastStart(calls: seq<Call>, n: nat)
    requires Run(calls) && n < |calls| && calls[n].Start?
    requires forall k :: n < k < |calls| ==> !calls[k].Start?
    ensures Run(calls[..n]) && After(calls).started == After(calls[..n]).informers.Keys
    ensures StartedOnly(After(calls)) == After(calls[..n]).informers
    decreases |calls|
  {
    RunPrefix(calls, n);
    if n == |calls| - 1 {
      LaunchedAreStarted(calls[..n]);
    } else {
      var before := calls[..|calls| - 1];
      assert before[..n] == calls[..n] by { hide Run; }
      SnapshotIsLastStart(before, n);
    }
  }
}
