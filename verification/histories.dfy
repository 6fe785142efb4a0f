/** What the caches and the published status owe to the events and reconciles of the run so far. */
module Histories {
  import opened Bags
  import opened Events
  import opened Interleavings
  import opened Mesh
  import opened Names
  import opened PassLaws
  import opened PassLemmas
  import opened PassSpec
  import opened StringLists

  /* ---- Stored bindings ---- */

  /** `b` was merged into `k`, and `k` lists `c`. */
  ghost predicate MergedWhereListed(run: seq<Action>, b: BrokerBinding, k: UID, c: string) {
    && (exists w :: MergeStep(w, b, k) in run)
    && c in ClassesOf(State(run).cache, k)
  }

  lemma MergedWhereListedStays(run: seq<Action>, b: BrokerBinding, k: UID, c: string)
    requires run != [] && Grows(State(Before(run)).cache, State(run).cache)
    requires MergedWhereListed(Before(run), b, k, c)
    ensures MergedWhereListed(run, b, k, c)
  {
    var w :| MergeStep(w, b, k) in Before(run);
    InBefore(run, MergeStep(w, b, k));
    var s, t := State(Before(run)).cache, State(run).cache;
    assert c in Elements(ClassesOf(s, k)) && Elements(ClassesOf(s, k)) <= Elements(ClassesOf(t, k));
  }

  lemma {:induction false} WorkersHaveMerged(run: seq<Action>, w: nat)
    requires Run(run)
    requires w in State(run).workers && !State(run).workers[w].phase.Begun?
    ensures MergeStep(w, State(run).workers[w].binding, State(run).workers[w].kmesh) in run
  {
    var s, a := State(Before(run)), Last(run);
    var worker := State(run).workers[w];
    InBefore(run, MergeStep(w, worker.binding, worker.kmesh));
    if a != MergeStep(w, worker.binding, worker.kmesh) {
      assert w in s.workers && !s.workers[w].phase.Begun?
             && s.workers[w].binding == worker.binding && s.workers[w].kmesh == worker.kmesh;
      WorkersHaveMerged(Before(run), w);
    }
  }

  /** The binding kept for a class was merged into a KMesh that lists the class. */
  lemma {:induction false} ClassBindingMerged(run: seq<Action>, c: string)
    requires Run(run) && c in State(run).cache.brokers
    ensures exists k :: MergedWhereListed(run, State(run).cache.brokers[c].binding, k, c)
  {
    var s, a := State(Before(run)), Last(run);
    StepGrows(s, a);
    if c in s.cache.brokers {
      ClassBindingMerged(Before(run), c);
      var k :| MergedWhereListed(Before(run), s.cache.brokers[c].binding, k, c);
      MergedWhereListedStays(run, s.cache.brokers[c].binding, k, c);
    } else {
      OutcomeIsPartial(s.cache, a.used, a.binding, a.listers, a.post, a.result);
      assert c in Elements(a.used) && State(run).cache.brokers[c].binding == a.binding;
      WorkersHaveMerged(Before(run), a.w);
      assert MergedWhereListed(Before(run), a.binding, a.kmesh, c);
      MergedWhereListedStays(run, a.binding, a.kmesh, c);
    }
  }

  /** A broker event of class `c` and name `key` was recorded. */
  ghost predicate NamedUnder(run: seq<Action>, c: string, key: string) {
    exists uid, ref :: KeyOf(ref) == key && BrokerSeen(run, c, uid, ref)
  }

  lemma NamedUnderStays(run: seq<Action>, c: string, key: string)
    requires run != [] && NamedUnder(Before(run), c, key)
    ensures NamedUnder(run, c, key)
  {
    var uid, ref :| KeyOf(ref) == key && BrokerSeen(Before(run), c, uid, ref);
    InBefore(run, Handle(OfBroker(BrokerEvent(uid, ref, Some(c)))));
    assert BrokerSeen(run, c, uid, ref);
  }

  /**
   * The binding kept for a broker's triggers was merged into a KMesh listing a class that broker was recorded
   * under.
   */
  ghost predicate Reaches(run: seq<Action>, b: BrokerBinding, key: string, k: UID, c: string) {
    MergedWhereListed(run, b, k, c) && NamedUnder(run, c, key)
  }

  lemma {:induction false} TriggerBindingReaches(run: seq<Action>, key: string)
    requires Run(run) && key in State(run).cache.triggers
    ensures exists k, c :: Reaches(run, State(run).cache.triggers[key].binding, key, k, c)
  {
    var s, a := State(Before(run)), Last(run);
    StepGrows(s, a);
    if key in s.cache.triggers {
      var b := s.cache.triggers[key].binding;
      TriggerBindingReaches(Before(run), key);
      var k, c :| Reaches(Before(run), b, key, k, c);
      MergedWhereListedStays(run, b, k, c);
      NamedUnderStays(run, c, key);
      assert Reaches(run, b, key, k, c);
    } else {
      TriggerEntryReaches(run, key);
    }
  }

  /** A trigger key is made by a pass, for its own binding, where a visited class has a ready broker of that name. */
  lemma NewTriggerKey(s: System, a: Action, key: string)
    requires Enabled(s, a) && key !in s.cache.triggers && key in Apply(s, a).cache.triggers
    ensures a.PassStep? && a.w in s.workers && s.workers[a.w] == Worker(a.binding, a.kmesh, Merged)
    ensures a.used == ClassesOf(s.cache, a.kmesh) && key in ReadyKeys(s.cache, a.used, a.listers)
    ensures Apply(s, a).cache.triggers[key].binding == a.binding
  {
    if a.PassStep? {
      OutcomeIsPartial(s.cache, a.used, a.binding, a.listers, a.post, a.result);
    }
  }

  lemma TriggerEntryReaches(run: seq<Action>, key: string)
    requires Run(run) && run != []
    requires key in State(run).cache.triggers && key !in State(Before(run)).cache.triggers
    ensures exists k, c :: Reaches(run, State(run).cache.triggers[key].binding, key, k, c)
  {
    var s, a := State(Before(run)), Last(run);
    assert State(run) == Apply(s, a) && Enabled(s, a) && Run(Before(run));
    hide Run, State, Apply, Enabled;
    NewTriggerKey(s, a, key);
    StepGrows(s, a);
    hide Grows;
    var c :| c in a.used && key in ReadyNames(RefsAt(s.cache.brokers, c), a.listers);
    var uid :| uid in RefsAt(s.cache.brokers, c) && KeyOf(RefsAt(s.cache.brokers, c)[uid]) == key;
    BrokersAreSeen(Before(run), c, uid);
    assert NamedUnder(Before(run), c, key);
    NamedUnderStays(run, c, key);
    WorkersHaveMerged(Before(run), a.w);
    assert MergedWhereListed(Before(run), a.binding, a.kmesh, c);
    MergedWhereListedStays(run, a.binding, a.kmesh, c);
    assert Reaches(run, a.binding, key, a.kmesh, c);
  }

  /** The reconcile that a trigger event enqueues visits, against some KMesh it was merged into, the broker's class. */
  lemma EnqueueReachesClass(run: seq<Action>, i: nat, ev: TriggerEvent) returns (k: UID, c: string)
    requires Run(run) && i < |run| && run[i] == Handle(OfTrigger(ev))
    ensures TriggerKey(ev) in State(run[..i]).cache.triggers
    ensures Reaches(run[..i], State(run[..i]).cache.triggers[TriggerKey(ev)].binding, TriggerKey(ev), k, c)
    ensures forall j :: i <= j < |run| && run[j].PassStep? && run[j].kmesh == k ==> c in run[j].used
  {
    hide State, Run, MergedWhereListed, NamedUnder;
    EventIsAccepted(run, i, OfTrigger(ev));
    TriggerBindingReaches(run[..i], TriggerKey(ev));
    k, c :| Reaches(run[..i], State(run[..i]).cache.triggers[TriggerKey(ev)].binding, TriggerKey(ev), k, c);
    forall j | i <= j < |run| && run[j].PassStep? && run[j].kmesh == k ensures c in run[j].used {
      ListedStaysUsed(run, i, j, k, c);
    }
  }

  lemma EventIsAccepted(run: seq<Action>, i: nat, ev: Event)
    requires Run(run) && i < |run| && run[i] == Handle(ev)
    ensures Run(run[..i]) && Accepts(State(run[..i]).cache, ev)
  {
    StepAt(run, i);
    NeverCrashes(run[..i]);
  }

  /** A class once listed is in every later pass over that KMesh. */
  lemma ListedStaysUsed(run: seq<Action>, i: nat, j: nat, k: UID, c: string)
    requires Run(run) && i <= j < |run| && run[j].PassStep? && run[j].kmesh == k
    requires exists b :: MergedWhereListed(run[..i], b, k, c)
    ensures c in run[j].used
  {
    hide PassOutcome, State, Run;
    StepAt(run, j);
    CachesGrow(run[..j], i);
    assert run[..j][..i] == run[..i];
    assert c in Elements(ClassesOf(State(run[..i]).cache, k));
  }

  /* ---- Persistence of recorded refs ---- */

  /** The pass at step `j` visits class `c` and does not find the broker tracked there under `uid`. */
  ghost predicate NotFoundAt(run: seq<Action>, j: nat, c: string, uid: UID) {
    && j < |run| && run[j].PassStep? && c in run[j].used
    && uid in RefsAt(State(run[..j]).cache.brokers, c)
    && Get(run[j].listers.brokers, RefsAt(State(run[..j]).cache.brokers, c)[uid]).NotFound?
  }

  lemma StepKeepsBroker(s: System, a: Action, c: string, uid: UID)
    requires Enabled(s, a)
    requires uid in RefsAt(s.cache.brokers, c) && uid !in RefsAt(Apply(s, a).cache.brokers, c)
    ensures a.PassStep? && c in a.used && Get(a.listers.brokers, RefsAt(s.cache.brokers, c)[uid]).NotFound?
  {
    if a.PassStep? {
      OutcomeIsPartial(s.cache, a.used, a.binding, a.listers, a.post, a.result);
      PrunedRefs(s.cache.brokers, a.post.brokers, Elements(a.used), a.binding, a.listers.brokers, c, uid);
    }
  }

  /** A recorded broker ref is lost only to a pass, over its class, whose lister answered NotFound for it. */
  lemma {:induction false} BrokerLostToNotFound(run: seq<Action>, i: nat, c: string, uid: UID)
    requires Run(run) && i <= |run|
    requires uid in RefsAt(State(run[..i]).cache.brokers, c)
    requires uid !in RefsAt(State(run).cache.brokers, c)
    ensures exists j: nat :: i <= j && NotFoundAt(run, j, c, uid)
  {
    assert run[..|run|] == run;
    if i < |run| {
      var before := Before(run);
      assert before[..i] == run[..i];
      if uid in RefsAt(State(before).cache.brokers, c) {
        StepKeepsBroker(State(before), Last(run), c, uid);
        assert run[..|run| - 1] == before;
        assert NotFoundAt(run, |run| - 1, c, uid);
      } else {
        BrokerLostToNotFound(before, i, c, uid);
        var j: nat :| i <= j && NotFoundAt(before, j, c, uid);
        assert before[..j] == run[..j] && NotFoundAt(run, j, c, uid);
      }
    }
  }

  /** The pass at step `j` visits a ready broker named `key` and does not find the trigger tracked there under `uid`. */
  ghost predicate TriggerNotFoundAt(run: seq<Action>, j: nat, key: string, uid: UID) {
    && j < |run| && run[j].PassStep?
    && key in ReadyKeys(State(run[..j]).cache, run[j].used, run[j].listers)
    && uid in RefsAt(State(run[..j]).cache.triggers, key)
    && Get(run[j].listers.triggers, RefsAt(State(run[..j]).cache.triggers, key)[uid]).NotFound?
  }

  lemma StepKeepsTrigger(s: System, a: Action, key: string, uid: UID)
    requires Enabled(s, a)
    requires uid in RefsAt(s.cache.triggers, key) && uid !in RefsAt(Apply(s, a).cache.triggers, key)
    ensures a.PassStep? && key in ReadyKeys(s.cache, a.used, a.listers)
            && Get(a.listers.triggers, RefsAt(s.cache.triggers, key)[uid]).NotFound?
  {
    if a.PassStep? {
      OutcomeIsPartial(s.cache, a.used, a.binding, a.listers, a.post, a.result);
      PrunedRefs(s.cache.triggers, a.post.triggers, ReadyKeys(s.cache, a.used, a.listers), a.binding,
                 a.listers.triggers, key, uid);
    }
  }

  lemma {:induction false} TriggerLostToNotFound(run: seq<Action>, i: nat, key: string, uid: UID)
    requires Run(run) && i <= |run|
    requires uid in RefsAt(State(run[..i]).cache.triggers, key)
    requires uid !in RefsAt(State(run).cache.triggers, key)
    ensures exists j: nat :: i <= j && TriggerNotFoundAt(run, j, key, uid)
  {
    assert run[..|run|] == run;
    if i < |run| {
      var before := Before(run);
      assert before[..i] == run[..i];
      if uid in RefsAt(State(before).cache.triggers, key) {
        StepKeepsTrigger(State(before), Last(run), key, uid);
        assert run[..|run| - 1] == before;
        assert TriggerNotFoundAt(run, |run| - 1, key, uid);
      } else {
        TriggerLostToNotFound(before, i, key, uid);
        var j: nat :| i <= j && TriggerNotFoundAt(before, j, key, uid);
        assert before[..j] == run[..j] && TriggerNotFoundAt(run, j, key, uid);
      }
    }
  }

  lemma StillTracked(run: seq<Action>, i: nat, j: nat, c: string, uid: UID)
    requires Run(run) && i <= j < |run|
    requires uid in RefsAt(State(run[..i]).cache.brokers, c)
    requires forall n: nat :: i <= n < j ==> !NotFoundAt(run, n, c, uid)
    ensures uid in RefsAt(State(run[..j]).cache.brokers, c)
  {
    hide NotFoundAt, State, Run, RefsAt;
    var upto := run[..j];
    RunPrefix(run, j);
    assert upto[..i] == run[..i];
    if uid !in RefsAt(State(upto).cache.brokers, c) {
      BrokerLostToNotFound(upto, i, c, uid);
      var n: nat :| i <= n && NotFoundAt(upto, n, c, uid);
      NotFoundInPrefix(run, j, n, c, uid);
    }
  }

  lemma NotFoundInPrefix(run: seq<Action>, j: nat, n: nat, c: string, uid: UID)
    requires j <= |run| && NotFoundAt(run[..j], n, c, uid)
    ensures n < j && NotFoundAt(run, n, c, uid)
  {
    assert run[..j][..n] == run[..n];
  }

  /**
   * Once recorded, a broker is in every successful pass over its class that finds it ready, until one does not
   * find it.
   */
  lemma RecordedIsListed(run: seq<Action>, i: nat, j: nat, c: string, uid: UID)
    requires Run(run) && i <= j < |run|
    requires uid in RefsAt(State(run[..i]).cache.brokers, c)
    requires forall n: nat :: i <= n < j ==> !NotFoundAt(run, n, c, uid)
    requires run[j].PassStep? && c in run[j].used && run[j].result.Some?
    ensures uid in RefsAt(State(run[..j]).cache.brokers, c)
    ensures var s := State(run[..j]).cache;
            var ref := RefsAt(s.brokers, c)[uid];
            BrokerReady(run[j].listers, ref) ==> Listed(run[j].result.value, IngressOf(ref, s.triggers, run[j].listers))
  {
    hide NotFoundAt, PassOutcome, Listed, State, Run, RefsAt, IngressOf;
    StillTracked(run, i, j, c, uid);
    StepAt(run, j);
    var s, a := State(run[..j]).cache, run[j];
    assert PassOutcome(s, a.used, a.binding, a.listers, a.post, Some(a.result.value));
    ReadyIsListed(s, a.used, a.binding, a.listers, a.post, a.result.value, c, uid);
  }

  lemma ReadyIsListed(pre: Cache, cs: seq<string>, b: BrokerBinding, l: Listers, post: Cache, ingresses: seq<Ingress>,
                      c: string, uid: UID)
    requires PassOutcome(pre, cs, b, l, post, Some(ingresses))
    requires c in cs && uid in RefsAt(pre.brokers, c)
    ensures BrokerReady(l, RefsAt(pre.brokers, c)[uid]) ==>
              Listed(ingresses, IngressOf(RefsAt(pre.brokers, c)[uid], pre.triggers, l))
  {
    hide PassOutcome, Listed;
    if BrokerReady(l, RefsAt(pre.brokers, c)[uid]) {
      var v := IngressOf(RefsAt(pre.brokers, c)[uid], pre.triggers, l);
      assert ReadyIn(pre, c, l, v);
      ListedExactlyWhenReady(pre, cs, b, l, post, ingresses, v);
    }
  }

  lemma TriggerStillTracked(run: seq<Action>, i: nat, j: nat, key: string, uid: UID)
    requires Run(run) && i <= j < |run|
    requires uid in RefsAt(State(run[..i]).cache.triggers, key)
    requires forall n: nat :: i <= n < j ==> !TriggerNotFoundAt(run, n, key, uid)
    ensures uid in RefsAt(State(run[..j]).cache.triggers, key)
  {
    hide TriggerNotFoundAt, State, Run, RefsAt;
    var upto := run[..j];
    RunPrefix(run, j);
    assert upto[..i] == run[..i];
    if uid !in RefsAt(State(upto).cache.triggers, key) {
      TriggerLostToNotFound(upto, i, key, uid);
      var n: nat :| i <= n && TriggerNotFoundAt(upto, n, key, uid);
      TriggerNotFoundInPrefix(run, j, n, key, uid);
    }
  }

  lemma TriggerNotFoundInPrefix(run: seq<Action>, j: nat, n: nat, key: string, uid: UID)
    requires j <= |run| && TriggerNotFoundAt(run[..j], n, key, uid)
    ensures n < j && TriggerNotFoundAt(run, n, key, uid)
  {
    assert run[..j][..n] == run[..n];
  }

  /** Once recorded, a trigger found ready is in every ingress listed for its broker, until a pass does not find it. */
  lemma RecordedTriggerIsListed(run: seq<Action>, i: nat, j: nat, key: string, uid: UID)
    requires Run(run) && i <= j < |run|
    requires uid in RefsAt(State(run[..i]).cache.triggers, key)
    requires forall n: nat :: i <= n < j ==> !TriggerNotFoundAt(run, n, key, uid)
    requires run[j].PassStep? && run[j].result.Some?
    ensures uid in RefsAt(State(run[..j]).cache.triggers, key)
    ensures var ref, l := RefsAt(State(run[..j]).cache.triggers, key)[uid], run[j].listers;
            TriggerReady(l, ref) ==>
              forall n :: 0 <= n < |run[j].result.value| && run[j].result.value[n].name == key ==>
                Egress(KeyOf(ref), Get(l.triggers, ref).found.subscriber) in run[j].result.value[n].egresses
  {
    hide TriggerNotFoundAt, PassOutcome, State, Run, RefsAt;
    TriggerStillTracked(run, i, j, key, uid);
    StepAt(run, j);
    var s, a := State(run[..j]).cache, run[j];
    assert PassOutcome(s, a.used, a.binding, a.listers, a.post, Some(a.result.value));
    if TriggerReady(a.listers, RefsAt(s.triggers, key)[uid]) {
      forall n | 0 <= n < |a.result.value| && a.result.value[n].name == key
        ensures var ref := RefsAt(s.triggers, key)[uid];
                Egress(KeyOf(ref), Get(a.listers.triggers, ref).found.subscriber) in a.result.value[n].egresses
      {
        ReadyTriggerIsListed(s, a.used, a.binding, a.listers, a.post, a.result.value, n, uid);
      }
    }
  }

  /**
   * A trigger that moves to another broker is recorded there and stays under the old one: a later successful pass that
   * finds it ready lists it in every ingress of either broker, until some pass does not find it.
   */
  lemma MovedTriggerStaysListed(run: seq<Action>, i: nat, j: nat, key: string, ev: TriggerEvent)
    requires Run(run) && i < j < |run| && run[i] == Handle(OfTrigger(ev))
    requires TriggerKey(ev) != key && ev.uid in RefsAt(State(run[..i]).cache.triggers, key)
    requires forall n: nat :: i < n < j ==>
               !TriggerNotFoundAt(run, n, key, ev.uid) && !TriggerNotFoundAt(run, n, TriggerKey(ev), ev.uid)
    requires run[j].PassStep? && run[j].result.Some?
    ensures ListedUnder(run, j, key, ev.uid) && ListedUnder(run, j, TriggerKey(ev), ev.uid)
  {
    hide TriggerNotFoundAt, Run, State;
    StepAt(run, i);
    EventIsAccepted(run, i, OfTrigger(ev));
    RecordedTriggerIsListed(run, i + 1, j, key, ev.uid);
    RecordedTriggerIsListed(run, i + 1, j, TriggerKey(ev), ev.uid);
  }

  /** The trigger tracked under `key` and `uid` is, if found ready, in every ingress of that name the pass lists. */
  ghost predicate ListedUnder(run: seq<Action>, j: nat, key: string, uid: UID)
    requires j < |run| && run[j].PassStep? && run[j].result.Some?
  {
    var refs, l, listed := RefsAt(State(run[..j]).cache.triggers, key), run[j].listers, run[j].result.value;
    && uid in refs
    && (TriggerReady(l, refs[uid]) ==>
          forall n :: 0 <= n < |listed| && listed[n].name == key ==>
            Egress(KeyOf(refs[uid]), Get(l.triggers, refs[uid]).found.subscriber) in listed[n].egresses)
  }

  lemma ReadyTriggerIsListed(pre: Cache, cs: seq<string>, b: BrokerBinding, l: Listers, post: Cache,
                             ingresses: seq<Ingress>, n: nat, uid: UID)
    requires PassOutcome(pre, cs, b, l, post, Some(ingresses)) && n < |ingresses|
    requires uid in RefsAt(pre.triggers, ingresses[n].name)
    requires TriggerReady(l, RefsAt(pre.triggers, ingresses[n].name)[uid])
    ensures var ref := RefsAt(pre.triggers, ingresses[n].name)[uid];
            Egress(KeyOf(ref), Get(l.triggers, ref).found.subscriber) in ingresses[n].egresses
  {
    hide PassOutcome, RefsAt;
    var v, refs := View(ingresses[n]), RefsAt(pre.triggers, ingresses[n].name);
    assert Listed(ingresses, v);
    ListedExactlyWhenReady(pre, cs, b, l, post, ingresses, v);
    var c :| c in cs && ReadyIn(pre, c, l, v);
    var egresses := ReadyEgresses(refs, l);
    assert v.egresses == Values(egresses);
    ValuesWitness(egresses, egresses[uid]);
  }

  /** The broker tracked under `c` and `uid` is, if the pass visits `c` and finds it ready, listed. */
  ghost predicate BrokerListedUnder(run: seq<Action>, j: nat, c: string, uid: UID)
    requires j < |run| && run[j].PassStep? && run[j].result.Some?
  {
    var s, l := State(run[..j]).cache, run[j].listers;
    && uid in RefsAt(s.brokers, c)
    && (c in run[j].used && BrokerReady(l, RefsAt(s.brokers, c)[uid]) ==>
          Listed(run[j].result.value, IngressOf(RefsAt(s.brokers, c)[uid], s.triggers, l)))
  }

  lemma BrokerStaysListed(run: seq<Action>, i: nat, j: nat, c: string, uid: UID)
    requires Run(run) && i <= j < |run|
    requires uid in RefsAt(State(run[..i]).cache.brokers, c)
    requires forall n: nat :: i <= n < j ==> !NotFoundAt(run, n, c, uid)
    requires run[j].PassStep? && run[j].result.Some?
    ensures BrokerListedUnder(run, j, c, uid)
  {
    hide NotFoundAt, Run, State, RefsAt, IngressOf, Listed;
    StillTracked(run, i, j, c, uid);
    if c in run[j].used {
      RecordedIsListed(run, i, j, c, uid);
    }
  }

  /**
   * A broker whose class annotation changes is recorded under the new class and stays under the old one: a later
   * successful pass over either that finds it ready lists it, until some pass over that class does not find it.
   */
  lemma MovedBrokerStaysListed(run: seq<Action>, i: nat, j: nat, c: string, ev: BrokerEvent)
    requires Run(run) && i < j < |run| && run[i] == Handle(OfBroker(ev))
    requires ev.class_ != Some(c) && ev.uid in RefsAt(State(run[..i]).cache.brokers, c)
    requires run[j].PassStep? && run[j].result.Some?
    ensures Annotated(ev)
    ensures (forall n: nat :: i < n < j ==> !NotFoundAt(run, n, c, ev.uid)) ==> BrokerListedUnder(run, j, c, ev.uid)
    ensures (forall n: nat :: i < n < j ==> !NotFoundAt(run, n, ev.class_.value, ev.uid)) ==>
              BrokerListedUnder(run, j, ev.class_.value, ev.uid)
  {
    hide NotFoundAt, Run, State, BrokerListedUnder;
    StepAt(run, i);
    EventIsAccepted(run, i, OfBroker(ev));
    if forall n: nat :: i < n < j ==> !NotFoundAt(run, n, c, ev.uid) {
      BrokerStaysListed(run, i + 1, j, c, ev.uid);
    }
    if forall n: nat :: i < n < j ==> !NotFoundAt(run, n, ev.class_.value, ev.uid) {
      BrokerStaysListed(run, i + 1, j, ev.class_.value, ev.uid);
    }
  }

  /* ---- What the filters keep out ---- */

  lemma {:induction false} AcceptedWasFiltered(run: seq<Action>, ev: Event) returns (n: nat)
    requires Run(run) && ev in State(run).accepted
    ensures n < |run| && run[n] == Filter(ev)
  {
    if Last(run) == Filter(ev) {
      n := |run| - 1;
    } else {
      n := AcceptedWasFiltered(Before(run), ev);
    }
  }

  /** A handled event was let through by its filter before, while its class or key was tracked. */
  lemma HandledWasFiltered(run: seq<Action>, j: nat) returns (n: nat)
    requires Run(run) && j < |run| && run[j].Handle?
    ensures n < j && run[n] == Filter(run[j].ev) && Accepts(State(run[..n]).cache, run[j].ev)
  {
    StepAt(run, j);
    n := AcceptedWasFiltered(run[..j], run[j].ev);
    StepAt(run, n);
  }

  /** So a broker whose event came before its class was tracked is not tracked until another event comes. */
  lemma BrokerRefAfterTracking(run: seq<Action>, c: string, uid: UID) returns (n: nat, j: nat)
    requires Run(run) && uid in RefsAt(State(run).cache.brokers, c)
    ensures n < j < |run| && RecordsBroker(run[j], c, uid) && run[n] == Filter(run[j].ev)
    ensures c in State(run[..n]).cache.brokers
  {
    hide Run, State;
    j := BrokerRefIsLatest(run, c, uid);
    n := HandledWasFiltered(run, j);
  }

  /** Nor a trigger whose event came before its broker's key was. */
  lemma TriggerRefAfterTracking(run: seq<Action>, key: string, uid: UID) returns (n: nat, j: nat)
    requires Run(run) && uid in RefsAt(State(run).cache.triggers, key)
    ensures n < j < |run| && RecordsTrigger(run[j], key, uid) && run[n] == Filter(run[j].ev)
    ensures key in State(run[..n]).cache.triggers
  {
    hide Run, State;
    j := TriggerRefIsLatest(run, key, uid);
    n := HandledWasFiltered(run, j);
  }

  /* ---- What an enqueued reconcile shows ---- */

  /** No pass after step `i` and before `j` that met a ready broker of the key got NotFound for the trigger. */
  ghost predicate NotMissed(run: seq<Action>, i: nat, j: nat, key: string, uid: UID) {
    forall n: nat :: i < n < j ==> !TriggerNotFoundAt(run, n, key, uid)
  }

  /** The pass finds some broker named `key`, tracked under `c`, ready. */
  ghost predicate MeetsReady(run: seq<Action>, j: nat, c: string, key: string)
    requires j < |run| && run[j].PassStep?
  {
    var refs := RefsAt(State(run[..j]).cache.brokers, c);
    exists uid :: uid in refs && KeyOf(refs[uid]) == key && BrokerReady(run[j].listers, refs[uid])
  }

  /** The trigger is tracked and, if found ready, an egress of some listed ingress named `key`. */
  ghost predicate Reports(run: seq<Action>, j: nat, key: string, uid: UID)
    requires j < |run| && run[j].PassStep? && run[j].result.Some?
  {
    var refs, l, listed := RefsAt(State(run[..j]).cache.triggers, key), run[j].listers, run[j].result.value;
    && uid in refs
    && (TriggerReady(l, refs[uid]) ==>
          exists n :: 0 <= n < |listed| && listed[n].name == key
                      && Egress(KeyOf(refs[uid]), Get(l.triggers, refs[uid]).found.subscriber) in listed[n].egresses)
  }

  /**
   * What a trigger event enqueues brings the trigger out: against some KMesh the enqueued binding was merged into,
   * every later successful pass that finds the broker ready, under a class it was recorded under, lists the trigger
   * with it.
   */
  lemma EnqueuedPassReports(run: seq<Action>, i: nat, ev: TriggerEvent) returns (k: UID, c: string)
    requires Run(run) && i < |run| && run[i] == Handle(OfTrigger(ev))
    ensures TriggerKey(ev) in State(run[..i]).cache.triggers
    ensures Reaches(run[..i], State(run[..i]).cache.triggers[TriggerKey(ev)].binding, TriggerKey(ev), k, c)
    ensures forall j :: i < j < |run| && run[j].PassStep? && run[j].kmesh == k && run[j].result.Some?
                        && MeetsReady(run, j, c, TriggerKey(ev)) && NotMissed(run, i, j, TriggerKey(ev), ev.uid)
                        ==> Reports(run, j, TriggerKey(ev), ev.uid)
  {
    hide Run, State, Reaches, MeetsReady, NotMissed, Reports;
    k, c := EnqueueReachesClass(run, i, ev);
    forall j | i < j < |run| && run[j].PassStep? && run[j].kmesh == k && run[j].result.Some?
               && MeetsReady(run, j, c, TriggerKey(ev)) && NotMissed(run, i, j, TriggerKey(ev), ev.uid)
      ensures Reports(run, j, TriggerKey(ev), ev.uid)
    {
      HandledReports(run, i, j, c, ev);
    }
  }

  lemma HandledReports(run: seq<Action>, i: nat, j: nat, c: string, ev: TriggerEvent)
    requires Run(run) && i < j < |run| && run[i] == Handle(OfTrigger(ev))
    requires run[j].PassStep? && run[j].result.Some? && c in run[j].used
    requires MeetsReady(run, j, c, TriggerKey(ev)) && NotMissed(run, i, j, TriggerKey(ev), ev.uid)
    ensures Reports(run, j, TriggerKey(ev), ev.uid)
  {
    hide Run, State, TriggerNotFoundAt, PassOutcome, Enabled, Apply, RefsAt;
    var key := TriggerKey(ev);
    TriggerRecordedAt(run, i, ev);
    RecordedTriggerIsListed(run, i + 1, j, key, ev.uid);
    OutcomeAt(run, j);
    var refs := RefsAt(State(run[..j]).cache.brokers, c);
    var uid :| uid in refs && KeyOf(refs[uid]) == key && BrokerReady(run[j].listers, refs[uid]);
    var a := run[j];
    var n := ReadyBrokerIsNamed(State(run[..j]).cache, a.used, a.binding, a.listers, a.post, a.result.value, c, uid);
  }

  lemma TriggerRecordedAt(run: seq<Action>, i: nat, ev: TriggerEvent)
    requires Run(run) && i < |run| && run[i] == Handle(OfTrigger(ev))
    ensures ev.uid in RefsAt(State(run[..i + 1]).cache.triggers, TriggerKey(ev))
  {
    hide Run, State;
    StepAt(run, i);
    EventIsAccepted(run, i, OfTrigger(ev));
  }

  lemma OutcomeAt(run: seq<Action>, j: nat)
    requires Run(run) && j < |run| && run[j].PassStep?
    ensures var a := run[j]; PassOutcome(State(run[..j]).cache, a.used, a.binding, a.listers, a.post, a.result)
  {
    hide Run, State, PassOutcome;
    StepAt(run, j);
  }

  /** A ready tracked broker of a visited class has an ingress of its name in the list. */
  lemma ReadyBrokerIsNamed(pre: Cache, cs: seq<string>, b: BrokerBinding, l: Listers, post: Cache,
                           ingresses: seq<Ingress>, c: string, uid: UID)
    returns (n: nat)
    requires PassOutcome(pre, cs, b, l, post, Some(ingresses)) && c in cs
    requires uid in RefsAt(pre.brokers, c) && BrokerReady(l, RefsAt(pre.brokers, c)[uid])
    ensures n < |ingresses| && ingresses[n].name == KeyOf(RefsAt(pre.brokers, c)[uid])
  {
    hide PassOutcome, RefsAt;
    ReadyIsListed(pre, cs, b, l, post, ingresses, c, uid);
    n :| 0 <= n < |ingresses| && View(ingresses[n]) == IngressOf(RefsAt(pre.brokers, c)[uid], pre.triggers, l);
  }

  /* ---- Where published ingresses and egresses come from ---- */

  ghost predicate NamespacesSlashFree(run: seq<Action>) {
    forall ev :: Handle(ev) in run ==>
        SlashFree(if ev.OfBroker? then ev.broker.ref.namespace else ev.trigger.ref.namespace)
  }

  /** An event recorded the broker of `ingress`, another the trigger of `egress`, and the trigger named that broker. */
  ghost predicate Attributed(run: seq<Action>, ingress: string, egress: string) {
    exists c, uid, bref, tuid, tref, broker ::
      && BrokerSeen(run, c, uid, bref) && KeyOf(bref) == ingress
      && Handle(OfTrigger(TriggerEvent(tuid, tref, broker))) in run && KeyOf(tref) == egress
      && Join(tref.namespace, broker) == ingress
      && (NamespacesSlashFree(run) ==> tref.namespace == bref.namespace && broker == bref.name)
  }

  lemma AttributedBy(run: seq<Action>, c: string, uid: UID, bref: KReference, tuid: UID, tref: KReference,
                     broker: string)
    requires BrokerSeen(run, c, uid, bref)
    requires Handle(OfTrigger(TriggerEvent(tuid, tref, broker))) in run
    requires Join(tref.namespace, broker) == KeyOf(bref)
    ensures Attributed(run, KeyOf(bref), KeyOf(tref))
  {
    if NamespacesSlashFree(run) {
      assert SlashFree(OfBroker(BrokerEvent(uid, bref, Some(c))).broker.ref.namespace);
      assert SlashFree(OfTrigger(TriggerEvent(tuid, tref, broker)).trigger.ref.namespace);
      JoinInjective(tref.namespace, broker, bref.namespace, bref.name);
    }
  }

  /** Every egress a pass lists comes from a recorded trigger event that named the ingress's broker. */
  lemma ListedIsAttributed(run: seq<Action>, cs: seq<string>, l: Listers, ingresses: seq<Ingress>, i: nat, e: nat)
    requires Run(run) && Realizes(ingresses, ClassBags(State(run).cache, cs, l))
    requires i < |ingresses| && e < |ingresses[i].egresses|
    ensures Attributed(run, ingresses[i].name, ingresses[i].egresses[e].name)
  {
    hide Realizes, Attributed, ClassBag, Run, State;
    var s, v := State(run).cache, View(ingresses[i]);
    RealizedMembers(ingresses, ClassBags(s, cs, l), v);
    BaggedClasses(s, cs, l, v);
    assert Listed(ingresses, v);
    var c :| c in cs && ReadyIn(s, c, l, v);
    var uid :| uid in RefsAt(s.brokers, c) && BrokerReady(l, RefsAt(s.brokers, c)[uid])
               && v == IngressOf(RefsAt(s.brokers, c)[uid], s.triggers, l);
    BrokersAreSeen(run, c, uid);
    var egresses := ReadyEgresses(RefsAt(s.triggers, v.name), l);
    assert ingresses[i].egresses[e] in Values(egresses);
    ValuesWitness(egresses, ingresses[i].egresses[e]);
    var tuid :| tuid in egresses && egresses[tuid] == ingresses[i].egresses[e];
    TriggersAreSeen(run, v.name, tuid);
    var tref := RefsAt(s.triggers, v.name)[tuid];
    var broker :| Join(tref.namespace, broker) == v.name && Handle(OfTrigger(TriggerEvent(tuid, tref, broker))) in run;
    AttributedBy(run, c, uid, RefsAt(s.brokers, c)[uid], tuid, tref, broker);
  }

  /** And so does every published one. */
  lemma PublishedIsAttributed(run: seq<Action>, j: nat, i: nat, e: nat)
    requires Run(run) && j < |run| && run[j].Publish?
    requires i < |run[j].ingresses| && e < |run[j].ingresses[i].egresses|
    ensures exists n: nat ::
              n < j && Attributed(run[..n], run[j].ingresses[i].name, run[j].ingresses[i].egresses[e].name)
  {
    hide Realizes, Attributed;
    PublishedSnapshot(run, j);
    var n: nat :| n < j && PassedAt(run, n, run[j].binding, run[j].kmesh, run[j].used, run[j].ingresses)
                  && Realizes(run[j].ingresses, ClassBags(State(run[..n]).cache, run[j].used, run[n].listers));
    RunPrefix(run, n);
    ListedIsAttributed(run[..n], run[j].used, run[n].listers, run[j].ingresses, i, e);
  }

  /* ---- What one handled event changes ---- */

  /** Only the one ref of the one entry, which is the event's from then on. */
  ghost predicate Recorded(pre: map<string, Entry>, post: map<string, Entry>, k: string, uid: UID, ref: KReference) {
    && post.Keys == pre.Keys && k in pre
    && (forall j :: j in pre && j != k ==> post[j] == pre[j])
    && post[k].binding == pre[k].binding
    && uid in post[k].refs && post[k].refs[uid] == ref
    && (forall u :: u != uid ==> (u in post[k].refs <==> u in pre[k].refs))
    && (forall u :: u in pre[k].refs && u != uid ==> post[k].refs[u] == pre[k].refs[u])
  }

  lemma BrokerEventRecords(run: seq<Action>, i: nat, ev: BrokerEvent)
    requires Run(run) && i < |run| && run[i] == Handle(OfBroker(ev))
    ensures ev.class_.Some?
    ensures var s, t := State(run[..i]).cache, State(run[..i + 1]).cache;
            && t.kmesh == s.kmesh && t.triggers == s.triggers
            && Recorded(s.brokers, t.brokers, ev.class_.value, ev.uid, ev.ref)
  {
    hide Run, State, Recorded, Record;
    StepAt(run, i);
    EventIsAccepted(run, i, OfBroker(ev));
    RecordRecords(State(run[..i]).cache.brokers, ev.class_.value, ev.uid, ev.ref);
  }

  lemma TriggerEventRecords(run: seq<Action>, i: nat, ev: TriggerEvent)
    requires Run(run) && i < |run| && run[i] == Handle(OfTrigger(ev))
    ensures var s, t := State(run[..i]).cache, State(run[..i + 1]).cache;
            && t.kmesh == s.kmesh && t.brokers == s.brokers
            && Recorded(s.triggers, t.triggers, ev.ref.namespace + "/" + ev.broker, ev.uid, ev.ref)
  {
    hide Run, State, Recorded, Record;
    StepAt(run, i);
    EventIsAccepted(run, i, OfTrigger(ev));
    RecordRecords(State(run[..i]).cache.triggers, TriggerKey(ev), ev.uid, ev.ref);
  }

  lemma RecordRecords(m: map<string, Entry>, k: string, uid: UID, ref: KReference)
    requires k in m
    ensures Recorded(m, Record(m, k, uid, ref), k, uid, ref)
  {
  }
}
