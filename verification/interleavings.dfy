/** Every interleaving of concurrent reconciles and informer events, one locked section or unlocked read a step. */
module Interleavings {
  import opened Events
  import opened Mesh
  import opened Names
  import opened PassLemmas
  import opened PassSpec
  import opened StringLists

  /** Where a reconcile of one BrokerBinding stands between its locked sections. */
  datatype Phase = Begun | Merged | Passed(used: seq<string>, ingresses: seq<Ingress>)

  datatype Worker = Worker(binding: BrokerBinding, kmesh: UID, phase: Phase)

  datatype Event = OfBroker(broker: BrokerEvent) | OfTrigger(trigger: TriggerEvent)

  /** `crashed` is set by a handler that panics. */
  datatype System = System(cache: Cache, workers: map<nat, Worker>, accepted: multiset<Event>, crashed: bool)

  datatype Action =
    | Begin(w: nat, binding: BrokerBinding, kmesh: UID)
    | MergeStep(w: nat, binding: BrokerBinding, kmesh: UID)
    | PassStep(w: nat, binding: BrokerBinding, kmesh: UID, used: seq<string>, listers: Listers,
               result: Option<seq<Ingress>>, post: Cache)
    | Publish(w: nat, binding: BrokerBinding, kmesh: UID, classes: seq<string>, used: seq<string>,
              ingresses: seq<Ingress>)
    | GiveUp(w: nat)
    | Filter(ev: Event)
    | Handle(ev: Event)

  const START := System(Cache(map[], map[], map[]), map[], multiset{}, false)

  ghost predicate Accepts(s: Cache, ev: Event) {
    match ev
    case OfBroker(b) => AcceptsBroker(s, b)
    case OfTrigger(t) => AcceptsTrigger(s, t)
  }

  ghost function Handling(s: Cache, ev: Event): (Handled, Cache) {
    match ev
    case OfBroker(b) => BrokerHandled(s, b)
    case OfTrigger(t) => TriggerHandled(s, t)
  }

  /** What may happen next. A handler runs some time after its filter said yes, on whatever state it then finds. */
  ghost predicate Enabled(s: System, a: Action) {
    && !s.crashed
    && match a
       case Begin(w, b, k) => w !in s.workers
       case MergeStep(w, b, k) => w in s.workers && s.workers[w] == Worker(b, k, Begun)
       case PassStep(w, b, k, used, l, result, post) =>
         && w in s.workers && s.workers[w] == Worker(b, k, Merged)
         && used == ClassesOf(s.cache, k)
         && PassOutcome(s.cache, used, b, l, post, result)
       case Publish(w, b, k, classes, used, ingresses) =>
         && w in s.workers && s.workers[w] == Worker(b, k, Passed(used, ingresses))
         && classes == ClassesOf(s.cache, k)
       case GiveUp(w) => w in s.workers
       case Filter(ev) => Accepts(s.cache, ev)
       case Handle(ev) => ev in s.accepted
  }

  ghost function Apply(s: System, a: Action): System {
    match a
    case Begin(w, b, k) => s.(workers := s.workers[w := Worker(b, k, Begun)])
    case MergeStep(w, b, k) =>
      s.(cache := s.cache.(kmesh := Merge(s.cache.kmesh, k, b.classes)),
         workers := s.workers[w := Worker(b, k, Merged)])
    case PassStep(w, b, k, used, l, result, post) =>
      s.(cache := post,
         workers := if result.None? then s.workers - {w} else s.workers[w := Worker(b, k, Passed(used, result.value))])
    case Publish(w, b, k, classes, used, ingresses) => s.(workers := s.workers - {w})
    case GiveUp(w) => s.(workers := s.workers - {w})
    case Filter(ev) => s.(accepted := s.accepted + multiset{ev})
    case Handle(ev) =>
      s.(cache := Handling(s.cache, ev).1, accepted := s.accepted - multiset{ev},
         crashed := Handling(s.cache, ev).0.Panicked?)
  }

  function Before(run: seq<Action>): seq<Action>
    requires run != []
  {
    run[..|run| - 1]
  }

  function Last(run: seq<Action>): Action
    requires run != []
  {
    run[|run| - 1]
  }

  ghost function State(run: seq<Action>): System {
    if run == [] then START else Apply(State(Before(run)), Last(run))
  }

  ghost predicate Run(run: seq<Action>) {
    run == [] || (Run(Before(run)) && Enabled(State(Before(run)), Last(run)))
  }

  /* ---- What no step takes back ---- */

  ghost predicate Grows(s: Cache, t: Cache) {
    && s.brokers.Keys <= t.brokers.Keys
    && s.triggers.Keys <= t.triggers.Keys
    && s.kmesh.Keys <= t.kmesh.Keys
    && (forall k :: k in s.kmesh ==> Elements(s.kmesh[k]) <= Elements(t.kmesh[k]))
    && (forall c :: c in s.brokers ==> t.brokers[c].binding == s.brokers[c].binding)
    && (forall k :: k in s.triggers ==> t.triggers[k].binding == s.triggers[k].binding)
  }

  lemma StepGrows(s: System, a: Action)
    requires Enabled(s, a)
    ensures Grows(s.cache, Apply(s, a).cache)
  {
    if a.PassStep? {
      OutcomeIsPartial(s.cache, a.used, a.binding, a.listers, a.post, a.result);
    }
  }

  lemma {:induction false} RunPrefix(run: seq<Action>, i: nat)
    requires Run(run) && i <= |run|
    ensures Run(run[..i])
  {
    if i == |run| {
      assert run[..i] == run;
    } else {
      RunPrefix(Before(run), i);
      assert Before(run)[..i] == run[..i];
    }
  }

  lemma StepAt(run: seq<Action>, i: nat)
    requires Run(run) && i < |run|
    ensures Run(run[..i]) && Enabled(State(run[..i]), run[i])
    ensures State(run[..i + 1]) == Apply(State(run[..i]), run[i])
  {
    RunPrefix(run, i + 1);
    assert Before(run[..i + 1]) == run[..i] && Last(run[..i + 1]) == run[i];
  }

  /** Tracked keys, their bindings and merged classes are never taken back. */
  lemma {:induction false} CachesGrow(run: seq<Action>, i: nat)
    requires Run(run) && i <= |run|
    ensures Grows(State(run[..i]).cache, State(run).cache)
  {
    if i == |run| {
      assert run[..i] == run;
    } else {
      CachesGrow(Before(run), i);
      StepGrows(State(Before(run)), Last(run));
      assert Before(run)[..i] == run[..i];
    }
  }

  /** No handler writes through a nil map: a filter's yes stands until its handler runs. */
  lemma {:induction false} NeverCrashes(run: seq<Action>)
    requires Run(run)
    ensures !State(run).crashed
    ensures forall ev :: ev in State(run).accepted ==> Accepts(State(run).cache, ev)
  {
    if run != [] {
      NeverCrashes(Before(run));
      StepGrows(State(Before(run)), Last(run));
    }
  }

  /* ---- The merged classes ---- */

  ghost function MergedClasses(run: seq<Action>, k: UID): set<string> {
    if run == [] then {}
    else MergedClasses(Before(run), k) +
         if Last(run).MergeStep? && Last(run).kmesh == k then Elements(Last(run).binding.classes) else {}
  }

  ghost function Merges(run: seq<Action>, k: UID): nat {
    if run == [] then 0
    else Merges(Before(run), k) + if Last(run).MergeStep? && Last(run).kmesh == k then 1 else 0
  }

  /** The cached classes are those merged so far; from the second merge on they are listed in ascending order. */
  lemma {:induction false} ClassesAreMerged(run: seq<Action>, k: UID)
    requires Run(run)
    ensures k in State(run).cache.kmesh <==> Merges(run, k) > 0
    ensures Elements(ClassesOf(State(run).cache, k)) == MergedClasses(run, k)
    ensures Merges(run, k) >= 2 ==> Ascending(ClassesOf(State(run).cache, k))
  {
    if run != [] {
      ClassesAreMerged(Before(run), k);
      StepKeepsOtherClasses(State(Before(run)), Last(run), k);
    }
  }

  lemma StepKeepsOtherClasses(s: System, a: Action, k: UID)
    requires Enabled(s, a)
    ensures !(a.MergeStep? && a.kmesh == k) ==> (k in Apply(s, a).cache.kmesh <==> k in s.cache.kmesh)
    ensures !(a.MergeStep? && a.kmesh == k) ==> ClassesOf(Apply(s, a).cache, k) == ClassesOf(s.cache, k)
  {
    if a.PassStep? {
      OutcomeIsPartial(s.cache, a.used, a.binding, a.listers, a.post, a.result);
    }
  }

  /** After a single merge the list is that binding's own, order and repetitions included. */
  lemma {:induction false} FirstMergeIsRaw(run: seq<Action>, k: UID)
    requires Run(run) && Merges(run, k) == 1
    ensures exists w, b :: MergeStep(w, b, k) in run && ClassesOf(State(run).cache, k) == b.classes
  {
    var s, a := State(Before(run)), Last(run);
    StepKeepsOtherClasses(s, a, k);
    if a.MergeStep? && a.kmesh == k {
      ClassesAreMerged(Before(run), k);
      assert a == MergeStep(a.w, a.binding, k);
    } else {
      FirstMergeIsRaw(Before(run), k);
      var w, b :| MergeStep(w, b, k) in Before(run) && ClassesOf(s.cache, k) == b.classes;
      InBefore(run, MergeStep(w, b, k));
    }
  }

  /** Merges commute: two runs that merged the same classes, in any order and grouping, cache the same list. */
  lemma MergesConfluent(run: seq<Action>, other: seq<Action>, k: UID)
    requires Run(run) && Run(other)
    requires Merges(run, k) >= 2 && Merges(other, k) >= 2
    requires MergedClasses(run, k) == MergedClasses(other, k)
    ensures ClassesOf(State(run).cache, k) == ClassesOf(State(other).cache, k)
  {
    ClassesAreMerged(run, k);
    ClassesAreMerged(other, k);
    AscendingUnique(ClassesOf(State(run).cache, k), ClassesOf(State(other).cache, k));
  }

  /* ---- What is published ---- */

  /** The pass whose ingresses a reconcile is about to publish. */
  ghost predicate PassedAt(run: seq<Action>, i: nat, b: BrokerBinding, k: UID, used: seq<string>,
                           ingresses: seq<Ingress>) {
    && i < |run| && run[i].PassStep?
    && run[i].binding == b && run[i].kmesh == k && run[i].used == used && run[i].result == Some(ingresses)
  }

  ghost predicate WorkerSound(run: seq<Action>, s: System, w: Worker) {
    match w.phase
    case Begun => true
    case Merged => Elements(w.binding.classes) <= Elements(ClassesOf(s.cache, w.kmesh))
    case Passed(used, ingresses) =>
      && Elements(w.binding.classes) <= Elements(used) <= Elements(ClassesOf(s.cache, w.kmesh))
      && exists i: nat :: PassedAt(run, i, w.binding, w.kmesh, used, ingresses)
  }

  lemma {:induction false} WorkersSound(run: seq<Action>)
    requires Run(run)
    ensures forall w :: w in State(run).workers ==> WorkerSound(run, State(run), State(run).workers[w])
  {
    if run != [] {
      var s, t, a := State(Before(run)), State(run), Last(run);
      WorkersSound(Before(run));
      StepGrows(s, a);
      forall w | w in t.workers ensures WorkerSound(run, t, t.workers[w]) {
        if w in s.workers && t.workers[w] == s.workers[w] {
          WorkerStaysSound(run, s.workers[w]);
        } else if a.PassStep? {
          assert PassedAt(run, |run| - 1, a.binding, a.kmesh, a.used, a.result.value);
          OutcomeIsPartial(s.cache, a.used, a.binding, a.listers, a.post, a.result);
          assert WorkerSound(Before(run), s, s.workers[w]);
        }
      }
    }
  }

  lemma WorkerStaysSound(run: seq<Action>, w: Worker)
    requires run != [] && WorkerSound(Before(run), State(Before(run)), w)
    requires Grows(State(Before(run)).cache, State(run).cache)
    ensures WorkerSound(run, State(run), w)
  {
    var s, t := State(Before(run)).cache, State(run).cache;
    assert Elements(ClassesOf(s, w.kmesh)) <= Elements(ClassesOf(t, w.kmesh));
    if w.phase.Passed? {
      var i: nat :| PassedAt(Before(run), i, w.binding, w.kmesh, w.phase.used, w.phase.ingresses);
      assert PassedAt(run, i, w.binding, w.kmesh, w.phase.used, w.phase.ingresses);
    }
  }

  /** Published classes include every class the published ingresses were computed over, and those the binding's own. */
  lemma PublishedSnapshot(run: seq<Action>, j: nat)
    requires Run(run) && j < |run| && run[j].Publish?
    ensures Elements(run[j].binding.classes) <= Elements(run[j].used) <= Elements(run[j].classes)
    ensures exists i: nat :: i < j && PassedAt(run, i, run[j].binding, run[j].kmesh, run[j].used, run[j].ingresses)
                     && Realizes(run[j].ingresses, ClassBags(State(run[..i]).cache, run[j].used, run[i].listers))
  {
    var upto, a := run[..j], run[j];
    StepAt(run, j);
    WorkersSound(upto);
    assert WorkerSound(upto, State(upto), State(upto).workers[a.w]);
    hide PassOutcome;
    var i: nat :| PassedAt(upto, i, a.binding, a.kmesh, a.used, a.ingresses);
    StepAt(run, i);
    assert PassedAt(run, i, a.binding, a.kmesh, a.used, a.ingresses);
    SucceededPass(State(run[..i]).cache, a.used, a.binding, run[i].listers, run[i].post, a.ingresses);
  }

  /* ---- Where tracked refs and bindings come from ---- */

  /** A broker event of class `c` was recorded, under this UID and with this ref. */
  ghost predicate BrokerSeen(run: seq<Action>, c: string, uid: UID, ref: KReference) {
    Handle(OfBroker(BrokerEvent(uid, ref, Some(c)))) in run
  }

  ghost predicate TriggerSeen(run: seq<Action>, key: string, uid: UID, ref: KReference) {
    exists name :: Join(ref.namespace, name) == key && Handle(OfTrigger(TriggerEvent(uid, ref, name))) in run
  }

  lemma InBefore(run: seq<Action>, a: Action)
    requires run != []
    ensures a in run <==> a in Before(run) || a == Last(run)
  {
    assert run == Before(run) + [Last(run)];
  }

  /** An entry only ever loses refs to a pass. */
  lemma PrunedRefs<T>(pre: map<string, Entry>, post: map<string, Entry>, touched: set<string>, b: BrokerBinding,
                      lister: map<(string, string), Reply<T>>, k: string, uid: UID)
    requires EntriesPruned(pre, post, touched, b, lister)
    ensures uid in RefsAt(post, k) ==> uid in RefsAt(pre, k) && RefsAt(post, k)[uid] == RefsAt(pre, k)[uid]
    ensures uid in RefsAt(pre, k) && uid !in RefsAt(post, k) ==>
        k in touched && Get(lister, RefsAt(pre, k)[uid]).NotFound?
  {
    if k in pre {
      assert RefsPruned(pre[k].refs, post[k].refs, lister);
    }
  }

  /** The step records a broker of class `c` under `uid`. */
  ghost predicate RecordsBroker(a: Action, c: string, uid: UID) {
    a.Handle? && a.ev.OfBroker? && a.ev.broker.uid == uid && a.ev.broker.class_ == Some(c)
  }

  ghost predicate RecordsTrigger(a: Action, key: string, uid: UID) {
    a.Handle? && a.ev.OfTrigger? && a.ev.trigger.uid == uid && TriggerKey(a.ev.trigger) == key
  }

  /** What a step does to one tracked broker ref: record it, or keep it as it is if it keeps it at all. */
  lemma StepBrokerRef(s: System, a: Action, c: string, uid: UID)
    requires Enabled(s, a) && !Apply(s, a).crashed
    requires uid in RefsAt(Apply(s, a).cache.brokers, c)
    ensures var ref := RefsAt(Apply(s, a).cache.brokers, c)[uid];
            if RecordsBroker(a, c, uid) && c != "" then ref == a.ev.broker.ref
            else uid in RefsAt(s.cache.brokers, c) && RefsAt(s.cache.brokers, c)[uid] == ref
  {
    if a.PassStep? {
      OutcomeIsPartial(s.cache, a.used, a.binding, a.listers, a.post, a.result);
      PrunedRefs(s.cache.brokers, a.post.brokers, Elements(a.used), a.binding, a.listers.brokers, c, uid);
    }
  }

  lemma StepTriggerRef(s: System, a: Action, key: string, uid: UID)
    requires Enabled(s, a) && !Apply(s, a).crashed
    requires uid in RefsAt(Apply(s, a).cache.triggers, key)
    ensures var ref := RefsAt(Apply(s, a).cache.triggers, key)[uid];
            if RecordsTrigger(a, key, uid) then ref == a.ev.trigger.ref
            else uid in RefsAt(s.cache.triggers, key) && RefsAt(s.cache.triggers, key)[uid] == ref
  {
    if a.PassStep? {
      OutcomeIsPartial(s.cache, a.used, a.binding, a.listers, a.post, a.result);
      PrunedRefs(s.cache.triggers, a.post.triggers, ReadyKeys(s.cache, a.used, a.listers), a.binding,
                 a.listers.triggers, key, uid);
    }
  }

  /** No handled event carries an empty class. */
  lemma AnnotatedOnly(run: seq<Action>, n: nat, c: string, uid: UID)
    requires Run(run) && n < |run| && RecordsBroker(run[n], c, uid)
    ensures c != ""
  {
    StepAt(run, n);
    NeverCrashes(run[..n]);
    assert Accepts(State(run[..n]).cache, run[n].ev);
  }

  lemma BrokerRefStep(run: seq<Action>, c: string, uid: UID)
    requires Run(run) && uid in RefsAt(State(run).cache.brokers, c)
    ensures run != [] && Run(Before(run))
    ensures var ref, s := RefsAt(State(run).cache.brokers, c)[uid], State(Before(run)).cache;
            if RecordsBroker(Last(run), c, uid) then ref == Last(run).ev.broker.ref
            else uid in RefsAt(s.brokers, c) && RefsAt(s.brokers, c)[uid] == ref
  {
    var s, a := State(Before(run)), Last(run);
    NeverCrashes(run);
    assert Run(Before(run)) && Enabled(s, a) && State(run) == Apply(s, a);
    if RecordsBroker(a, c, uid) {
      AnnotatedOnly(run, |run| - 1, c, uid);
    }
    hide Run, State, Enabled, Apply, RefsAt, RecordsBroker;
    StepBrokerRef(s, a, c, uid);
  }

  /** A tracked broker ref is that of the latest event handled for its class and UID. */
  lemma {:induction false} BrokerRefIsLatest(run: seq<Action>, c: string, uid: UID) returns (j: nat)
    requires Run(run) && uid in RefsAt(State(run).cache.brokers, c)
    ensures j < |run| && RecordsBroker(run[j], c, uid)
    ensures run[j].ev.broker.ref == RefsAt(State(run).cache.brokers, c)[uid]
    ensures forall n :: j < n < |run| ==> !RecordsBroker(run[n], c, uid)
  {
    hide Run, State, RefsAt, RecordsBroker;
    BrokerRefStep(run, c, uid);
    if RecordsBroker(Last(run), c, uid) {
      j := |run| - 1;
    } else {
      j := BrokerRefIsLatest(Before(run), c, uid);
    }
  }

  lemma TriggerRefStep(run: seq<Action>, key: string, uid: UID)
    requires Run(run) && uid in RefsAt(State(run).cache.triggers, key)
    ensures run != [] && Run(Before(run))
    ensures var ref, s := RefsAt(State(run).cache.triggers, key)[uid], State(Before(run)).cache;
            if RecordsTrigger(Last(run), key, uid) then ref == Last(run).ev.trigger.ref
            else uid in RefsAt(s.triggers, key) && RefsAt(s.triggers, key)[uid] == ref
  {
    var s, a := State(Before(run)), Last(run);
    NeverCrashes(run);
    assert Run(Before(run)) && Enabled(s, a) && State(run) == Apply(s, a);
    hide Run, State, Enabled, Apply, RefsAt, RecordsTrigger;
    StepTriggerRef(s, a, key, uid);
  }

  /** A tracked trigger ref is that of the latest event handled for its key and UID. */
  lemma {:induction false} TriggerRefIsLatest(run: seq<Action>, key: string, uid: UID) returns (j: nat)
    requires Run(run) && uid in RefsAt(State(run).cache.triggers, key)
    ensures j < |run| && RecordsTrigger(run[j], key, uid)
    ensures run[j].ev.trigger.ref == RefsAt(State(run).cache.triggers, key)[uid]
    ensures forall n :: j < n < |run| ==> !RecordsTrigger(run[n], key, uid)
  {
    hide Run, State, RefsAt, RecordsTrigger;
    TriggerRefStep(run, key, uid);
    if RecordsTrigger(Last(run), key, uid) {
      j := |run| - 1;
    } else {
      j := TriggerRefIsLatest(Before(run), key, uid);
    }
  }

  /** So every tracked broker ref was delivered by an event that carried its class. */
  lemma BrokersAreSeen(run: seq<Action>, c: string, uid: UID)
    requires Run(run)
    requires uid in RefsAt(State(run).cache.brokers, c)
    ensures BrokerSeen(run, c, uid, RefsAt(State(run).cache.brokers, c)[uid])
  {
    var j := BrokerRefIsLatest(run, c, uid);
    hide Run, State;
    assert run[j] == Handle(OfBroker(BrokerEvent(uid, RefsAt(State(run).cache.brokers, c)[uid], Some(c))));
  }

  /** And every trigger ref tracked under a key by one whose namespace and broker name join to it. */
  lemma TriggersAreSeen(run: seq<Action>, key: string, uid: UID)
    requires Run(run)
    requires uid in RefsAt(State(run).cache.triggers, key)
    ensures TriggerSeen(run, key, uid, RefsAt(State(run).cache.triggers, key)[uid])
  {
    var j := TriggerRefIsLatest(run, key, uid);
    hide Run, State;
    var ref := RefsAt(State(run).cache.triggers, key)[uid];
    var broker := run[j].ev.trigger.broker;
    assert run[j] == Handle(OfTrigger(TriggerEvent(uid, ref, broker))) && Join(ref.namespace, broker) == key;
  }
}
