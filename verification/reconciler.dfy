/** The controller's shared state: three maps whose entries point at maps of their own. */
module BrokerBindingReconciler {
  import opened Bags
  import opened Events
  import opened Mesh
  import opened PassLemmas
  import opened PassSpec
  import opened StringLists

  /** A Go map from UID to reference; copying an entry copies the pointer to it. */
  class RefMap {
    var refs: Refs

    constructor ()
      ensures refs == map[]
    {
      refs := map[];
    }
  }

  /** `BrokerBindingCache` and `TriggerBrokerCache`. A missing key reads as `Tracked(null, None)`. */
  datatype Tracked = Tracked(refs: RefMap?, binding: Option<BrokerBinding>)

  function Lookup(m: map<string, Tracked>, k: string): Tracked {
    if k in m then m[k] else Tracked(null, None)
  }

  /** Every stored entry has a binding and a ref map out of `maps`, and no two keys share one. */
  ghost predicate Sound(m: map<string, Tracked>, maps: set<RefMap?>) {
    && (forall k :: k in m ==> m[k].refs != null && m[k].refs in maps && m[k].binding.Some?)
    && (forall j, k :: j in m && k in m && j != k ==> m[j].refs != m[k].refs)
  }

  /** What the pointers lead to. */
  ghost function Entries(m: map<string, Tracked>, maps: set<RefMap?>): map<string, Entry>
    requires Sound(m, maps)
    reads maps
  {
    map k | k in m :: Entry(m[k].refs.refs, m[k].binding.value)
  }

  /** `entries` is what `m` holds, read through the pointers. */
  ghost predicate Denotes(m: map<string, Tracked>, maps: set<RefMap?>, entries: map<string, Entry>)
    reads maps
  {
    && Sound(m, maps)
    && entries.Keys == m.Keys
    && (forall k :: k in m ==> m[k].refs.refs == entries[k].refs && m[k].binding.value == entries[k].binding)
  }

  lemma DenotesEntries(m: map<string, Tracked>, maps: set<RefMap?>, entries: map<string, Entry>)
    requires Sound(m, maps)
    ensures Denotes(m, maps, entries) <==> entries == Entries(m, maps)
  {
    if
      && entries.Keys == m.Keys
      && forall k :: k in m ==> m[k].refs.refs == entries[k].refs && m[k].binding.value == entries[k].binding
    {
      assert forall k :: k in m ==> entries[k] == Entries(m, maps)[k];
    }
  }

  /** Storing an entry under its own map or under one no other key uses, the other maps being as in `was`. */
  lemma StoreEntry(was: map<string, Entry>, m: map<string, Tracked>, maps: set<RefMap?>, k: string, t: Tracked)
    requires Sound(m, maps) && was.Keys == m.Keys
    requires forall j :: j in m && j != k ==> m[j].refs.refs == was[j].refs && m[j].binding.value == was[j].binding
    requires t.refs != null && t.binding.Some?
    requires if k in m then t == m[k] else t.refs !in maps
    ensures Denotes(m[k := t], maps + {t.refs}, was[k := Entry(t.refs.refs, t.binding.value)])
  {
  }

  /** A ref recorded through the pointer. */
  lemma RecordDenotes(m: map<string, Tracked>, maps: set<RefMap?>, was: map<string, Entry>, k: string, uid: UID,
                      ref: KReference)
    requires Sound(m, maps) && was.Keys == m.Keys && k in m
    requires forall j :: j in m ==> m[j].binding.value == was[j].binding
    requires forall j :: j in m ==> m[j].refs.refs == if j == k then was[k].refs[uid := ref] else was[j].refs
    ensures Denotes(m, maps, Record(was, k, uid, ref))
  {
  }

  lemma Restored(m: map<string, Tracked>, k: string, t: Tracked, maps: set<RefMap?>)
    requires k in m && m[k] == t && t.refs != null && t.refs in maps
    ensures m[k := t] == m && maps + {t.refs} == maps
  {
  }

  /** The tracked entry, or a new one for `b` with an empty ref map, not yet stored. */
  method LookupOrNew(m: map<string, Tracked>, k: string, b: BrokerBinding) returns (t: Tracked)
    requires forall k :: k in m ==> m[k].refs != null && m[k].binding.Some?
    ensures t.refs != null && t.binding.Some?
    ensures k in m ==> t == m[k]
    ensures k !in m ==> fresh(t.refs) && t.refs.refs == map[] && t.binding == Some(b)
  {
    t := Lookup(m, k);
    if k !in m {
      var refs := new RefMap();
      t := Tracked(refs, Some(b));
    }
  }

  /** A ref map half way through a range loop: `todo` not yet visited, the visited refs pruned. */
  function PruneVisited<T>(all: Refs, todo: set<UID>, lister: map<(string, string), Reply<T>>): Refs {
    map u | u in all && (u in todo || !Get(lister, all[u]).NotFound?) :: all[u]
  }

  lemma PruneVisitedStep<T>(all: Refs, todo: set<UID>, u: UID, lister: map<(string, string), Reply<T>>)
    requires todo <= all.Keys && u in todo
    ensures PruneVisited(all, todo - {u}, lister) ==
            if Get(lister, all[u]).NotFound? then PruneVisited(all, todo, lister) - {u}
            else PruneVisited(all, todo, lister)
  {
  }

  lemma PruneVisitedEnds<T>(all: Refs, todo: set<UID>, lister: map<(string, string), Reply<T>>)
    ensures PruneVisited(all, all.Keys, lister) == all
    ensures PruneVisited(all, {}, lister) == Prune(all, lister)
    ensures RefsPruned(all, PruneVisited(all, todo, lister), lister)
  {
  }

  lemma EgressStep(all: Refs, todo: set<UID>, u: UID, l: Listers)
    requires todo <= all.Keys && u in todo
    ensures SomeTriggerFails(all - (todo - {u}), l) ==
        (SomeTriggerFails(all - todo, l) || Get(l.triggers, all[u]).OtherError?)
    ensures Values(ReadyEgresses(all - (todo - {u}), l)) ==
            Values(ReadyEgresses(all - todo, l)) +
            if TriggerReady(l, all[u]) then multiset{Egress(KeyOf(all[u]), Get(l.triggers, all[u]).found.subscriber)}
            else multiset{}
  {
    var before, after := all - todo, all - (todo - {u});
    assert after == before[u := all[u]];
    assert u in after && forall v :: v in before ==> v in after;
    if TriggerReady(l, all[u]) {
      var egress := Egress(KeyOf(all[u]), Get(l.triggers, all[u]).found.subscriber);
      assert ReadyEgresses(after, l) == ReadyEgresses(before, l)[u := egress];
      ValuesInsert(ReadyEgresses(before, l), u, egress);
    } else {
      assert ReadyEgresses(after, l) == ReadyEgresses(before, l);
    }
  }

  /** One pass over the refs of a trigger cache. */
  method CollectEgresses(triggerRefs: RefMap, l: Listers) returns (egresses: Option<seq<Egress>>)
    modifies triggerRefs
    ensures egresses.None? <==> SomeTriggerFails(old(triggerRefs.refs), l)
    ensures RefsPruned(old(triggerRefs.refs), triggerRefs.refs, l.triggers)
    ensures egresses.Some? ==>
              && triggerRefs.refs == Prune(old(triggerRefs.refs), l.triggers)
              && multiset(egresses.value) == Values(ReadyEgresses(old(triggerRefs.refs), l))
  {
    ghost var all := triggerRefs.refs;
    var todo := triggerRefs.refs.Keys;
    var egressList: seq<Egress> := [];
    PruneVisitedEnds(all, todo, l.triggers);
    assert all - todo == map[];
    while todo != {}
      invariant todo <= all.Keys
      invariant triggerRefs.refs == PruneVisited(all, todo, l.triggers)
      invariant !SomeTriggerFails(all - todo, l)
      invariant multiset(egressList) == Values(ReadyEgresses(all - todo, l))
    {
      var tuid :| tuid in todo;
      var tref := triggerRefs.refs[tuid];
      PruneVisitedStep(all, todo, tuid, l.triggers);
      EgressStep(all, todo, tuid, l);
      todo := todo - {tuid};
      match Get(l.triggers, tref) {
        case NotFound =>
          triggerRefs.refs := triggerRefs.refs - {tuid};
        case OtherError =>
          PruneVisitedEnds(all, todo, l.triggers);
          return None;
        case Found(t) =>
          if t.ready {
            egressList := egressList + [Egress(KeyOf(tref), t.subscriber)];
          }
      }
    }
    assert all - todo == all;
    PruneVisitedEnds(all, todo, l.triggers);
    return Some(egressList);
  }

  lemma NamesStep(all: Refs, todo: set<UID>, u: UID, l: Listers)
    requires todo <= all.Keys && u in todo
    ensures ReadyNames(all - (todo - {u}), l) ==
            ReadyNames(all - todo, l) + if BrokerReady(l, all[u]) then {KeyOf(all[u])} else {}
  {
    var before := all - todo;
    var after := all - (todo - {u});
    assert after == before[u := all[u]];
    forall k
      ensures k in ReadyNames(after, l) <==>
                k in ReadyNames(before, l) || (BrokerReady(l, all[u]) && k == KeyOf(all[u]))
    {
      if v :| v in before && BrokerReady(l, before[v]) && KeyOf(before[v]) == k {
        assert v in after && after[v] == before[v];
      }
      if BrokerReady(l, all[u]) && k == KeyOf(all[u]) {
        assert u in after && after[u] == all[u];
      }
    }
  }

  lemma IngressStep(all: Refs, todo: set<UID>, u: UID, triggers: map<string, Entry>, l: Listers)
    requires todo <= all.Keys && u in todo
    ensures Values(ReadyIngresses(all - (todo - {u}), triggers, l)) ==
            Values(ReadyIngresses(all - todo, triggers, l)) +
            if BrokerReady(l, all[u]) then multiset{IngressOf(all[u], triggers, l)} else multiset{}
  {
    var before := all - todo;
    assert all - (todo - {u}) == before[u := all[u]];
    ReadyIngressesInsert(before, u, all[u], triggers, l);
    if BrokerReady(l, all[u]) {
      ValuesInsert(ReadyIngresses(before, triggers, l), u, IngressOf(all[u], triggers, l));
    }
  }

  lemma ReadyIngressesInsert(refs: Refs, u: UID, ref: KReference, triggers: map<string, Entry>, l: Listers)
    requires u !in refs
    ensures ReadyIngresses(refs[u := ref], triggers, l) ==
            if BrokerReady(l, ref) then ReadyIngresses(refs, triggers, l)[u := IngressOf(ref, triggers, l)]
            else ReadyIngresses(refs, triggers, l)
  {
  }

  /** The entry a pass leaves at one visited key. */
  function PrunedEntry<T>(m: map<string, Entry>, k: string, b: BrokerBinding,
                          lister: map<(string, string), Reply<T>>): Entry {
    Entry(Prune(RefsAt(m, k), lister), if k in m then m[k].binding else b)
  }

  lemma PruneOne<T>(m: map<string, Entry>, k: string, b: BrokerBinding, lister: map<(string, string), Reply<T>>)
    ensures PruneAt(m, {k}, b, lister) == m[k := PrunedEntry(m, k, b, lister)]
  {
    var none: Refs := map[];
    assert Prune(none, lister) == none;
  }

  lemma PartialOne<T>(m: map<string, Entry>, k: string, refs: Refs, b: BrokerBinding,
                      lister: map<(string, string), Reply<T>>)
    requires k in m && RefsPruned(m[k].refs, refs, lister)
    ensures EntriesPruned(m, m[k := Entry(refs, m[k].binding)], {k}, b, lister)
  {
  }

  lemma ViewsAppend(s: seq<Ingress>, i: Ingress)
    ensures Views(s + [i]) == Views(s) + [View(i)]
  {
  }

  /** Half way through the range over a class's brokers: `todo` not yet visited, `now` the trigger entries so far. */
  ghost predicate Ranged(all: Refs, todo: set<UID>, was: map<string, Entry>, now: map<string, Entry>,
                         ingresses: seq<Ingress>, b: BrokerBinding, l: Listers) {
    && todo <= all.Keys
    && now == PruneAt(was, ReadyNames(all - todo, l), b, l.triggers)
    && !SomeBrokerFails(all - todo, was, l)
    && multiset(Views(ingresses)) == Values(ReadyIngresses(all - todo, was, l))
  }

  lemma RangeStart(all: Refs, was: map<string, Entry>, b: BrokerBinding, l: Listers)
    ensures Ranged(all, all.Keys, was, was, [], b, l)
  {
    assert all - all.Keys == map[];
    assert PruneAt(was, {}, b, l.triggers) == was;
  }

  /** Trigger entries already pruned report the same ready triggers and the same failures. */
  lemma RangedTriggers(was: map<string, Entry>, keys: set<string>, ref: KReference, b: BrokerBinding, l: Listers)
    ensures SomeTriggerFails(RefsAt(PruneAt(was, keys, b, l.triggers), KeyOf(ref)), l) ==
            SomeTriggerFails(RefsAt(was, KeyOf(ref)), l)
    ensures BrokerReady(l, ref) ==> IngressOf(ref, PruneAt(was, keys, b, l.triggers), l) == IngressOf(ref, was, l)
  {
    PruneAtIsPruned(was, keys, b, l.triggers);
    PrunedReadyEgresses(RefsAt(was, KeyOf(ref)), RefsAt(PruneAt(was, keys, b, l.triggers), KeyOf(ref)), l);
  }

  lemma FailsStep(all: Refs, todo: set<UID>, u: UID, was: map<string, Entry>, l: Listers)
    requires todo <= all.Keys && u in todo
    ensures SomeBrokerFails(all - (todo - {u}), was, l) ==
            (SomeBrokerFails(all - todo, was, l) || BrokerFails(was, l, all[u]))
    ensures SomeBrokerFails(all - todo, was, l) || BrokerFails(was, l, all[u]) ==> SomeBrokerFails(all, was, l)
  {
    var before, after := all - todo, all - (todo - {u});
    assert after == before[u := all[u]];
    assert u in after && forall v :: v in before ==> v in after && v in all;
  }

  /** A visited broker that is not found, or found not ready, adds nothing. */
  lemma RangeSkip(all: Refs, todo: set<UID>, u: UID, was: map<string, Entry>, now: map<string, Entry>,
                  ingresses: seq<Ingress>, b: BrokerBinding, l: Listers)
    requires Ranged(all, todo, was, now, ingresses, b, l) && u in todo
    requires !BrokerReady(l, all[u]) && !Get(l.brokers, all[u]).OtherError?
    ensures Ranged(all, todo - {u}, was, now, ingresses, b, l)
  {
    NamesStep(all, todo, u, l);
    assert ReadyNames(all - (todo - {u}), l) == ReadyNames(all - todo, l);
    IngressStep(all, todo, u, was, l);
    FailsStep(all, todo, u, was, l);
    assert !BrokerFails(was, l, all[u]);
  }

  /** A ready broker adds its ingress and its key. */
  lemma RangeAdd(all: Refs, todo: set<UID>, u: UID, was: map<string, Entry>, now: map<string, Entry>,
                 then_: map<string, Entry>, ingresses: seq<Ingress>, i: Ingress, b: BrokerBinding, l: Listers)
    requires Ranged(all, todo, was, now, ingresses, b, l) && u in todo
    requires BrokerReady(l, all[u]) && !SomeTriggerFails(RefsAt(now, KeyOf(all[u])), l)
    requires then_ == PruneAt(now, {KeyOf(all[u])}, b, l.triggers)
    requires View(i) == IngressOf(all[u], now, l)
    ensures Ranged(all, todo - {u}, was, then_, ingresses + [i], b, l)
  {
    var visited := ReadyNames(all - todo, l);
    RangedTriggers(was, visited, all[u], b, l);
    NamesStep(all, todo, u, l);
    IngressStep(all, todo, u, was, l);
    FailsStep(all, todo, u, was, l);
    PruneAtTwice(was, visited, {KeyOf(all[u])}, b, l.triggers);
    ViewsAppend(ingresses, i);
  }

  /** An error stops the range with only visited keys touched. */
  lemma RangeError(all: Refs, todo: set<UID>, u: UID, was: map<string, Entry>, now: map<string, Entry>,
                   then_: map<string, Entry>, ingresses: seq<Ingress>, b: BrokerBinding, l: Listers)
    requires Ranged(all, todo, was, now, ingresses, b, l) && u in todo
    requires
      || (Get(l.brokers, all[u]).OtherError? && then_ == now)
      || (BrokerReady(l, all[u]) && SomeTriggerFails(RefsAt(now, KeyOf(all[u])), l)
          && EntriesPruned(now, then_, {KeyOf(all[u])}, b, l.triggers))
    ensures SomeBrokerFails(all, was, l)
    ensures EntriesPruned(was, then_, ReadyNames(all, l), b, l.triggers)
  {
    var visited := ReadyNames(all - todo, l);
    RangedTriggers(was, visited, all[u], b, l);
    FailsStep(all, todo, u, was, l);
    PruneAtIsPruned(was, visited, b, l.triggers);
    assert visited <= ReadyNames(all, l);
    if BrokerReady(l, all[u]) {
      EntriesPrunedTransitive(was, now, then_, visited, {KeyOf(all[u])}, b, l.triggers);
      assert KeyOf(all[u]) in ReadyNames(all, l);
      assert visited + {KeyOf(all[u])} <= ReadyNames(all, l);
    }
  }

  /** Look the entry up or create it, pass over its refs and store it again, unless a `Get` failed. */
  method VisitTriggers(m: map<string, Tracked>, ghost maps: set<RefMap?>, ghost was: map<string, Entry>,
                       key: string, b: BrokerBinding, l: Listers)
    returns (egresses: Option<seq<Egress>>, after: map<string, Tracked>, ghost afterMaps: set<RefMap?>,
             ghost now: map<string, Entry>)
    requires Denotes(m, maps, was)
    modifies maps
    ensures Denotes(after, afterMaps, now) && (forall r :: r in afterMaps && r !in maps ==> fresh(r))
    ensures egresses.None? ==> SomeTriggerFails(RefsAt(was, key), l) && EntriesPruned(was, now, {key}, b, l.triggers)
    ensures egresses.Some? ==>
              && !SomeTriggerFails(RefsAt(was, key), l)
              && now == PruneAt(was, {key}, b, l.triggers)
              && multiset(egresses.value) == Values(ReadyEgresses(RefsAt(was, key), l))
  {
    var cache := LookupOrNew(m, key, b);
    egresses := CollectEgresses(cache.refs, l);
    now := was[key := Entry(cache.refs.refs, cache.binding.value)];
    StoreEntry(was, m, maps, key, cache);
    if egresses.None? {
      after, afterMaps := m, maps;
      Restored(m, key, cache, maps);
      PartialOne(was, key, cache.refs.refs, b, l.triggers);
    } else {
      after, afterMaps := m[key := cache], maps + {cache.refs};
      PruneOne(was, key, b, l.triggers);
    }
  }

  /** Range over the broker refs of one class, passing over the triggers of every ready one. */
  method CollectIngresses(brokerRefs: RefMap, m: map<string, Tracked>, ghost maps: set<RefMap?>,
                          ghost was: map<string, Entry>, b: BrokerBinding, l: Listers)
    returns (ingresses: Option<seq<Ingress>>, after: map<string, Tracked>, ghost afterMaps: set<RefMap?>,
             ghost now: map<string, Entry>)
    requires Denotes(m, maps, was) && brokerRefs !in maps
    modifies maps, brokerRefs
    ensures Denotes(after, afterMaps, now) && (forall r :: r in afterMaps && r !in maps ==> fresh(r))
    ensures RefsPruned(old(brokerRefs.refs), brokerRefs.refs, l.brokers)
    ensures ingresses.None? ==>
              && SomeBrokerFails(old(brokerRefs.refs), was, l)
              && EntriesPruned(was, now, ReadyNames(old(brokerRefs.refs), l), b, l.triggers)
    ensures ingresses.Some? ==>
              && brokerRefs.refs == Prune(old(brokerRefs.refs), l.brokers)
              && Ranged(old(brokerRefs.refs), {}, was, now, ingresses.value, b, l)
  {
    hide EntriesPruned, RefsPruned, Prune, PruneAt, SomeBrokerFails;
    ghost var all := brokerRefs.refs;
    var todo := brokerRefs.refs.Keys;
    var ingressList: seq<Ingress> := [];
    after, afterMaps, now := m, maps, was;
    PruneVisitedEnds(all, todo, l.brokers);
    RangeStart(all, was, b, l);
    while todo != {}
      invariant brokerRefs.refs == PruneVisited(all, todo, l.brokers)
      invariant Denotes(after, afterMaps, now) && (forall r :: r in afterMaps && r !in maps ==> fresh(r))
      invariant brokerRefs !in afterMaps
      invariant Ranged(all, todo, was, now, ingressList, b, l)
    {
      var buid :| buid in todo;
      var bref := brokerRefs.refs[buid];
      ghost var left, before := todo, now;
      PruneVisitedStep(all, todo, buid, l.brokers);
      todo := todo - {buid};
      match Get(l.brokers, bref) {
        case NotFound =>
          brokerRefs.refs := brokerRefs.refs - {buid};
          RangeSkip(all, left, buid, was, now, ingressList, b, l);
        case OtherError =>
          RangeError(all, left, buid, was, now, now, ingressList, b, l);
          PruneVisitedEnds(all, todo, l.brokers);
          ingresses := None;
          return;
        case Found(broker) =>
          if broker.ready {
            var egresses;
            egresses, after, afterMaps, now := VisitTriggers(after, afterMaps, now, KeyOf(bref), b, l);
            if egresses.None? {
              RangeError(all, left, buid, was, before, now, ingressList, b, l);
              PruneVisitedEnds(all, todo, l.brokers);
              ingresses := None;
              return;
            }
            var ingress := Ingress(KeyOf(bref), broker.address, egresses.value);
            RangeAdd(all, left, buid, was, before, now, ingressList, ingress, b, l);
            ingressList := ingressList + [ingress];
          } else {
            RangeSkip(all, left, buid, was, now, ingressList, b, l);
          }
      }
    }
    assert todo == {};
    PruneVisitedEnds(all, todo, l.brokers);
    ingresses := Some(ingressList);
  }

  /** One class's range, as a pass over that class alone. */
  lemma ClassDone(pre: Cache, c: string, refs: Refs, binding: BrokerBinding, now: map<string, Entry>,
                  ingresses: seq<Ingress>, b: BrokerBinding, l: Listers)
    requires refs == Prune(RefsAt(pre.brokers, c), l.brokers)
    requires binding == if c in pre.brokers then pre.brokers[c].binding else b
    requires Ranged(RefsAt(pre.brokers, c), {}, pre.triggers, now, ingresses, b, l)
    ensures PassOutcome(pre, [c], b, l,
                        Cache(pre.kmesh, pre.brokers[c := Entry(refs, binding)], now), Some(ingresses))
  {
    var all := RefsAt(pre.brokers, c);
    assert all - {} == all;
    PruneOne(pre.brokers, c, b, l.brokers);
    OneClass(pre, c, l);
    RealizesOne(ingresses, ClassBag(pre, c, l));
  }

  lemma ClassStopped(pre: Cache, c: string, refs: Refs, binding: BrokerBinding, now: map<string, Entry>,
                     b: BrokerBinding, l: Listers)
    requires SomeBrokerFails(RefsAt(pre.brokers, c), pre.triggers, l)
    requires RefsPruned(RefsAt(pre.brokers, c), refs, l.brokers)
    requires binding == if c in pre.brokers then pre.brokers[c].binding else b
    requires EntriesPruned(pre.triggers, now, ReadyNames(RefsAt(pre.brokers, c), l), b, l.triggers)
    ensures c in pre.brokers
    ensures PassOutcome(pre, [c], b, l, Cache(pre.kmesh, pre.brokers[c := Entry(refs, binding)], now), None)
  {
    OneClass(pre, c, l);
    PartialOne(pre.brokers, c, refs, b, l.brokers);
  }

  lemma OneClass(pre: Cache, c: string, l: Listers)
    ensures Elements([c]) == {c}
    ensures ReadyKeys(pre, [c], l) == ReadyNames(RefsAt(pre.brokers, c), l)
    ensures PassFails(pre, [c], l) == ClassFails(pre, c, l)
    ensures ClassBags(pre, [c], l) == [ClassBag(pre, c, l)]
  {
    assert c in [c];
  }

  /** Look up the entry of one class, or make one, and range over its brokers. */
  method VisitClass(m: map<string, Tracked>, ghost maps: set<RefMap?>, triggers: map<string, Tracked>,
                    ghost triggerMaps: set<RefMap?>, ghost pre: Cache, c: string, b: BrokerBinding, l: Listers)
    returns (cache: Tracked, ingresses: Option<seq<Ingress>>, after: map<string, Tracked>,
             ghost afterMaps: set<RefMap?>, ghost post: Cache)
    requires Denotes(m, maps, pre.brokers) && Denotes(triggers, triggerMaps, pre.triggers) && maps !! triggerMaps
    modifies maps, triggerMaps
    ensures cache.refs != null && (cache.refs in maps || fresh(cache.refs))
    ensures ingresses.None? ==> c in m && m[c] == cache && cache.refs in maps
    ensures Denotes(m[c := cache], maps + {cache.refs}, post.brokers) && Denotes(after, afterMaps, post.triggers)
    ensures maps + {cache.refs} !! afterMaps && (forall r :: r in afterMaps && r !in triggerMaps ==> fresh(r))
    ensures post.kmesh == pre.kmesh && PassOutcome(pre, [c], b, l, post, ingresses)
  {
    hide PassOutcome, Ranged, EntriesPruned, RefsPruned, SomeBrokerFails, Prune;
    cache := LookupOrNew(m, c, b);
    ghost var binding := cache.binding.value;
    assert cache.refs.refs == RefsAt(pre.brokers, c)
        && binding == if c in pre.brokers then pre.brokers[c].binding else b;
    hide RefsAt;
    ghost var now;
    ingresses, after, afterMaps, now := CollectIngresses(cache.refs, triggers, triggerMaps, pre.triggers, b, l);
    StoreEntry(pre.brokers, m, maps, c, cache);
    hide Denotes;
    ghost var refs := cache.refs.refs;
    post := Cache(pre.kmesh, pre.brokers[c := Entry(refs, binding)], now);
    if ingresses.None? {
      ClassStopped(pre, c, refs, binding, now, b, l);
    } else {
      ClassDone(pre, c, refs, binding, now, ingresses.value, b, l);
    }
  }

  datatype Reconciled = NilKMesh | Failed | Published(classes: seq<string>, ingresses: seq<Ingress>)

  class Reconciler {
    var kmeshCache: map<UID, seq<string>>
    var trackedBrokers: map<string, Tracked>
    var trackedTriggers: map<string, Tracked>

    ghost var brokerMaps: set<RefMap?>
    ghost var triggerMaps: set<RefMap?>

    /** Every stored entry has a map and a binding, and no two entries share a map. */
    ghost predicate Valid()
      reads this
    {
      && Sound(trackedBrokers, brokerMaps) && Sound(trackedTriggers, triggerMaps)
      && brokerMaps !! triggerMaps
    }

    ghost function Abs(): Cache
      requires Valid()
      reads this, brokerMaps, triggerMaps
    {
      Cache(kmeshCache, Entries(trackedBrokers, brokerMaps), Entries(trackedTriggers, triggerMaps))
    }

    /** The caches stand at `s`. */
    ghost predicate Holds(s: Cache)
      reads this, brokerMaps, triggerMaps
    {
      && kmeshCache == s.kmesh
      && Denotes(trackedBrokers, brokerMaps, s.brokers) && Denotes(trackedTriggers, triggerMaps, s.triggers)
      && brokerMaps !! triggerMaps
    }

    lemma HoldsAbs(s: Cache)
      ensures Holds(s) <==> Valid() && Abs() == s
    {
      if Sound(trackedBrokers, brokerMaps) && Sound(trackedTriggers, triggerMaps) {
        DenotesEntries(trackedBrokers, brokerMaps, s.brokers);
        DenotesEntries(trackedTriggers, triggerMaps, s.triggers);
      }
    }

    constructor ()
      ensures Valid() && Abs() == Cache(map[], map[], map[])
    {
      kmeshCache, trackedBrokers, trackedTriggers := map[], map[], map[];
      brokerMaps, triggerMaps := {}, {};
    }

    /** The class merge: the first one keeps the binding's list as it is, a later one sorts the union. */
    method MergeClasses(kmesh: UID, b: BrokerBinding)
      requires Valid()
      modifies this`kmeshCache
      ensures Valid() && Abs() == old(Abs()).(kmesh := Merge(old(kmeshCache), kmesh, b.classes))
    {
      hide SortedUnion, Sound, Entries;
      if kmesh !in kmeshCache {
        kmeshCache := kmeshCache[kmesh := b.classes];
      } else {
        kmeshCache := kmeshCache[kmesh := SortedUnion(kmeshCache[kmesh], b.classes)];
      }
    }

    /** The part of a pass that handles one class. */
    method ReconcileClass(c: string, b: BrokerBinding, l: Listers, ghost pre: Cache)
      returns (ingresses: Option<seq<Ingress>>, ghost post: Cache)
      requires Holds(pre)
      modifies this`trackedBrokers, this`trackedTriggers, this`brokerMaps, this`triggerMaps, brokerMaps, triggerMaps
      ensures Holds(post)
      ensures forall r :: r in brokerMaps && r !in old(brokerMaps) ==> fresh(r)
      ensures forall r :: r in triggerMaps && r !in old(triggerMaps) ==> fresh(r)
      ensures PassOutcome(pre, [c], b, l, post, ingresses)
    {
      hide PassOutcome, Denotes;
      var bindingCache;
      bindingCache, ingresses, trackedTriggers, triggerMaps, post :=
        VisitClass(trackedBrokers, brokerMaps, trackedTriggers, triggerMaps, pre, c, b, l);
      if ingresses.Some? {
        trackedBrokers, brokerMaps := trackedBrokers[c := bindingCache], brokerMaps + {bindingCache.refs};
      } else {
        Restored(trackedBrokers, c, bindingCache, brokerMaps);
      }
    }

    /** The ingress pass of one reconcile. */
    method ReconcileIngresses(kmesh: UID, b: BrokerBinding, l: Listers) returns (ingresses: Option<seq<Ingress>>)
      requires Valid()
      modifies this`trackedBrokers, this`trackedTriggers, this`brokerMaps, this`triggerMaps, brokerMaps, triggerMaps
      ensures Valid()
      ensures PassOutcome(old(Abs()), ClassesOf(old(Abs()), kmesh), b, l, Abs(), ingresses)
    {
      hide PassOutcome;
      ghost var pre := Abs();
      ghost var now := pre;
      HoldsAbs(pre);
      var classes := if kmesh in kmeshCache then kmeshCache[kmesh] else [];
      ingresses := Some([]);
      PassEmpty(pre, b, l);
      var i := 0;
      while i < |classes| && ingresses.Some?
        invariant 0 <= i <= |classes|
        invariant Holds(now)
        invariant forall r :: r in brokerMaps && r !in old(brokerMaps) ==> fresh(r)
        invariant forall r :: r in triggerMaps && r !in old(triggerMaps) ==> fresh(r)
        invariant PassOutcome(pre, classes[..i], b, l, now, ingresses)
      {
        var more;
        ghost var before := now;
        more, now := ReconcileClass(classes[i], b, l, now);
        PassCompose(pre, classes[..i], before, ingresses.value, classes[i], now, more, b, l);
        assert classes[..i] + [classes[i]] == classes[..i + 1];
        ingresses := if more.None? then None else Some(ingresses.value + more.value);
        i := i + 1;
      }
      if ingresses.None? {
        FailureExtends(pre, classes[..i], classes[i..], b, l, now);
      }
      assert classes[..i] + classes[i..] == classes && (i == |classes| ==> classes[..i] == classes);
      HoldsAbs(now);
      assert PassOutcome(pre, classes, b, l, now, ingresses);
    }

    /** The unlocked read of the class list that is published. */
    method PublishedClasses(kmesh: UID) returns (classes: seq<string>)
      requires Valid()
      ensures classes == ClassesOf(Abs(), kmesh)
    {
      classes := if kmesh in kmeshCache then kmeshCache[kmesh] else [];
    }

    /**
     * One reconcile with nothing in between: find the KMesh, merge, pass, and hand over what is published.
     * `kmesh` is the lister's answer for the KMesh that the spec names; a spec that names none panics before anything
     * is touched.
     */
    method ReconcileKMesh(b: BrokerBinding, kmesh: Option<Reply<UID>>, l: Listers) returns (r: Reconciled)
      requires Valid()
      modifies this, brokerMaps, triggerMaps
      ensures Valid()
      ensures r.NilKMesh? <==> kmesh.None?
      ensures kmesh.None? || !kmesh.value.Found? ==> !r.Published? && Abs() == old(Abs())
      ensures kmesh.Some? && kmesh.value.Found? ==>
                var k := kmesh.value.found;
                var merged := old(Abs()).(kmesh := Merge(old(kmeshCache), k, b.classes));
                && PassOutcome(merged, ClassesOf(merged, k), b, l, Abs(),
                               if r.Published? then Some(r.ingresses) else None)
                && (r.Published? ==> r.classes == ClassesOf(merged, k))
    {
      if kmesh.None? {
        return NilKMesh;
      }
      if !kmesh.value.Found? {
        return Failed;
      }
      var k := kmesh.value.found;
      MergeClasses(k, b);
      ghost var merged := Abs();
      var ingresses := ReconcileIngresses(k, b, l);
      if ingresses.None? {
        return Failed;
      }
      OutcomeIsPartial(merged, ClassesOf(merged, k), b, l, Abs(), ingresses);
      hide PassOutcome;
      var classes := PublishedClasses(k);
      r := Published(classes, ingresses.value);
    }

    /** The broker informer's filter. */
    method FilterBroker(ev: BrokerEvent) returns (ok: bool)
      requires Valid()
      ensures ok == AcceptsBroker(Abs(), ev)
      ensures ok <==> ev.class_.Some? && ev.class_.value != "" && ev.class_.value in trackedBrokers
    {
      ok := ev.class_.Some? && ev.class_.value != "" && ev.class_.value in trackedBrokers;
    }

    /** The trigger informer's filter. */
    method FilterTrigger(ev: TriggerEvent) returns (ok: bool)
      requires Valid()
      ensures ok == AcceptsTrigger(Abs(), ev)
      ensures ok <==> ev.ref.namespace + "/" + ev.broker in trackedTriggers
    {
      ok := TriggerKey(ev) in trackedTriggers;
    }

    /** The broker handler, run under the lock whether or not the filter's answer still stands. */
    method HandleBroker(ev: BrokerEvent) returns (h: Handled)
      requires Valid()
      modifies brokerMaps
      ensures Valid()
      ensures (h, Abs()) == BrokerHandled(old(Abs()), ev)
      ensures h.Ignored? <==> ev.class_.None? || ev.class_.value == ""
      ensures !h.Ignored? ==> (h.Recorded? <==> ev.class_.value in trackedBrokers)
    {
      ghost var pre := Abs();
      HoldsAbs(pre);
      if ev.class_.None? || ev.class_.value == "" {
        return Ignored;
      }
      var c := ev.class_.value;
      var refs := Lookup(trackedBrokers, c).refs;
      if refs == null {
        return Panicked;
      }
      refs.refs := refs.refs[ev.uid := ev.ref];
      RecordDenotes(trackedBrokers, brokerMaps, pre.brokers, c, ev.uid, ev.ref);
      hide Denotes, Sound, Record;
      HoldsAbs(pre.(brokers := Record(pre.brokers, c, ev.uid, ev.ref)));
      return Recorded;
    }

    /** The trigger handler; `enqueued` is the key of the binding it puts on the work queue. */
    method HandleTrigger(ev: TriggerEvent) returns (h: Handled, enqueued: Option<(string, string)>)
      requires Valid()
      modifies triggerMaps
      ensures Valid()
      ensures (h, Abs()) == TriggerHandled(old(Abs()), ev)
      ensures h.Recorded? <==> ev.ref.namespace + "/" + ev.broker in trackedTriggers
      ensures !h.Recorded? ==> h.Panicked?
      ensures h.Recorded? ==>
                var bb := Abs().triggers[TriggerKey(ev)].binding;
                enqueued == Some((bb.namespace, bb.name))
    {
      ghost var pre := Abs();
      HoldsAbs(pre);
      var key := TriggerKey(ev);
      var refs := Lookup(trackedTriggers, key).refs;
      if refs == null {
        return Panicked, None;
      }
      refs.refs := refs.refs[ev.uid := ev.ref];
      RecordDenotes(trackedTriggers, triggerMaps, pre.triggers, key, ev.uid, ev.ref);
      hide Denotes, Sound;
      HoldsAbs(pre.(triggers := Record(pre.triggers, key, ev.uid, ev.ref)));
      var bb := Lookup(trackedTriggers, key).binding;
      if bb.None? {
        return Panicked, None;
      }
      return Recorded, Some((bb.value.namespace, bb.value.name));
    }
  }
}
