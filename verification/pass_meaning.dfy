/** What a pass and a merge come to, said of the listers' answers and the caches' maps alone. */
module PassMeaning {
  import opened Bags
  import opened Mesh
  import opened PassLaws
  import opened PassLemmas
  import opened PassSpec
  import opened StringLists

  function TrackedAt(m: map<string, Entry>, k: string): Refs {
    if k in m then m[k].refs else map[]
  }

  /** The lister has the broker, and it is ready. */
  ghost predicate BrokerFoundReady(l: Listers, ref: KReference) {
    var k := (ref.namespace, ref.name);
    k in l.brokers && l.brokers[k].Found? && l.brokers[k].found.ready
  }

  ghost predicate TriggerFoundReady(l: Listers, ref: KReference) {
    var k := (ref.namespace, ref.name);
    k in l.triggers && l.triggers[k].Found? && l.triggers[k].found.ready
  }

  /** The egress of a ready trigger: its own name, its subscriber's destination. */
  ghost predicate IsEgressOf(e: Egress, ref: KReference, l: Listers) {
    && TriggerFoundReady(l, ref)
    && e.name == ref.namespace + "/" + ref.name
    && e.destination == l.triggers[(ref.namespace, ref.name)].found.subscriber
  }

  /** One egress for each ready tracked trigger, in the order given, and for nothing else. */
  ghost predicate EgressesListed(egresses: seq<Egress>, refs: Refs, l: Listers, order: seq<UID>) {
    && |order| == |egresses| && (forall i, j :: 0 <= i < j < |order| ==> order[i] != order[j])
    && (forall u :: u in order <==> u in refs && TriggerFoundReady(l, refs[u]))
    && (forall i :: 0 <= i < |order| ==> order[i] in refs && IsEgressOf(egresses[i], refs[order[i]], l))
  }

  /** The ingress of a ready broker: its name, its address, and the egresses tracked under its name. */
  ghost predicate IsIngressOf(i: Ingress, ref: KReference, triggers: map<string, Entry>, l: Listers) {
    && BrokerFoundReady(l, ref)
    && i.name == ref.namespace + "/" + ref.name
    && i.address == l.brokers[(ref.namespace, ref.name)].found.address
    && exists order :: EgressesListed(i.egresses, TrackedAt(triggers, i.name), l, order)
  }

  ghost predicate IngressesListed(ingresses: seq<Ingress>, refs: Refs, triggers: map<string, Entry>, l: Listers,
                                  order: seq<UID>) {
    && |order| == |ingresses| && (forall i, j :: 0 <= i < j < |order| ==> order[i] != order[j])
    && (forall u :: u in order <==> u in refs && BrokerFoundReady(l, refs[u]))
    && (forall i :: 0 <= i < |order| ==> order[i] in refs && IsIngressOf(ingresses[i], refs[order[i]], triggers, l))
  }

  lemma EgressesAreListed(egresses: seq<Egress>, refs: Refs, l: Listers) returns (order: seq<UID>)
    requires multiset(egresses) == Values(ReadyEgresses(refs, l))
    ensures EgressesListed(egresses, refs, l, order)
  {
    order := ValuesOrdered(ReadyEgresses(refs, l), egresses);
  }

  lemma ViewIsIngress(i: Ingress, ref: KReference, triggers: map<string, Entry>, l: Listers)
    requires BrokerReady(l, ref) && View(i) == IngressOf(ref, triggers, l)
    ensures IsIngressOf(i, ref, triggers, l)
  {
    var order := EgressesAreListed(i.egresses, TrackedAt(triggers, i.name), l);
  }

  /** One class's run: one ingress for each of its ready tracked brokers, and for nothing else. */
  lemma RunIsListed(s: Cache, c: string, l: Listers, run: seq<Ingress>) returns (order: seq<UID>)
    requires multiset(Views(run)) == ClassBag(s, c, l)
    ensures IngressesListed(run, TrackedAt(s.brokers, c), s.triggers, l, order)
  {
    hide IngressOf, IsIngressOf, View;
    var refs := TrackedAt(s.brokers, c);
    order := ValuesOrdered(ReadyIngresses(refs, s.triggers, l), Views(run));
    forall i | 0 <= i < |order| ensures IsIngressOf(run[i], refs[order[i]], s.triggers, l) {
      assert Views(run)[i] == View(run[i]);
      ViewIsIngress(run[i], refs[order[i]], s.triggers, l);
    }
  }

  /** From `lo` to `hi` the list is the run of one class. */
  ghost predicate Section(ingresses: seq<Ingress>, lo: nat, hi: nat, s: Cache, c: string, l: Listers) {
    && lo <= hi <= |ingresses|
    && exists order :: IngressesListed(ingresses[lo..hi], TrackedAt(s.brokers, c), s.triggers, l, order)
  }

  /** The cuts fall where one class's run ends and the next one's starts. */
  ghost predicate Sections(ingresses: seq<Ingress>, cuts: seq<nat>, s: Cache, cs: seq<string>, l: Listers) {
    && |cuts| == |cs| + 1 && cuts[0] == 0 && cuts[|cs|] == |ingresses|
    && forall i :: 0 <= i < |cs| ==> Section(ingresses, cuts[i], cuts[i + 1], s, cs[i], l)
  }

  /** A successful pass lists the classes' runs, complete and one after the other. */
  lemma PassLists(pre: Cache, cs: seq<string>, b: BrokerBinding, l: Listers, post: Cache, ingresses: seq<Ingress>)
    returns (cuts: seq<nat>)
    requires PassOutcome(pre, cs, b, l, post, Some(ingresses))
    ensures Sections(ingresses, cuts, pre, cs, l)
  {
    SucceededPass(pre, cs, b, l, post, ingresses);
    var bags := ClassBags(pre, cs, l);
    RealizedLength(ingresses, bags);
    assert |bags| == |cs| && Start(bags, 0) == 0;
    hide PassOutcome, Realizes, Section, Start, ClassBags;
    cuts := seq(|cs| + 1, i requires 0 <= i <= |cs| => Start(bags, i));
    forall i | 0 <= i < |cs| ensures Section(ingresses, cuts[i], cuts[i + 1], pre, cs[i], l) {
      SectionOf(ingresses, pre, cs, l, i);
    }
  }

  lemma SectionOf(ingresses: seq<Ingress>, s: Cache, cs: seq<string>, l: Listers, i: nat)
    requires Realizes(ingresses, ClassBags(s, cs, l)) && i < |cs|
    ensures Section(ingresses, Start(ClassBags(s, cs, l), i), Start(ClassBags(s, cs, l), i + 1), s, cs[i], l)
  {
    hide Realizes, Views, IngressesListed, ClassBag, TrackedAt, Start;
    var bags := ClassBags(s, cs, l);
    RunOfClass(ingresses, bags, i);
    StartMonotone(bags, i + 1, |bags|);
    var order := RunIsListed(s, cs[i], l, ingresses[Start(bags, i)..Start(bags, i + 1)]);
  }

  /** So every listed ingress, with every egress in it, is that of some broker found ready. */
  lemma ListedAreReady(pre: Cache, cs: seq<string>, b: BrokerBinding, l: Listers, post: Cache, ingresses: seq<Ingress>,
                       n: nat)
    returns (c: string, uid: UID)
    requires PassOutcome(pre, cs, b, l, post, Some(ingresses)) && n < |ingresses|
    ensures c in cs && uid in TrackedAt(pre.brokers, c)
    ensures IsIngressOf(ingresses[n], TrackedAt(pre.brokers, c)[uid], pre.triggers, l)
  {
    hide PassOutcome, IngressOf, IsIngressOf;
    var v := View(ingresses[n]);
    assert Listed(ingresses, v);
    ListedExactlyWhenReady(pre, cs, b, l, post, ingresses, v);
    c :| c in cs && ReadyIn(pre, c, l, v);
    var refs := TrackedAt(pre.brokers, c);
    uid :| uid in refs && BrokerReady(l, refs[uid]) && v == IngressOf(refs[uid], pre.triggers, l);
    ViewIsIngress(ingresses[n], refs[uid], pre.triggers, l);
  }

  /** A lookup the pass cannot get past: neither an object nor NotFound came back. */
  ghost predicate Broken<T>(lister: map<(string, string), Reply<T>>, ref: KReference) {
    (ref.namespace, ref.name) in lister && lister[(ref.namespace, ref.name)] == OtherError
  }

  /** An error exactly if the lookup of a tracked broker of a visited class, or of a ready one's trigger, is broken. */
  lemma PassVerdict(pre: Cache, cs: seq<string>, b: BrokerBinding, l: Listers, post: Cache,
                    result: Option<seq<Ingress>>)
    requires PassOutcome(pre, cs, b, l, post, result)
    ensures result.None? <==>
              exists c, uid :: c in cs && uid in TrackedAt(pre.brokers, c)
                               && StopsAt(pre, TrackedAt(pre.brokers, c)[uid], l)
  {
    assert result.None? <==> PassFails(pre, cs, l);
    hide PassOutcome, StopsAt, BrokerFails;
    forall ref ensures StopsAt(pre, ref, l) <==> BrokerFails(pre.triggers, l, ref) {
      StopsExactly(pre, ref, l);
    }
    if c, uid :| c in cs && uid in TrackedAt(pre.brokers, c) && StopsAt(pre, TrackedAt(pre.brokers, c)[uid], l) {
      assert uid in RefsAt(pre.brokers, c);
      assert ClassFails(pre, c, l);
    }
    if PassFails(pre, cs, l) {
      var c :| c in cs && ClassFails(pre, c, l);
      var uid :| uid in RefsAt(pre.brokers, c) && BrokerFails(pre.triggers, l, RefsAt(pre.brokers, c)[uid]);
      assert uid in TrackedAt(pre.brokers, c);
    }
  }

  ghost predicate StopsAt(s: Cache, ref: KReference, l: Listers) {
    || Broken(l.brokers, ref)
    || (BrokerFoundReady(l, ref)
        && exists t :: t in TrackedAt(s.triggers, ref.namespace + "/" + ref.name)
                       && Broken(l.triggers, TrackedAt(s.triggers, ref.namespace + "/" + ref.name)[t]))
  }

  lemma StopsExactly(s: Cache, ref: KReference, l: Listers)
    ensures StopsAt(s, ref, l) <==> BrokerFails(s.triggers, l, ref)
  {
    var refs := TrackedAt(s.triggers, KeyOf(ref));
    assert forall t :: t in refs ==> (Broken(l.triggers, refs[t]) <==> Get(l.triggers, refs[t]).OtherError?);
  }

  /** The lister holds no such object. */
  ghost predicate Unknown<T>(lister: map<(string, string), Reply<T>>, ref: KReference) {
    (ref.namespace, ref.name) in lister ==> lister[(ref.namespace, ref.name)] == NotFound
  }

  /** Some visited class has a tracked broker of this name that is found ready. */
  ghost predicate NamedReady(s: Cache, cs: seq<string>, l: Listers, key: string) {
    exists c, uid :: c in cs && uid in TrackedAt(s.brokers, c)
                     && NamesReady(TrackedAt(s.brokers, c)[uid], l, key)
  }

  ghost predicate NamesReady(ref: KReference, l: Listers, key: string) {
    BrokerFoundReady(l, ref) && ref.namespace + "/" + ref.name == key
  }

  lemma NamedExactly(s: Cache, cs: seq<string>, l: Listers, key: string)
    ensures NamedReady(s, cs, l, key) <==> key in ReadyKeys(s, cs, l)
  {
    if c, uid :| c in cs && uid in TrackedAt(s.brokers, c) && NamesReady(TrackedAt(s.brokers, c)[uid], l, key) {
      assert key in ReadyNames(RefsAt(s.brokers, c), l);
    }
    if key in ReadyKeys(s, cs, l) {
      var c :| c in cs && key in ReadyNames(RefsAt(s.brokers, c), l);
      var refs := TrackedAt(s.brokers, c);
      var uid :| uid in refs && BrokerReady(l, refs[uid]) && KeyOf(refs[uid]) == key;
      assert NamesReady(refs[uid], l, key);
    }
  }

  /** An entry a pass may touch: kept with its binding, its refs the old ones less at most the unknown ones. */
  ghost predicate Thinned<T>(pre: Entry, post: Entry, lister: map<(string, string), Reply<T>>) {
    && post.binding == pre.binding
    && (forall u :: u in post.refs ==> u in pre.refs && post.refs[u] == pre.refs[u])
    && (forall u :: u in pre.refs && u !in post.refs ==> Unknown(lister, pre.refs[u]))
  }

  /** All the unknown ones. */
  ghost predicate Cleared<T>(pre: Entry, post: Entry, lister: map<(string, string), Reply<T>>) {
    Thinned(pre, post, lister) && forall u :: u in post.refs ==> !Unknown(lister, post.refs[u])
  }

  /** However a pass ends, untouched entries are as before, others thinned, and new ones empty and the pass's own. */
  lemma PassTouches(pre: Cache, cs: seq<string>, b: BrokerBinding, l: Listers, post: Cache,
                    result: Option<seq<Ingress>>)
    requires PassOutcome(pre, cs, b, l, post, result)
    ensures post.kmesh == pre.kmesh
    ensures forall c :: c in pre.brokers ==> c in post.brokers && Thinned(pre.brokers[c], post.brokers[c], l.brokers)
    ensures forall c :: c in pre.brokers && c !in cs ==> post.brokers[c] == pre.brokers[c]
    ensures forall c :: c in post.brokers && c !in pre.brokers ==> c in cs && post.brokers[c] == Entry(map[], b)
    ensures forall k :: k in pre.triggers ==>
              k in post.triggers && Thinned(pre.triggers[k], post.triggers[k], l.triggers)
    ensures forall k :: k in pre.triggers && !NamedReady(pre, cs, l, k) ==> post.triggers[k] == pre.triggers[k]
    ensures forall k :: k in post.triggers && k !in pre.triggers ==>
              NamedReady(pre, cs, l, k) && post.triggers[k] == Entry(map[], b)
  {
    OutcomeIsPartial(pre, cs, b, l, post, result);
    hide PassOutcome, NamedReady, ReadyKeys;
    forall k ensures NamedReady(pre, cs, l, k) <==> k in ReadyKeys(pre, cs, l) {
      NamedExactly(pre, cs, l, k);
    }
    TouchedEntries(pre.brokers, post.brokers, Elements(cs), b, l.brokers);
    TouchedEntries(pre.triggers, post.triggers, ReadyKeys(pre, cs, l), b, l.triggers);
  }

  lemma TouchedEntries<T>(pre: map<string, Entry>, post: map<string, Entry>, touched: set<string>, b: BrokerBinding,
                          lister: map<(string, string), Reply<T>>)
    requires EntriesPruned(pre, post, touched, b, lister)
    ensures forall k :: k in pre ==> k in post && Thinned(pre[k], post[k], lister)
    ensures forall k :: k in pre && k !in touched ==> post[k] == pre[k]
    ensures forall k :: k in post && k !in pre ==> k in touched && post[k] == Entry(map[], b)
  {
    forall k | k in pre ensures k in post && Thinned(pre[k], post[k], lister) {
      assert RefsPruned(pre[k].refs, post[k].refs, lister);
    }
  }

  /** A successful pass leaves an entry for every class and every ready broker's name, cleared of unknown refs. */
  lemma PassClears(pre: Cache, cs: seq<string>, b: BrokerBinding, l: Listers, post: Cache, ingresses: seq<Ingress>)
    requires PassOutcome(pre, cs, b, l, post, Some(ingresses))
    ensures forall c :: c in cs ==> c in post.brokers
    ensures forall c :: c in cs && c in pre.brokers ==> Cleared(pre.brokers[c], post.brokers[c], l.brokers)
    ensures forall k :: NamedReady(pre, cs, l, k) ==> k in post.triggers
    ensures forall k :: NamedReady(pre, cs, l, k) && k in pre.triggers ==>
              Cleared(pre.triggers[k], post.triggers[k], l.triggers)
  {
    SucceededPass(pre, cs, b, l, post, ingresses);
    hide PassOutcome, NamedReady, ReadyKeys, Realizes, PruneAt, Cleared;
    forall k ensures NamedReady(pre, cs, l, k) <==> k in ReadyKeys(pre, cs, l) {
      NamedExactly(pre, cs, l, k);
    }
    ClearedEntries(pre.brokers, Elements(cs), b, l.brokers);
    ClearedEntries(pre.triggers, ReadyKeys(pre, cs, l), b, l.triggers);
    assert forall c :: c in cs ==> c in Elements(cs);
  }

  lemma ClearedEntries<T>(m: map<string, Entry>, keys: set<string>, b: BrokerBinding,
                          lister: map<(string, string), Reply<T>>)
    ensures forall k :: k in keys ==> k in PruneAt(m, keys, b, lister)
    ensures forall k :: k in keys && k in m ==> Cleared(m[k], PruneAt(m, keys, b, lister)[k], lister)
  {
  }

  /** A merge: the first list as it is, later ones the sorted union, other KMeshes untouched. */
  lemma MergeExactly(kmesh: map<UID, seq<string>>, k: UID, classes: seq<string>)
    ensures Merge(kmesh, k, classes).Keys == kmesh.Keys + {k}
    ensures forall j :: j in kmesh && j != k ==> Merge(kmesh, k, classes)[j] == kmesh[j]
    ensures k !in kmesh ==> Merge(kmesh, k, classes)[k] == classes
    ensures k in kmesh ==>
              var r := Merge(kmesh, k, classes)[k];
              && (forall x :: x in r <==> x in kmesh[k] || x in classes)
              && (forall i, j :: 0 <= i < j < |r| ==> Precedes(r[i], r[j]))
  {
    if k in kmesh {
      SortedUnionExactly(kmesh[k], classes, SortedUnion(kmesh[k], classes));
    }
  }
}
