/** Passes compose: pruning never hides a ready ref, so each class may be read against the caches before the pass. */
module PassLemmas {
  import opened Mesh
  import opened PassSpec
  import opened StringLists

  /** A ref a pass may drop is one the lister does not find. */
  lemma PrunedReadyEgresses(pre: Refs, post: Refs, l: Listers)
    requires RefsPruned(pre, post, l.triggers)
    ensures ReadyEgresses(post, l) == ReadyEgresses(pre, l)
    ensures SomeTriggerFails(post, l) == SomeTriggerFails(pre, l)
  {
    if u :| u in pre && Get(l.triggers, pre[u]).OtherError? {
      assert u in post;
    }
  }

  lemma PartialTriggers(pre: Cache, post: Cache, cs: seq<string>, b: BrokerBinding, l: Listers, key: string)
    requires PartialPass(pre, post, cs, b, l)
    ensures ReadyEgresses(RefsAt(post.triggers, key), l) == ReadyEgresses(RefsAt(pre.triggers, key), l)
    ensures SomeTriggerFails(RefsAt(post.triggers, key), l) == SomeTriggerFails(RefsAt(pre.triggers, key), l)
  {
    PrunedReadyEgresses(RefsAt(pre.triggers, key), RefsAt(post.triggers, key), l);
  }

  lemma PrunedReadyNames(pre: Refs, post: Refs, l: Listers)
    requires RefsPruned(pre, post, l.brokers)
    ensures ReadyNames(post, l) == ReadyNames(pre, l)
  {
    forall u | u in pre && BrokerReady(l, pre[u]) ensures KeyOf(pre[u]) in ReadyNames(post, l) {
      assert u in post;
    }
  }

  lemma PartialReadyIngresses(pre: Cache, post: Cache, cs: seq<string>, b: BrokerBinding, l: Listers, p: Refs, q: Refs)
    requires PartialPass(pre, post, cs, b, l) && RefsPruned(p, q, l.brokers)
    ensures ReadyIngresses(q, post.triggers, l) == ReadyIngresses(p, pre.triggers, l)
  {
    hide PartialPass, RefsAt, ReadyEgresses;
    var before, after := ReadyIngresses(p, pre.triggers, l), ReadyIngresses(q, post.triggers, l);
    forall u | u in p && BrokerReady(l, p[u]) ensures u in after && after[u] == before[u] {
      assert u in q;
      PartialTriggers(pre, post, cs, b, l, KeyOf(p[u]));
    }
    assert after.Keys == before.Keys;
  }

  lemma PartialBrokerFails(pre: Cache, post: Cache, cs: seq<string>, b: BrokerBinding, l: Listers, c: string)
    requires PartialPass(pre, post, cs, b, l)
    ensures ClassFails(post, c, l) == ClassFails(pre, c, l)
  {
    var p, q := RefsAt(pre.brokers, c), RefsAt(post.brokers, c);
    assert RefsPruned(p, q, l.brokers);
    if u :| u in p && BrokerFails(pre.triggers, l, p[u]) {
      PartialTriggers(pre, post, cs, b, l, KeyOf(p[u]));
      assert u in q && BrokerFails(post.triggers, l, q[u]);
    }
    if u :| u in q && BrokerFails(post.triggers, l, q[u]) {
      PartialTriggers(pre, post, cs, b, l, KeyOf(p[u]));
      assert u in p && BrokerFails(pre.triggers, l, p[u]);
    }
  }

  /** What a pass reports of a class does not depend on which parts of an earlier pass already happened. */
  lemma PartialKeepsClass(pre: Cache, post: Cache, cs: seq<string>, b: BrokerBinding, l: Listers, c: string)
    requires PartialPass(pre, post, cs, b, l)
    ensures ReadyNames(RefsAt(post.brokers, c), l) == ReadyNames(RefsAt(pre.brokers, c), l)
    ensures ClassBag(post, c, l) == ClassBag(pre, c, l)
    ensures ClassFails(post, c, l) == ClassFails(pre, c, l)
  {
    var p, q := RefsAt(pre.brokers, c), RefsAt(post.brokers, c);
    assert RefsPruned(p, q, l.brokers);
    PrunedReadyNames(p, q, l);
    PartialReadyIngresses(pre, post, cs, b, l, p, q);
    PartialBrokerFails(pre, post, cs, b, l, c);
  }

  lemma PartialKeepsKeys(pre: Cache, post: Cache, cs: seq<string>, b: BrokerBinding, l: Listers, ds: seq<string>)
    requires PartialPass(pre, post, cs, b, l)
    ensures ReadyKeys(post, ds, l) == ReadyKeys(pre, ds, l)
  {
    forall c | c in ds {
      PartialKeepsClass(pre, post, cs, b, l, c);
    }
  }

  lemma EntriesPrunedTransitive<T>(m0: map<string, Entry>, m1: map<string, Entry>, m2: map<string, Entry>,
                                   t1: set<string>, t2: set<string>, b: BrokerBinding,
                                   lister: map<(string, string), Reply<T>>)
    requires EntriesPruned(m0, m1, t1, b, lister)
    requires EntriesPruned(m1, m2, t2, b, lister)
    ensures EntriesPruned(m0, m2, t1 + t2, b, lister)
  {
    forall k | k in m0 ensures RefsPruned(m0[k].refs, m2[k].refs, lister) {
      assert RefsPruned(m0[k].refs, m1[k].refs, lister);
      assert RefsPruned(m1[k].refs, m2[k].refs, lister);
    }
    forall k | k in m2 && k !in m0 ensures m2[k] == Entry(map[], b) {
      if k in m1 {
        assert m1[k] == Entry(map[], b);
        assert m2[k].binding == b && RefsPruned(map[], m2[k].refs, lister);
        assert m2[k].refs == map[];
      }
    }
  }

  lemma PartialTransitive(s0: Cache, s1: Cache, s2: Cache, cs: seq<string>, ds: seq<string>, b: BrokerBinding,
                          l: Listers)
    requires PartialPass(s0, s1, cs, b, l)
    requires PartialPass(s1, s2, ds, b, l)
    ensures PartialPass(s0, s2, cs + ds, b, l)
  {
    hide EntriesPruned, ReadyNames;
    PartialKeepsKeys(s0, s1, cs, b, l, ds);
    assert Elements(cs + ds) == Elements(cs) + Elements(ds);
    assert ReadyKeys(s0, cs + ds, l) == ReadyKeys(s0, cs, l) + ReadyKeys(s0, ds, l);
    EntriesPrunedTransitive(s0.brokers, s1.brokers, s2.brokers, Elements(cs), Elements(ds), b, l.brokers);
    EntriesPrunedTransitive(s0.triggers, s1.triggers, s2.triggers, ReadyKeys(s0, cs, l), ReadyKeys(s0, ds, l),
                            b, l.triggers);
  }

  lemma PruneAtIsPruned<T>(m: map<string, Entry>, keys: set<string>, b: BrokerBinding,
                           lister: map<(string, string), Reply<T>>)
    ensures EntriesPruned(m, PruneAt(m, keys, b, lister), keys, b, lister)
  {
  }

  /** A successful pass is one of the passes `PartialPass` allows. */
  lemma AfterIsPartial(s: Cache, cs: seq<string>, b: BrokerBinding, l: Listers)
    ensures PartialPass(s, AfterPass(s, cs, b, l), cs, b, l)
  {
    PruneAtIsPruned(s.brokers, Elements(cs), b, l.brokers);
    PruneAtIsPruned(s.triggers, ReadyKeys(s, cs, l), b, l.triggers);
  }

  lemma PruneAtTwice<T>(m: map<string, Entry>, k1: set<string>, k2: set<string>, b: BrokerBinding,
                        lister: map<(string, string), Reply<T>>)
    ensures PruneAt(PruneAt(m, k1, b, lister), k2, b, lister) == PruneAt(m, k1 + k2, b, lister)
  {
    var once := PruneAt(m, k1, b, lister);
    var twice := PruneAt(once, k2, b, lister);
    var both := PruneAt(m, k1 + k2, b, lister);
    forall k | k in both ensures k in twice && twice[k] == both[k] {
      if k in m {
        assert Prune(Prune(m[k].refs, lister), lister) == Prune(m[k].refs, lister);
      } else {
        var none: Refs := map[];
        assert Prune(none, lister) == none;
      }
    }
    assert twice.Keys == both.Keys;
  }

  lemma AfterPassCompose(s: Cache, cs: seq<string>, ds: seq<string>, b: BrokerBinding, l: Listers)
    ensures AfterPass(AfterPass(s, cs, b, l), ds, b, l) == AfterPass(s, cs + ds, b, l)
  {
    AfterIsPartial(s, cs, b, l);
    PartialKeepsKeys(s, AfterPass(s, cs, b, l), cs, b, l, ds);
    assert Elements(cs + ds) == Elements(cs) + Elements(ds);
    assert ReadyKeys(s, cs + ds, l) == ReadyKeys(s, cs, l) + ReadyKeys(s, ds, l);
    PruneAtTwice(s.brokers, Elements(cs), Elements(ds), b, l.brokers);
    PruneAtTwice(s.triggers, ReadyKeys(s, cs, l), ReadyKeys(s, ds, l), b, l.triggers);
  }

  lemma RealizesAppend(ingresses: seq<Ingress>, bags: seq<multiset<IngressView>>, more: seq<Ingress>,
                       bag: multiset<IngressView>)
    requires Realizes(ingresses, bags)
    requires multiset(Views(more)) == bag
    ensures Realizes(ingresses + more, bags + [bag])
  {
    var all, allBags := ingresses + more, bags + [bag];
    assert |bag| == |Views(more)| == |more|;
    var n := |all| - |bag|;
    assert all[n..] == more && all[..n] == ingresses;
    assert allBags[..|allBags| - 1] == bags;
  }

  /** The whole pass from its classes: what the loop over the class list rests on. */
  lemma PassCompose(s0: Cache, cs: seq<string>, s1: Cache, ingresses: seq<Ingress>, c: string,
                    s2: Cache, more: Option<seq<Ingress>>, b: BrokerBinding, l: Listers)
    requires PassOutcome(s0, cs, b, l, s1, Some(ingresses))
    requires PassOutcome(s1, [c], b, l, s2, more)
    ensures PassOutcome(s0, cs + [c], b, l, s2, if more.None? then None else Some(ingresses + more.value))
  {
    hide Realizes, ClassBag, ClassFails, EntriesPruned, PruneAt, ReadyKeys;
    AfterIsPartial(s0, cs, b, l);
    PartialKeepsClass(s0, s1, cs, b, l, c);
    PassFailsAppend(s0, s1, cs, c, l);
    if more.None? {
      PartialTransitive(s0, s1, s2, cs, [c], b, l);
    } else {
      AfterPassCompose(s0, cs, [c], b, l);
      assert ClassBags(s1, [c], l) == [ClassBag(s0, c, l)];
      assert ClassBags(s0, cs + [c], l) == ClassBags(s0, cs, l) + [ClassBag(s0, c, l)];
      RealizesOne(more.value, ClassBag(s0, c, l));
      RealizesAppend(ingresses, ClassBags(s0, cs, l), more.value, ClassBag(s0, c, l));
    }
  }

  lemma PassFailsAppend(s0: Cache, s1: Cache, cs: seq<string>, c: string, l: Listers)
    requires ClassFails(s1, c, l) == ClassFails(s0, c, l)
    ensures PassFails(s0, cs + [c], l) == (PassFails(s0, cs, l) || PassFails(s1, [c], l))
  {
    assert c in [c];
    assert forall d :: d in cs + [c] <==> d in cs || d == c;
  }

  lemma RealizesOne(ingresses: seq<Ingress>, bag: multiset<IngressView>)
    ensures Realizes(ingresses, [bag]) <==> multiset(Views(ingresses)) == bag
  {
    var bags := [bag];
    assert bags[..0] == [];
    assert |multiset(Views(ingresses))| == |ingresses|;
    if multiset(Views(ingresses)) == bag {
      assert ingresses[0..] == ingresses && ingresses[..0] == [];
    }
    if Realizes(ingresses, bags) {
      var n := |ingresses| - |bag|;
      assert Realizes(ingresses[..n], bags[..0]);
      assert ingresses[..n] == [];
      assert ingresses[n..] == ingresses;
    }
  }

  /** A pass that stopped early has still done nothing beyond what the whole class list allows. */
  lemma FailureExtends(s0: Cache, cs: seq<string>, ds: seq<string>, b: BrokerBinding, l: Listers, s1: Cache)
    requires PassOutcome(s0, cs, b, l, s1, None)
    ensures PassOutcome(s0, cs + ds, b, l, s1, None)
  {
    var c :| c in cs && ClassFails(s0, c, l);
    assert c in cs + ds;
    assert Elements(cs) <= Elements(cs + ds);
    assert ReadyKeys(s0, cs, l) <= ReadyKeys(s0, cs + ds, l);
  }

  /** Nothing visited, nothing done. */
  lemma PassEmpty(s: Cache, b: BrokerBinding, l: Listers)
    ensures PassOutcome(s, [], b, l, s, Some([]))
  {
    assert ReadyKeys(s, [], l) == {};
    assert PruneAt(s.brokers, {}, b, l.brokers) == s.brokers;
    assert PruneAt(s.triggers, {}, b, l.triggers) == s.triggers;
  }

  /** A pass, successful or not, stays within `PartialPass`. */
  lemma OutcomeIsPartial(pre: Cache, cs: seq<string>, b: BrokerBinding, l: Listers, post: Cache,
                         result: Option<seq<Ingress>>)
    requires PassOutcome(pre, cs, b, l, post, result)
    ensures PartialPass(pre, post, cs, b, l)
  {
    AfterIsPartial(pre, cs, b, l);
  }

  lemma SucceededPass(pre: Cache, cs: seq<string>, b: BrokerBinding, l: Listers, post: Cache, ingresses: seq<Ingress>)
    requires PassOutcome(pre, cs, b, l, post, Some(ingresses))
    ensures post == AfterPass(pre, cs, b, l) && Realizes(ingresses, ClassBags(pre, cs, l))
  {
  }
}
