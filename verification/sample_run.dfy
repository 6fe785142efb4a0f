/** Runs worked through: names listed twice, a trigger published and lost, a broker recorded and lost. */
module SampleRun {
  import opened Events
  import opened Histories
  import opened Interleavings
  import opened Mesh
  import opened NameLaws
  import opened PassLaws
  import opened PassLemmas
  import opened PassSpec
  import opened StringLists

  /** Listers that know nothing. */
  const EMPTY := Listers(map[], map[])

  ghost predicate NoErrors(l: Listers) {
    && (forall k :: k in l.brokers ==> !l.brokers[k].OtherError?)
    && (forall k :: k in l.triggers ==> !l.triggers[k].OtherError?)
  }

  function Merged(s: Cache, b: BrokerBinding, k: UID): Cache {
    s.(kmesh := Merge(s.kmesh, k, b.classes))
  }

  lemma Extend(run: seq<Action>, a: Action)
    requires Run(run) && Enabled(State(run), a)
    ensures Run(run + [a]) && State(run + [a]) == Apply(State(run), a)
  {
    assert Before(run + [a]) == run && Last(run + [a]) == a;
  }

  /** An event let through by its filter and handled at once. */
  lemma Handled(run: seq<Action>, ev: Event) returns (after: seq<Action>)
    requires Run(run) && Accepts(State(run).cache, ev)
    ensures after == run + [Filter(ev), Handle(ev)] && Run(after)
    ensures State(after).workers == State(run).workers && State(after).cache == Handling(State(run).cache, ev).1
  {
    hide Run, State, Handling, Accepts;
    NeverCrashes(run);
    Extend(run, Filter(ev));
    Extend(run + [Filter(ev)], Handle(ev));
    after := run + [Filter(ev)] + [Handle(ev)];
  }

  lemma PassListed(m: Cache, cs: seq<string>, b: BrokerBinding, l: Listers)
    returns (post: Cache, ingresses: seq<Ingress>)
    requires NoErrors(l)
    ensures PassOutcome(m, cs, b, l, post, Some(ingresses)) && post.kmesh == m.kmesh
  {
    assert !PassFails(m, cs, l);
    hide PassFails;
    var result;
    post, result := PassPossible(m, cs, b, l);
    ingresses := result.value;
    OutcomeIsPartial(m, cs, b, l, post, result);
  }

  /** A whole reconcile, from its lookup to what it publishes. */
  lemma Reconciled(run: seq<Action>, b: BrokerBinding, k: UID, l: Listers)
    returns (after: seq<Action>, ingresses: seq<Ingress>)
    requires Run(run) && 0 !in State(run).workers && NoErrors(l)
    ensures |after| == |run| + 4 && after[..|run|] == run && Run(after)
    ensures State(after).workers == State(run).workers
    ensures var m := Merged(State(run).cache, b, k);
            && PassOutcome(m, ClassesOf(m, k), b, l, State(after).cache, Some(ingresses))
            && after[|run| + 3] == Publish(0, b, k, ClassesOf(m, k), ClassesOf(m, k), ingresses)
  {
    hide Run, State, PassOutcome, Merge, NoErrors;
    NeverCrashes(run);
    var m := Merged(State(run).cache, b, k);
    var used := ClassesOf(m, k);
    var post;
    post, ingresses := PassListed(m, used, b, l);
    assert ClassesOf(post, k) == used;
    hide ClassesOf;
    var begin, merge := Begin(0, b, k), MergeStep(0, b, k);
    var pass := PassStep(0, b, k, used, l, Some(ingresses), post);
    var publish := Publish(0, b, k, used, used, ingresses);
    Extend(run, begin);
    Extend(run + [begin], merge);
    Extend(run + [begin] + [merge], pass);
    Extend(run + [begin] + [merge] + [pass], publish);
    after := run + [begin] + [merge] + [pass] + [publish];
    assert State(after).workers == State(run).workers;
  }

  lemma ClassUsed(s: Cache, b: BrokerBinding, k: UID, c: string)
    requires c in b.classes
    ensures c in ClassesOf(Merged(s, b, k), k)
  {
    assert c in Elements(b.classes);
    assert Elements(b.classes) <= Elements(ClassesOf(Merged(s, b, k), k));
  }

  /** The refs a pass leaves, for a visited class and for the name of one of its ready brokers. */
  lemma RefsLeft(pre: Cache, cs: seq<string>, b: BrokerBinding, l: Listers, post: Cache, ingresses: seq<Ingress>,
                 c: string)
    requires PassOutcome(pre, cs, b, l, post, Some(ingresses)) && c in cs
    ensures c in post.brokers && RefsAt(post.brokers, c) == Prune(RefsAt(pre.brokers, c), l.brokers)
    ensures forall key :: key in ReadyNames(RefsAt(pre.brokers, c), l) ==>
              key in post.triggers && RefsAt(post.triggers, key) == Prune(RefsAt(pre.triggers, key), l.triggers)
  {
    SucceededPass(pre, cs, b, l, post, ingresses);
    hide PassOutcome, Realizes, ReadyNames, PruneAt, Prune, RefsAt;
    PrunedAt(pre.brokers, Elements(cs), b, l.brokers, c);
    forall key | key in ReadyNames(RefsAt(pre.brokers, c), l)
      ensures key in post.triggers && RefsAt(post.triggers, key) == Prune(RefsAt(pre.triggers, key), l.triggers)
    {
      PrunedAt(pre.triggers, ReadyKeys(pre, cs, l), b, l.triggers, key);
    }
  }

  lemma PrunedAt<T>(m: map<string, Entry>, keys: set<string>, b: BrokerBinding, lister: map<(string, string), Reply<T>>,
                    k: string)
    requires k in keys
    ensures k in PruneAt(m, keys, b, lister) && RefsAt(PruneAt(m, keys, b, lister), k) == Prune(RefsAt(m, k), lister)
  {
    var none: Refs := map[];
    assert Prune(none, lister) == none;
  }

  /** Two ready refs of one class with one name, as a broker made anew leaves them, are listed under that name twice. */
  lemma NameListedTwice(pre: Cache, cs: seq<string>, b: BrokerBinding, l: Listers, post: Cache, ingresses: seq<Ingress>,
                        c: string, u: UID, v: UID)
    requires PassOutcome(pre, cs, b, l, post, Some(ingresses)) && c in cs && u != v
    requires u in RefsAt(pre.brokers, c) && BrokerReady(l, RefsAt(pre.brokers, c)[u])
    requires v in RefsAt(pre.brokers, c) && BrokerReady(l, RefsAt(pre.brokers, c)[v])
    requires KeyOf(RefsAt(pre.brokers, c)[u]) == KeyOf(RefsAt(pre.brokers, c)[v])
    ensures !AllDifferent(NamesOf(ingresses))
  {
    NamesDifferent(pre, cs, b, l, post, ingresses);
    hide PassOutcome, AllDifferent;
    assert !NamedApart(RefsAt(pre.brokers, c), l);
  }

  /** A ready trigger under the name of a ready broker shows in some listed ingress of that name. */
  lemma TriggerShows(pre: Cache, cs: seq<string>, b: BrokerBinding, l: Listers, post: Cache, ingresses: seq<Ingress>,
                     c: string, u: UID, t: UID)
    returns (n: nat)
    requires PassOutcome(pre, cs, b, l, post, Some(ingresses)) && c in cs
    requires u in RefsAt(pre.brokers, c) && BrokerReady(l, RefsAt(pre.brokers, c)[u])
    requires t in RefsAt(pre.triggers, KeyOf(RefsAt(pre.brokers, c)[u]))
    requires TriggerReady(l, RefsAt(pre.triggers, KeyOf(RefsAt(pre.brokers, c)[u]))[t])
    ensures n < |ingresses| && ingresses[n].name == KeyOf(RefsAt(pre.brokers, c)[u])
    ensures var ref := RefsAt(pre.triggers, ingresses[n].name)[t];
            Egress(KeyOf(ref), Get(l.triggers, ref).found.subscriber) in ingresses[n].egresses
  {
    hide PassOutcome;
    var v := IngressOf(RefsAt(pre.brokers, c)[u], pre.triggers, l);
    ReadyIsListed(pre, cs, b, l, post, ingresses, c, u);
    n :| 0 <= n < |ingresses| && View(ingresses[n]) == v;
    ReadyTriggerIsListed(pre, cs, b, l, post, ingresses, n, t);
  }

  /** A broker recorded, made anew under its name and recorded again. */
  lemma TwoRefs(b: BrokerBinding, k: UID, c: string, ref: KReference, u: UID, v: UID) returns (run: seq<Action>)
    requires c in b.classes && c != ""
    ensures Run(run) && State(run).workers == map[]
    ensures c in State(run).cache.brokers && RefsAt(State(run).cache.brokers, c) == map[u := ref, v := ref]
    ensures State(run).cache.triggers == map[]
  {
    hide PassOutcome, Merge, ClassesOf;
    var started, none := Reconciled([], b, k, EMPTY);
    ClassUsed(START.cache, b, k, c);
    var m := Merged(START.cache, b, k);
    RefsLeft(m, ClassesOf(m, k), b, EMPTY, State(started).cache, none, c);
    NothingTriggered(b, k, State(started).cache, none);
    hide Run, State;
    var first := Handled(started, OfBroker(BrokerEvent(u, ref, Some(c))));
    assert RefsAt(State(first).cache.brokers, c) == map[u := ref];
    run := Handled(first, OfBroker(BrokerEvent(v, ref, Some(c))));
  }

  lemma NothingTriggered(b: BrokerBinding, k: UID, post: Cache, ingresses: seq<Ingress>)
    requires var m := Merged(START.cache, b, k); PassOutcome(m, ClassesOf(m, k), b, EMPTY, post, Some(ingresses))
    ensures post.triggers == map[]
  {
    var m := Merged(START.cache, b, k);
    SucceededPass(m, ClassesOf(m, k), b, EMPTY, post, ingresses);
    assert ReadyKeys(m, ClassesOf(m, k), EMPTY) == {};
  }

  /** Listers that find one broker and one trigger. */
  function Finding(ref: KReference, broker: Broker, tref: KReference, trigger: Trigger): Listers {
    Listers(map[(ref.namespace, ref.name) := Found(broker)], map[(tref.namespace, tref.name) := Found(trigger)])
  }

  /**
   * For every binding, class and broker there is a run whose published ingresses bear one name twice, whose trigger
   * event is enqueued and published as an egress of that name, and which then loses the trigger to a pass that does
   * not find it.
   */
  lemma PublishedAndLost(b: BrokerBinding, k: UID, c: string, ref: KReference, u: UID, v: UID, broker: Broker,
                         tref: KReference, t: UID, trigger: Trigger)
    returns (run: seq<Action>, h: nat, p: nat, n: nat)
    requires c in b.classes && c != "" && u != v
    requires broker.ready && trigger.ready && tref.namespace == ref.namespace
    ensures Run(run) && h < p < |run|
    ensures run[h] == Handle(OfTrigger(TriggerEvent(t, tref, ref.name)))
    ensures t in RefsAt(State(run[..h + 1]).cache.triggers, KeyOf(ref))
    ensures run[p].Publish? && !AllDifferent(NamesOf(run[p].ingresses))
    ensures n < |run[p].ingresses| && run[p].ingresses[n].name == KeyOf(ref)
    ensures Egress(KeyOf(tref), trigger.subscriber) in run[p].ingresses[n].egresses
    ensures t !in RefsAt(State(run).cache.triggers, KeyOf(ref))
  {
    var l, refs, ev := Finding(ref, broker, tref, trigger), map[u := ref, v := ref], TriggerEvent(t, tref, ref.name);
    hide Run, State, PassOutcome, Merge, ClassesOf, AllDifferent, Accepts, Handling;
    var r2 := TwoRefs(b, k, c, ref, u, v);
    var r3, listed := Reconciled(r2, b, k, l);
    Kept(r2, r3, b, k, l, listed, c, refs, u);
    var r4 := TriggerHandledAt(r3, ev);
    h := |r3| + 1;
    assert r4[..h + 1] == r4;
    var r5, shown := Reconciled(r4, b, k, l);
    p := |r4| + 3;
    Kept(r4, r5, b, k, l, shown, c, refs, u);
    n := Shows(State(r4).cache, b, k, l, State(r5).cache, shown, c, refs, u, v, t);
    var lost := Listers(l.brokers, map[]);
    var r6, last := Reconciled(r5, b, k, lost);
    Kept(r5, r6, b, k, lost, last, c, refs, u);
    run := r6;
    assert run[..|r4|] == r5[..|r4|] == r4;
    assert run[h] == r4[h] && run[p] == r5[p] && run[..h + 1] == r4;
  }

  lemma TriggerHandledAt(run: seq<Action>, ev: TriggerEvent) returns (after: seq<Action>)
    requires Run(run) && TriggerKey(ev) in State(run).cache.triggers
    ensures after == run + [Filter(OfTrigger(ev)), Handle(OfTrigger(ev))] && Run(after)
    ensures State(after).workers == State(run).workers && State(after).cache.brokers == State(run).cache.brokers
    ensures var refs := RefsAt(State(run).cache.triggers, TriggerKey(ev));
            && TriggerKey(ev) in State(after).cache.triggers
            && RefsAt(State(after).cache.triggers, TriggerKey(ev)) == refs[ev.uid := ev.ref]
  {
    hide Run, State;
    after := Handled(run, OfTrigger(ev));
  }

  /** A reconcile that finds the brokers keeps them, and keeps of their triggers those it finds. */
  lemma Kept(run: seq<Action>, after: seq<Action>, b: BrokerBinding, k: UID, l: Listers, ingresses: seq<Ingress>,
             c: string, refs: Refs, u: UID)
    requires Run(run) && Run(after)
    requires var m := Merged(State(run).cache, b, k);
             PassOutcome(m, ClassesOf(m, k), b, l, State(after).cache, Some(ingresses))
    requires c in b.classes && RefsAt(State(run).cache.brokers, c) == refs
    requires u in refs && forall w :: w in refs ==> BrokerReady(l, refs[w])
    ensures RefsAt(State(after).cache.brokers, c) == refs
    ensures KeyOf(refs[u]) in State(after).cache.triggers
    ensures RefsAt(State(after).cache.triggers, KeyOf(refs[u])) ==
            Prune(RefsAt(State(run).cache.triggers, KeyOf(refs[u])), l.triggers)
  {
    hide Run, State, PassOutcome, Merge, ClassesOf;
    var m := Merged(State(run).cache, b, k);
    ClassUsed(State(run).cache, b, k, c);
    RefsLeft(m, ClassesOf(m, k), b, l, State(after).cache, ingresses, c);
    assert KeyOf(refs[u]) in ReadyNames(refs, l);
    assert Prune(refs, l.brokers) == refs;
  }

  lemma Shows(s: Cache, b: BrokerBinding, k: UID, l: Listers, post: Cache, ingresses: seq<Ingress>, c: string,
              refs: Refs, u: UID, v: UID, t: UID)
    returns (n: nat)
    requires PassOutcome(Merged(s, b, k), ClassesOf(Merged(s, b, k), k), b, l, post, Some(ingresses))
    requires c in b.classes && RefsAt(s.brokers, c) == refs
    requires u in refs && v in refs && u != v && refs[u] == refs[v] && BrokerReady(l, refs[u])
    requires t in RefsAt(s.triggers, KeyOf(refs[u])) && TriggerReady(l, RefsAt(s.triggers, KeyOf(refs[u]))[t])
    ensures !AllDifferent(NamesOf(ingresses))
    ensures n < |ingresses| && ingresses[n].name == KeyOf(refs[u])
    ensures var ref := RefsAt(s.triggers, KeyOf(refs[u]))[t];
            Egress(KeyOf(ref), Get(l.triggers, ref).found.subscriber) in ingresses[n].egresses
  {
    var m := Merged(s, b, k);
    hide PassOutcome, Merge, ClassesOf, AllDifferent;
    ClassUsed(s, b, k, c);
    NameListedTwice(m, ClassesOf(m, k), b, l, post, ingresses, c, u, v);
    n := TriggerShows(m, ClassesOf(m, k), b, l, post, ingresses, c, u, t);
  }

  /** And one that loses the broker. */
  lemma RecordedAndLost(b: BrokerBinding, k: UID, c: string, ref: KReference, u: UID) returns (run: seq<Action>, i: nat)
    requires c in b.classes && c != ""
    ensures Run(run) && i <= |run|
    ensures u in RefsAt(State(run[..i]).cache.brokers, c)
    ensures u !in RefsAt(State(run).cache.brokers, c)
  {
    hide Run, State, PassOutcome, Merge, ClassesOf;
    var before := TwoRefs(b, k, c, ref, u, u);
    i := |before|;
    var none;
    run, none := Reconciled(before, b, k, EMPTY);
    ClassUsed(State(before).cache, b, k, c);
    var m := Merged(State(before).cache, b, k);
    RefsLeft(m, ClassesOf(m, k), b, EMPTY, State(run).cache, none, c);
    assert run[..i] == before;
  }
}
