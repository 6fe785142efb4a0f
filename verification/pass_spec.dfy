/** What one ingress pass must do, stated over the caches as they were before it and the listers. */
module PassSpec {
  import opened Bags
  import opened Mesh
  import opened Names
  import opened StringLists

  type Refs = map<UID, KReference>

  /** One value of `trackedBrokers` or `trackedTriggers`. */
  datatype Entry = Entry(refs: Refs, binding: BrokerBinding)

  /** The reconciler's three caches. */
  datatype Cache = Cache(kmesh: map<UID, seq<string>>, brokers: map<string, Entry>, triggers: map<string, Entry>)

  function KeyOf(ref: KReference): string {
    Join(ref.namespace, ref.name)
  }

  function ClassesOf(s: Cache, k: UID): seq<string> {
    if k in s.kmesh then s.kmesh[k] else []
  }

  function RefsAt(m: map<string, Entry>, k: string): Refs {
    if k in m then m[k].refs else map[]
  }

  /** The class cache after a merge. */
  function Merge(kmesh: map<UID, seq<string>>, k: UID, classes: seq<string>): map<UID, seq<string>> {
    if k in kmesh then kmesh[k := SortedUnion(kmesh[k], classes)] else kmesh[k := classes]
  }

  predicate BrokerReady(l: Listers, ref: KReference) {
    Get(l.brokers, ref).Found? && Get(l.brokers, ref).found.ready
  }

  predicate TriggerReady(l: Listers, ref: KReference) {
    Get(l.triggers, ref).Found? && Get(l.triggers, ref).found.ready
  }

  /** The tracked refs the lister no longer knows are gone, the others untouched. */
  function Prune<T>(refs: Refs, lister: map<(string, string), Reply<T>>): Refs {
    map u | u in refs && !Get(lister, refs[u]).NotFound? :: refs[u]
  }

  /** One egress per tracked trigger that the lister finds ready. */
  function ReadyEgresses(refs: Refs, l: Listers): map<UID, Egress> {
    map u | u in refs && TriggerReady(l, refs[u]) :: Egress(KeyOf(refs[u]), Get(l.triggers, refs[u]).found.subscriber)
  }

  /** One ingress per tracked broker that the lister finds ready, with all the egresses tracked under its name. */
  ghost function ReadyIngresses(refs: Refs, triggers: map<string, Entry>, l: Listers): map<UID, IngressView> {
    map u | u in refs && BrokerReady(l, refs[u]) :: IngressOf(refs[u], triggers, l)
  }

  ghost function IngressOf(ref: KReference, triggers: map<string, Entry>, l: Listers): IngressView
    requires BrokerReady(l, ref)
  {
    IngressView(KeyOf(ref), Get(l.brokers, ref).found.address,
                Values(ReadyEgresses(RefsAt(triggers, KeyOf(ref)), l)))
  }

  ghost function ClassBag(s: Cache, c: string, l: Listers): multiset<IngressView> {
    Values(ReadyIngresses(RefsAt(s.brokers, c), s.triggers, l))
  }

  ghost function ClassBags(s: Cache, cs: seq<string>, l: Listers): seq<multiset<IngressView>> {
    seq(|cs|, i requires 0 <= i < |cs| => ClassBag(s, cs[i], l))
  }

  /** The list falls into consecutive runs, one per bag, each a listing of its bag. */
  ghost predicate Realizes(ingresses: seq<Ingress>, bags: seq<multiset<IngressView>>)
    decreases |bags|
  {
    if bags == [] then ingresses == []
    else
      var n := |ingresses| - |bags[|bags| - 1]|;
      0 <= n
      && multiset(Views(ingresses[n..])) == bags[|bags| - 1]
      && Realizes(ingresses[..n], bags[..|bags| - 1])
  }

  ghost predicate SomeTriggerFails(refs: Refs, l: Listers) {
    exists u :: u in refs && Get(l.triggers, refs[u]).OtherError?
  }

  /** A broker the pass cannot get past: its own `Get` fails, or it is ready and one of its triggers' does. */
  ghost predicate BrokerFails(triggers: map<string, Entry>, l: Listers, ref: KReference) {
    || Get(l.brokers, ref).OtherError?
    || (BrokerReady(l, ref) && SomeTriggerFails(RefsAt(triggers, KeyOf(ref)), l))
  }

  ghost predicate SomeBrokerFails(refs: Refs, triggers: map<string, Entry>, l: Listers) {
    exists u :: u in refs && BrokerFails(triggers, l, refs[u])
  }

  ghost predicate ClassFails(s: Cache, c: string, l: Listers) {
    SomeBrokerFails(RefsAt(s.brokers, c), s.triggers, l)
  }

  ghost predicate PassFails(s: Cache, cs: seq<string>, l: Listers) {
    exists c :: c in cs && ClassFails(s, c, l)
  }

  /** The names of the ready brokers of some tracked refs, and of a list of classes. */
  function ReadyNames(refs: Refs, l: Listers): set<string> {
    set u | u in refs && BrokerReady(l, refs[u]) :: KeyOf(refs[u])
  }

  function ReadyKeys(s: Cache, cs: seq<string>, l: Listers): set<string> {
    set c, k | c in cs && k in ReadyNames(RefsAt(s.brokers, c), l) :: k
  }

  /** `m` with every entry in `keys` pruned, or created empty for `b` where missing. */
  function PruneAt<T>(m: map<string, Entry>, keys: set<string>, b: BrokerBinding,
                      lister: map<(string, string), Reply<T>>): map<string, Entry> {
    map k | k in m.Keys + keys ::
      if k !in keys then m[k]
      else if k in m then Entry(Prune(m[k].refs, lister), m[k].binding)
      else Entry(map[], b)
  }

  /** The caches after a successful pass. */
  function AfterPass(s: Cache, cs: seq<string>, b: BrokerBinding, l: Listers): Cache {
    Cache(s.kmesh, PruneAt(s.brokers, Elements(cs), b, l.brokers),
          PruneAt(s.triggers, ReadyKeys(s, cs, l), b, l.triggers))
  }

  /** Refs may go, but only those the lister no longer knows. */
  ghost predicate RefsPruned<T>(pre: Refs, post: Refs, lister: map<(string, string), Reply<T>>) {
    && post.Keys <= pre.Keys
    && (forall u :: u in post ==> post[u] == pre[u])
    && (forall u :: u in pre && u !in post ==> Get(lister, pre[u]).NotFound?)
  }

  ghost predicate EntriesPruned<T>(pre: map<string, Entry>, post: map<string, Entry>, touched: set<string>,
                                   b: BrokerBinding, lister: map<(string, string), Reply<T>>) {
    && pre.Keys <= post.Keys <= pre.Keys + touched
    && (forall k :: k in post && k !in pre ==> post[k] == Entry(map[], b))
    && (forall k :: k in pre ==> post[k].binding == pre[k].binding)
    && (forall k :: k in pre ==> RefsPruned(pre[k].refs, post[k].refs, lister))
    && (forall k :: k in pre && k !in touched ==> post[k] == pre[k])
  }

  /** What every pass over `cs` may do to the caches, also one that stops at an error half way. */
  ghost predicate PartialPass(pre: Cache, post: Cache, cs: seq<string>, b: BrokerBinding, l: Listers) {
    && post.kmesh == pre.kmesh
    && EntriesPruned(pre.brokers, post.brokers, Elements(cs), b, l.brokers)
    && EntriesPruned(pre.triggers, post.triggers, ReadyKeys(pre, cs, l), b, l.triggers)
  }

  /** The outcome of a pass over `cs`: `None` is the error return. */
  ghost predicate PassOutcome(pre: Cache, cs: seq<string>, b: BrokerBinding, l: Listers,
                              post: Cache, result: Option<seq<Ingress>>) {
    match result
    case None => PassFails(pre, cs, l) && PartialPass(pre, post, cs, b, l)
    case Some(ingresses) =>
      && !PassFails(pre, cs, l)
      && post == AfterPass(pre, cs, b, l)
      && Realizes(ingresses, ClassBags(pre, cs, l))
  }
}
