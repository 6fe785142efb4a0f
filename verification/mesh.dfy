/** The objects the BrokerBinding controller reads, caches and publishes. */
module Mesh {

  type UID = string

  datatype Option<+T> = None | Some(value: T)

  datatype KReference = KReference(kind: string, namespace: string, name: string, apiVersion: string)

  /** What the controller keeps of a BrokerBinding. */
  datatype BrokerBinding = BrokerBinding(namespace: string, name: string, classes: seq<string>)

  datatype Broker = Broker(ready: bool, address: string)

  datatype Trigger = Trigger(ready: bool, subscriber: string)

  /** What a lister's `Get` can come back with. */
  datatype Reply<+T> = Found(found: T) | NotFound | OtherError

  /** The two listers as they stand during one locked section. */
  datatype Listers = Listers(brokers: map<(string, string), Reply<Broker>>,
                             triggers: map<(string, string), Reply<Trigger>>)

  /** An informer's store answers NotFound for every name it does not hold. */
  function Get<T>(lister: map<(string, string), Reply<T>>, ref: KReference): Reply<T> {
    if (ref.namespace, ref.name) in lister then lister[(ref.namespace, ref.name)] else NotFound
  }

  datatype Egress = Egress(name: string, destination: string)

  datatype Ingress = Ingress(name: string, address: string, egresses: seq<Egress>)

  /** An ingress up to the order of its egresses. */
  datatype IngressView = IngressView(name: string, address: string, egresses: multiset<Egress>)

  ghost function View(i: Ingress): IngressView {
    IngressView(i.name, i.address, multiset(i.egresses))
  }

  ghost function Views(s: seq<Ingress>): seq<IngressView> {
    seq(|s|, i requires 0 <= i < |s| => View(s[i]))
  }
}

/** The values of a map, counted. */
module Bags {

  ghost function Values<K, V>(m: map<K, V>): multiset<V>
    decreases |m|
  {
    if m == map[] then multiset{}
    else
      var k :| k in m;
      multiset{m[k]} + Values(m - {k})
  }

  /** The count does not depend on which key is taken out first. */
  lemma {:induction false} ValuesRemove<K, V>(m: map<K, V>, k: K)
    requires k in m
    ensures Values(m) == multiset{m[k]} + Values(m - {k})
    decreases |m|
  {
    var j :| j in m && Values(m) == multiset{m[j]} + Values(m - {j});
    if j != k {
      var mj, mk, rest := m - {j}, m - {k}, m - {j, k};
      assert mj - {k} == rest && mk - {j} == rest;
      assert Values(mj) == multiset{m[k]} + Values(rest) by { SmallerWithout(m, j); ValuesRemove(mj, k); }
      assert Values(mk) == multiset{m[j]} + Values(rest) by { SmallerWithout(m, k); ValuesRemove(mk, j); }
    }
  }

  lemma SmallerWithout<K, V>(m: map<K, V>, k: K)
    requires k in m
    ensures |m - {k}| == |m| - 1
  {
    assert m == (m - {k})[k := m[k]];
  }

  lemma ValuesInsert<K, V>(m: map<K, V>, k: K, v: V)
    requires k !in m
    ensures Values(m[k := v]) == Values(m) + multiset{v}
  {
    ValuesRemove(m[k := v], k);
    assert m[k := v] - {k} == m;
  }

  lemma {:induction false} ValuesSize<K, V>(m: map<K, V>)
    ensures |Values(m)| == |m|
    decreases |m|
  {
    if m != map[] {
      var k :| k in m;
      SmallerWithout(m, k);
      ValuesRemove(m, k);
      ValuesSize(m - {k});
    }
  }

  /** Every counted value sits under some key, and every key's value is counted. */
  lemma {:induction false} ValuesWitness<K, V>(m: map<K, V>, v: V)
    ensures v in Values(m) <==> exists k :: k in m && m[k] == v
    decreases |m|
  {
    if m != map[] {
      var j :| j in m && Values(m) == multiset{m[j]} + Values(m - {j});
      ValuesWitness(m - {j}, v);
      if k :| k in m && m[k] == v && k != j {
        assert k in m - {j};
      }
    }
  }

  lemma SameRest<V>(a: multiset<V>, b: multiset<V>, v: V)
    requires a + multiset{v} == multiset{v} + b
    ensures a == b
  {
    assert a == (a + multiset{v}) - multiset{v} && b == (multiset{v} + b) - multiset{v};
  }

  /** A listing of the values takes the keys in some order, each once. */
  lemma {:induction false} ValuesOrdered<K, V>(m: map<K, V>, s: seq<V>) returns (order: seq<K>)
    requires multiset(s) == Values(m)
    ensures |order| == |s| && (forall i, j :: 0 <= i < j < |order| ==> order[i] != order[j])
    ensures forall k :: k in order <==> k in m
    ensures forall i :: 0 <= i < |order| ==> order[i] in m && s[i] == m[order[i]]
    decreases |s|
  {
    order := [];
    if s == [] {
      ValuesSize(m);
      assert multiset(s) == multiset{};
    } else {
      var front, v := s[..|s| - 1], s[|s| - 1];
      assert s == front + [v];
      ValuesWitness(m, v);
      assert v in multiset(s);
      var k :| k in m && m[k] == v;
      ValuesRemove(m, k);
      SameRest(multiset(front), Values(m - {k}), v);
      var before := ValuesOrdered(m - {k}, front);
      order := before + [k];
      assert forall j :: j in order <==> j in before || j == k;
    }
  }
}
