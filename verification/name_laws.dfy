/** When the ingresses of one pass carry different names. */
module NameLaws {
  import opened Bags
  import opened Mesh
  import opened PassLaws
  import opened PassLemmas
  import opened PassSpec
  import opened StringLists

  ghost function NamesOf(ingresses: seq<Ingress>): seq<string> {
    seq(|ingresses|, i requires 0 <= i < |ingresses| => ingresses[i].name)
  }

  ghost predicate AllDifferent(s: seq<string>) {
    forall i, j :: 0 <= i < j < |s| ==> s[i] != s[j]
  }

  /** No two ready refs of the map share a name. */
  ghost predicate NamedApart(refs: Refs, l: Listers) {
    forall u, v :: u in refs && v in refs && u != v && BrokerReady(l, refs[u]) && BrokerReady(l, refs[v])
                   ==> KeyOf(refs[u]) != KeyOf(refs[v])
  }

  /** No ready name is met twice: not under two refs of a class, and not at two places in the class list. */
  ghost predicate MetOnce(s: Cache, cs: seq<string>, l: Listers) {
    && (forall c :: c in cs ==> NamedApart(RefsAt(s.brokers, c), l))
    && (forall i, j :: 0 <= i < j < |cs| ==>
        ReadyNames(RefsAt(s.brokers, cs[i]), l) !! ReadyNames(RefsAt(s.brokers, cs[j]), l))
  }

  /** A sequence has no repetition exactly when it has as many elements as places. */
  lemma {:induction false} DifferentByCount(s: seq<string>)
    ensures |Elements(s)| <= |s|
    ensures AllDifferent(s) <==> |Elements(s)| == |s|
  {
    if s != [] {
      var front, x := s[..|s| - 1], s[|s| - 1];
      DifferentByCount(front);
      assert s == front + [x];
      assert Elements(s) == Elements(front) + {x};
      if x in front {
        var i :| 0 <= i < |front| && front[i] == x;
        assert s[i] == s[|s| - 1];
        assert Elements(s) == Elements(front);
      } else {
        assert AllDifferent(s) <==> AllDifferent(front);
      }
    }
  }

  ghost predicate Injective(m: map<UID, string>) {
    forall u, v :: u in m && v in m && u != v ==> m[u] != m[v]
  }

  /** A map is injective exactly when it has as many values as keys. */
  lemma {:induction false} InjectiveByCount(m: map<UID, string>)
    ensures |m.Values| <= |m|
    ensures Injective(m) <==> |m.Values| == |m|
    decreases |m|
  {
    if m != map[] {
      var u :| u in m;
      var rest := m - {u};
      SmallerWithout(m, u);
      assert m == rest[u := m[u]];
      InjectiveByCount(rest);
      assert m.Values == rest.Values + {m[u]};
      if m[u] in rest.Values {
        var v :| v in rest && rest[v] == m[u];
        assert v in m && v != u && m[v] == m[u];
        assert m.Values == rest.Values;
      } else {
        assert Injective(m) <==> Injective(rest) by {
          assert forall v :: v in rest ==> rest[v] in rest.Values && m[v] == rest[v];
        }
      }
    }
  }

  /** One class's run carries the names of its ready refs, all different exactly when the refs are named apart. */
  lemma RunNames(s: Cache, c: string, l: Listers, ingresses: seq<Ingress>)
    requires multiset(Views(ingresses)) == ClassBag(s, c, l)
    ensures Elements(NamesOf(ingresses)) == ReadyNames(RefsAt(s.brokers, c), l)
    ensures AllDifferent(NamesOf(ingresses)) <==> NamedApart(RefsAt(s.brokers, c), l)
  {
    var refs := RefsAt(s.brokers, c);
    RunNamesAre(s, c, l, ingresses);
    DifferentByCount(NamesOf(ingresses));
    ApartByCount(refs, l);
    var listed := ReadyIngresses(refs, s.triggers, l);
    ValuesSize(listed);
    assert |ingresses| == |Views(ingresses)| == |multiset(Views(ingresses))| == |listed|;
    assert listed.Keys == ReadyNamed(refs, l).Keys;
    assert |listed| == |listed.Keys| == |ReadyNamed(refs, l)|;
  }

  lemma RunNamesAre(s: Cache, c: string, l: Listers, ingresses: seq<Ingress>)
    requires multiset(Views(ingresses)) == ClassBag(s, c, l)
    ensures Elements(NamesOf(ingresses)) == ReadyNames(RefsAt(s.brokers, c), l)
  {
    hide ClassBag, Views, ReadyEgresses;
    var refs := RefsAt(s.brokers, c);
    forall n | n in NamesOf(ingresses) ensures n in ReadyNames(refs, l) {
      var i :| 0 <= i < |ingresses| && NamesOf(ingresses)[i] == n;
      ViewsMember(ingresses, View(ingresses[i]));
      ClassMembers(s, c, l, View(ingresses[i]));
    }
    forall n | n in ReadyNames(refs, l) ensures n in NamesOf(ingresses) {
      var u :| u in refs && BrokerReady(l, refs[u]) && KeyOf(refs[u]) == n;
      var v := IngressOf(refs[u], s.triggers, l);
      ClassMembers(s, c, l, v);
      ViewsMember(ingresses, v);
      var i :| 0 <= i < |ingresses| && View(ingresses[i]) == v;
      assert NamesOf(ingresses)[i] == n;
    }
  }

  function ReadyNamed(refs: Refs, l: Listers): map<UID, string> {
    map u | u in refs && BrokerReady(l, refs[u]) :: KeyOf(refs[u])
  }

  lemma ApartByCount(refs: Refs, l: Listers)
    ensures ReadyNamed(refs, l).Values == ReadyNames(refs, l)
    ensures NamedApart(refs, l) <==> |ReadyNames(refs, l)| == |ReadyNamed(refs, l)|
  {
    var named := ReadyNamed(refs, l);
    InjectiveByCount(named);
    forall n | n in ReadyNames(refs, l) ensures n in named.Values {
      var u :| u in refs && BrokerReady(l, refs[u]) && KeyOf(refs[u]) == n;
      assert u in named && named[u] == n;
    }
    if Injective(named) {
      forall u, v | u in refs && v in refs && u != v && BrokerReady(l, refs[u]) && BrokerReady(l, refs[v])
        ensures KeyOf(refs[u]) != KeyOf(refs[v])
      {
        assert u in named && v in named && named[u] != named[v];
      }
    }
  }

  lemma NamesSplit(x: seq<Ingress>, y: seq<Ingress>)
    ensures NamesOf(x + y) == NamesOf(x) + NamesOf(y)
  {
  }

  lemma DifferentSplit(x: seq<string>, y: seq<string>)
    ensures Elements(x + y) == Elements(x) + Elements(y)
    ensures AllDifferent(x + y) <==> AllDifferent(x) && AllDifferent(y) && Elements(x) !! Elements(y)
  {
    var z := x + y;
    if AllDifferent(z) {
      forall i, j | 0 <= i < j < |y| ensures y[i] != y[j] {
        assert z[|x| + i] != z[|x| + j];
      }
      forall i, j | 0 <= i < j < |x| ensures x[i] != x[j] {
        assert z[i] != z[j];
      }
      forall n | n in Elements(x) ensures n !in Elements(y) {
        var i :| 0 <= i < |x| && x[i] == n;
        assert forall j :: 0 <= j < |y| ==> z[|x| + j] == y[j];
        assert z[i] == n;
      }
    }
    if AllDifferent(x) && AllDifferent(y) && Elements(x) !! Elements(y) {
      forall i, j | 0 <= i < j < |z| ensures z[i] != z[j] {
        if i < |x| <= j {
          assert z[i] in Elements(x) && z[j] in Elements(y);
        }
      }
    }
  }

  lemma MetOnceSplit(s: Cache, cs: seq<string>, c: string, l: Listers)
    ensures MetOnce(s, cs + [c], l) <==>
            MetOnce(s, cs, l) && NamedApart(RefsAt(s.brokers, c), l)
            && ReadyKeys(s, cs, l) !! ReadyNames(RefsAt(s.brokers, c), l)
  {
    var all := cs + [c];
    var last := ReadyNames(RefsAt(s.brokers, c), l);
    assert forall d :: d in all <==> d in cs || d == c;
    assert all[|cs|] == c && forall i :: 0 <= i < |cs| ==> all[i] == cs[i];
    hide NamedApart, ReadyNames, RefsAt;
    if MetOnce(s, all, l) {
      forall k | k in ReadyKeys(s, cs, l) ensures k !in last {
        var d :| d in cs && k in ReadyNames(RefsAt(s.brokers, d), l);
        var i :| 0 <= i < |cs| && cs[i] == d;
        assert ReadyNames(RefsAt(s.brokers, all[i]), l) !! ReadyNames(RefsAt(s.brokers, all[|cs|]), l);
      }
      forall i, j | 0 <= i < j < |cs|
        ensures ReadyNames(RefsAt(s.brokers, cs[i]), l) !! ReadyNames(RefsAt(s.brokers, cs[j]), l)
      {
        assert ReadyNames(RefsAt(s.brokers, all[i]), l) !! ReadyNames(RefsAt(s.brokers, all[j]), l);
      }
    }
    if MetOnce(s, cs, l) && NamedApart(RefsAt(s.brokers, c), l) && ReadyKeys(s, cs, l) !! last {
      forall i, j | 0 <= i < j < |all|
        ensures ReadyNames(RefsAt(s.brokers, all[i]), l) !! ReadyNames(RefsAt(s.brokers, all[j]), l)
      {
        if j == |cs| {
          assert cs[i] in cs;
          assert forall k :: k in ReadyNames(RefsAt(s.brokers, cs[i]), l) ==> k in ReadyKeys(s, cs, l);
        }
      }
    }
  }

  lemma {:induction false} RealizedNames(s: Cache, cs: seq<string>, l: Listers, ingresses: seq<Ingress>)
    requires Realizes(ingresses, ClassBags(s, cs, l))
    ensures Elements(NamesOf(ingresses)) == ReadyKeys(s, cs, l)
    ensures AllDifferent(NamesOf(ingresses)) <==> MetOnce(s, cs, l)
    decreases |cs|
  {
    hide MetOnce, NamedApart, AllDifferent, ClassBag, NamesOf, ReadyNames, RefsAt;
    var bags := ClassBags(s, cs, l);
    if cs == [] {
      NoNames(s, l);
    } else {
      var front, c := cs[..|cs| - 1], cs[|cs| - 1];
      var n := |ingresses| - |bags[|bags| - 1]|;
      var x, y := ingresses[..n], ingresses[n..];
      assert bags[..|bags| - 1] == ClassBags(s, front, l);
      hide Realizes;
      assert cs == front + [c] && ingresses == x + y;
      RealizedNames(s, front, l, x);
      RunNames(s, c, l, y);
      NamesSplit(x, y);
      DifferentSplit(NamesOf(x), NamesOf(y));
      MetOnceSplit(s, front, c, l);
      ReadyKeysSplit(s, front, c, l);
    }
  }

  lemma NoNames(s: Cache, l: Listers)
    ensures NamesOf([]) == [] && AllDifferent([]) && MetOnce(s, [], l) && ReadyKeys(s, [], l) == {}
  {
  }

  lemma ReadyKeysSplit(s: Cache, cs: seq<string>, c: string, l: Listers)
    ensures ReadyKeys(s, cs + [c], l) == ReadyKeys(s, cs, l) + ReadyNames(RefsAt(s.brokers, c), l)
  {
    assert forall d :: d in cs + [c] <==> d in cs || d == c;
  }

  /** Ingress names are all different exactly when no ready name is met twice on the way. */
  lemma NamesDifferent(pre: Cache, cs: seq<string>, b: BrokerBinding, l: Listers, post: Cache, ingresses: seq<Ingress>)
    requires PassOutcome(pre, cs, b, l, post, Some(ingresses))
    ensures AllDifferent(NamesOf(ingresses)) <==> MetOnce(pre, cs, l)
  {
    SucceededPass(pre, cs, b, l, post, ingresses);
    RealizedNames(pre, cs, l, ingresses);
  }
}
