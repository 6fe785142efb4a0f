/** What the generated reconcile loop's rules come to, said of keys, events, answers and commits alone. */
module WriteBackLaws {
  import opened ApiServer
  import opened Mesh
  import opened Names
  import opened StringLists
  import opened WriteBack

  /* ---- Keys ---- */

  /** A key is valid exactly if it is a plain name, or a namespace and a name joined by the one slash in it. */
  lemma ValidKeyExactly(key: string)
    ensures ValidKey(key) <==>
              SlashFree(key) || exists ns, n :: SlashFree(ns) && SlashFree(n) && key == Join(ns, n)
  {
    SlashesNone(key);
    if ns: string, n: string :| SlashFree(ns) && SlashFree(n) && key == Join(ns, n) {
      SlashesNone(ns);
      SlashesNone(n);
      SlashesConcat(ns, "/" + n);
      SlashesConcat("/", n);
      assert ns + ("/" + n) == key;
    }
    if Slashes(key) == 1 {
      var ns, n := SplitOnce(key);
    }
  }

  lemma {:induction false} SlashesNone(s: string)
    ensures Slashes(s) == 0 <==> SlashFree(s)
  {
    if s != [] {
      SlashesNone(s[1..]);
      assert s == [s[0]] + s[1..];
    }
  }

  lemma {:induction false} SlashesConcat(a: string, b: string)
    ensures Slashes(a + b) == Slashes(a) + Slashes(b)
  {
    if a == [] {
      assert a + b == b;
    } else {
      SlashesConcat(a[1..], b);
      assert (a + b)[1..] == a[1..] + b;
    }
  }

  lemma {:induction false} SplitOnce(key: string) returns (ns: string, n: string)
    requires Slashes(key) == 1
    ensures SlashFree(ns) && SlashFree(n) && key == Join(ns, n)
  {
    if key[0] == '/' {
      ns, n := [], key[1..];
      SlashesNone(n);
    } else {
      var front;
      front, n := SplitOnce(key[1..]);
      ns := [key[0]] + front;
      assert key == [key[0]] + key[1..] && ns + "/" + n == [key[0]] + (front + "/" + n);
    }
  }

  /* ---- Events and methods ---- */

  /** Clean ends are no event and Normal events, wrapped or not; failures are wrapped events and other errors. */
  lemma EventsExactly(e: Event)
    ensures e.NoEvent? ==> Clean(e) && !Fails(e)
    ensures e.OfType? ==> (Clean(e) <==> e.eventType == "Normal") && (Fails(e) <==> e.wrapped)
    ensures e.OtherEvent? ==> !Clean(e) && Fails(e)
  {
  }

  /** Leaders reconcile what lives and finalize what is being deleted; followers only observe, and only what lives. */
  lemma KindExactly(cfg: Config, isLeader: bool, deleting: bool)
    ensures KindFor(cfg, isLeader, deleting).ReconcileKind? <==> isLeader && !deleting
    ensures KindFor(cfg, isLeader, deleting).FinalizeKind? <==> isLeader && deleting && cfg.isFinalizer
    ensures KindFor(cfg, isLeader, deleting).ObserveKind? <==> !isLeader && !deleting && cfg.isROI
  {
  }

  /* ---- The retry protocol ---- */

  /** The object a status update has at hand for its exchange `m`: the informer's copy, or what it read just before. */
  function AtHand(informers: Resource, said: seq<Exchange>, m: nat): Resource
    requires m <= |said|
  {
    if m > 0 && said[m - 1].Got? && said[m - 1].reply.Found? then said[m - 1].reply.found else informers
  }

  /** Exchanges alternate: a write over the object at hand, and after its conflict a read that finds the object. */
  ghost predicate Retries(informers: Resource, desired: string, said: seq<Exchange>, n: nat)
    requires n <= |said|
  {
    && (forall m: nat :: m < n && m % 2 == 0 ==>
          said[m] == Wrote(AtHand(informers, said, m).(status := desired), Some(Conflict))
          && AtHand(informers, said, m).status != desired)
    && (forall m: nat :: m < n && m % 2 == 1 ==> said[m].Got? && said[m].reply.Found?)
  }

  /** How it ends: nothing to do, a read that finds nothing, an answer other than a conflict, or a fifth conflict. */
  ghost predicate RetriesEnd(informers: Resource, desired: string, said: seq<Exchange>, err: Option<ApiError>) {
    || (|said| % 2 == 0 && Retries(informers, desired, said, |said|)
        && AtHand(informers, said, |said|).status == desired && err == None)
    || (|said| % 2 == 0 && said != [] && Retries(informers, desired, said, |said| - 1)
        && ((said[|said| - 1] == Got(NotFound) && err == Some(Missing))
            || (said[|said| - 1] == Got(OtherError) && err == Some(Failed))))
    || (|said| % 2 == 1 && Retries(informers, desired, said, |said| - 1)
        && AtHand(informers, said, |said| - 1).status != desired
        && said[|said| - 1] == Wrote(AtHand(informers, said, |said| - 1).(status := desired), err)
        && (err == Some(Conflict) ==> |said| == 9))
  }

  ghost predicate StageMeans(stage: Stage, informers: Resource, desired: string, said: seq<Exchange>) {
    match stage
    case Writing(existing, n) =>
      && n < 5 && |said| == 2 * n && Retries(informers, desired, said, |said|)
      && existing == AtHand(informers, said, |said|) && existing.status != desired
    case Reading(n) => 0 < n < 5 && |said| == 2 * n - 1 && Retries(informers, desired, said, |said|)
    case Ended(err) => |said| <= 9 && RetriesEnd(informers, desired, said, err)
    case Stuck => true
  }

  lemma {:induction false} StageMeansSo(informers: Resource, desired: string, said: seq<Exchange>)
    ensures StageMeans(StageOf(informers, desired, said), informers, desired, said)
    decreases |said|
  {
    if said != [] {
      var before := said[..|said| - 1];
      StageMeansSo(informers, desired, before);
      StageFurther(StageOf(informers, desired, before), informers, desired, said);
    }
  }

  lemma RetriesStay(informers: Resource, desired: string, said: seq<Exchange>)
    requires said != [] && Retries(informers, desired, said[..|said| - 1], |said| - 1)
    ensures Retries(informers, desired, said, |said| - 1)
    ensures AtHand(informers, said, |said| - 1) == AtHand(informers, said[..|said| - 1], |said| - 1)
  {
    var before := said[..|said| - 1];
    assert forall m: nat :: m <= |before| ==> AtHand(informers, said, m) == AtHand(informers, before, m);
    assert forall m: nat :: m < |before| ==> said[m] == before[m];
  }

  lemma RetriesGrow(informers: Resource, desired: string, said: seq<Exchange>)
    requires said != [] && Retries(informers, desired, said, |said| - 1)
    requires var x, hand := said[|said| - 1], AtHand(informers, said, |said| - 1);
             if |said| % 2 == 1 then x == Wrote(hand.(status := desired), Some(Conflict)) && hand.status != desired
             else x.Got? && x.reply.Found?
    ensures Retries(informers, desired, said, |said|)
  {
  }

  lemma HandIsRead(informers: Resource, said: seq<Exchange>)
    requires said != [] && said[|said| - 1].Got? && said[|said| - 1].reply.Found?
    ensures AtHand(informers, said, |said|) == said[|said| - 1].reply.found
  {
  }

  lemma StageFurther(stage: Stage, informers: Resource, desired: string, said: seq<Exchange>)
    requires said != [] && StageMeans(stage, informers, desired, said[..|said| - 1])
    ensures StageMeans(After(stage, said[|said| - 1], desired), informers, desired, said)
  {
    hide Retries, AtHand;
    if stage.Writing? || stage.Reading? {
      RetriesStay(informers, desired, said);
      var x, hand := said[|said| - 1], AtHand(informers, said, |said| - 1);
      if stage.Writing? {
        if x == Wrote(hand.(status := desired), Some(Conflict)) {
          RetriesGrow(informers, desired, said);
        }
      } else if x.Got? && x.reply.Found? {
        RetriesGrow(informers, desired, said);
        HandIsRead(informers, said);
      }
    }
  }

  /** A status update retries conflicts only, each over a fresh read, five writes in all, and never without need. */
  lemma StatusUpdateRetries(informers: Resource, desired: string, said: seq<Exchange>, err: Option<ApiError>)
    requires StageOf(informers, desired, said) == Ended(err)
    ensures |said| <= 9 && RetriesEnd(informers, desired, said, err)
  {
    StageMeansSo(informers, desired, said);
  }

  /* ---- Results ---- */

  /** An answer that lets a call go on. */
  predicate Good(x: Exchange) {
    match x
    case Listed(reply) => reply.Found?
    case Got(reply) => reply.Found?
    case Wrote(_, err) => err.None?
  }

  /** A call gets through exactly if it may work at all and the last answer at every stage was good. */
  lemma DoneExactly(talk: Talk, cfg: Config, key: string, isLeader: bool, o: Outcome, t: Trace, result: Result)
    requires CallTalk(talk, cfg, key, isLeader, o, t, result)
    ensures result.Done? <==>
              && ValidKey(key) && (isLeader || cfg.isROI)
              && talk.lookup != [] && Good(talk.lookup[0])
              && (forall x :: x in talk.asked ==> Good(x))
              && (talk.told != [] ==> Good(talk.told[|talk.told| - 1]))
  {
    if talk.lookup != [] && Good(talk.lookup[0]) {
      AskedExactly(talk, cfg, t.kind, o);
      ToldExactly(talk, cfg, isLeader, talk.lookup[0].reply.found);
    }
  }

  lemma AskedExactly(talk: Talk, cfg: Config, kind: Kind, o: Outcome)
    ensures talk.step.Some? && KindTalk(talk.asked, cfg, kind, o, talk.step.value) ==>
              (talk.step.value.err <==> exists x :: x in talk.asked && !Good(x))
  {
    assert talk.asked != [] ==> talk.asked[0] in talk.asked;
    assert |talk.asked| > 1 ==> talk.asked[1] in talk.asked;
  }

  lemma ToldExactly(talk: Talk, cfg: Config, isLeader: bool, first: Resource)
    ensures talk.step.Some? && SyncTalk(talk.told, cfg, isLeader, first, talk.step.value.resource.status, talk.err) ==>
              (talk.err.None? <==> talk.told == [] || Good(talk.told[|talk.told| - 1]))
  {
    if talk.step.Some? && SyncTalk(talk.told, cfg, isLeader, first, talk.step.value.resource.status, talk.err)
       && MustSync(cfg, isLeader, first, talk.step.value.resource.status) {
      StatusUpdateRetries(first, talk.step.value.resource.status, talk.told, talk.err);
    }
  }

  /* ---- Commits ---- */

  /** Our commits are those marked so, in order. */
  lemma {:induction false} OursExactly(commits: seq<Commit>)
    ensures forall c :: multiset(Ours(commits))[c] == if c.mine then multiset(commits)[c] else 0
    decreases |commits|
  {
    if commits != [] {
      var front, last := commits[..|commits| - 1], commits[|commits| - 1];
      OursExactly(front);
      assert commits == front + [last];
    }
  }

  /** Linked commits lead from the first state to the last, each starting from what the one before it left. */
  lemma {:induction false} LinkedExactly(from: Option<Resource>, commits: seq<Commit>, to: Option<Resource>)
    ensures Linked(from, commits, to) <==>
              if commits == [] then from == to
              else
                && commits[0].before == from && commits[|commits| - 1].after == to
                && forall i :: 0 < i < |commits| ==> commits[i].before == commits[i - 1].after
    decreases |commits|
  {
    if commits != [] {
      var front := commits[..|commits| - 1];
      LinkedExactly(from, front, commits[|commits| - 1].before);
      assert forall i :: 0 <= i < |front| ==> front[i] == commits[i];
    }
  }

  /** The status a call comes to compare, by the method that ran. */
  lemma StatusExactly(ours: seq<Commit>, cfg: Config, t: Trace, o: Outcome, status: string)
    requires FinalStatus(ours, cfg, t, o, status)
    ensures t.kind.ReconcileKind? || t.kind.ObserveKind? ==> status == o.status
    ensures t.kind.FinalizeKind? && (ours == [] || !FinalizerWrite(ours[0], cfg.finalizerName)) ==> status == o.status
    ensures t.kind.FinalizeKind? && ours != [] && FinalizerWrite(ours[0], cfg.finalizerName) ==>
              status == ours[0].after.value.status
    ensures t.kind.UnknownKind? ==> t.first.Some? && status == t.first.value.status
  {
  }

  /** A finalizer write sends the object as it was but for the own finalizer: added last, or the others sorted. */
  lemma FinalizersSentExactly(x: Exchange, existing: Resource, name: string, wanted: bool)
    requires FinalizersSent(x, existing, name, wanted) && wanted == (name !in existing.finalizers)
    ensures x.sent.version == existing.version && x.sent.spec == existing.spec && x.sent.status == existing.status
    ensures x.sent.deleting == existing.deleting
    ensures name in x.sent.finalizers <==> wanted
    ensures forall f :: f != name ==> (f in x.sent.finalizers <==> f in existing.finalizers)
    ensures wanted ==> x.sent.finalizers == existing.finalizers + [name]
    ensures !wanted ==> forall i, j :: 0 <= i < j < |x.sent.finalizers| ==>
              Precedes(x.sent.finalizers[i], x.sent.finalizers[j])
  {
    assert forall f :: f in x.sent.finalizers <==> f in Elements(x.sent.finalizers);
    assert forall f :: f in existing.finalizers <==> f in Elements(existing.finalizers);
    if !wanted {
      forall i, j | 0 <= i < j < |x.sent.finalizers|
        ensures Precedes(x.sent.finalizers[i], x.sent.finalizers[j])
      {
        LessExactly(x.sent.finalizers[i], x.sent.finalizers[j]);
      }
    }
  }

  /* ---- No update is lost ---- */

  /** An accepted status write replaces exactly the object the call had at hand for it, and only its status. */
  lemma StatusWriteReplaces(c: Commit, cfg: Config, t: Trace, told: seq<Exchange>)
    requires AllowedStatus(c, cfg, t, told)
    ensures told != [] && t.first.Some? && t.final.Some?
    ensures var hand := AtHand(t.first.value, told, |told| - 1);
            && c.before == Some(hand) && hand.status != t.final.value.status
            && c.after.Some? && c.after.value.finalizers == hand.finalizers && c.after.value.spec == hand.spec
            && c.after.value.deleting == hand.deleting && c.after.value.status == t.final.value.status
  {
    var front := told[..|told| - 1];
    StageMeansSo(t.first.value, t.final.value.status, front);
    hide StageOf, Retries;
    assert AtHand(t.first.value, told, |told| - 1) == AtHand(t.first.value, front, |front|);
  }

  /** An accepted finalizer write replaces exactly the object the lister gave the step, by what was sent. */
  lemma FinalizerWriteReplaces(c: Commit, cfg: Config, o: Outcome, t: Trace, asked: seq<Exchange>)
    requires AllowedFinalizers(c, cfg, o, t, asked)
    ensures t.second.Some? && c.before == t.second
    ensures |asked| == 2 && asked[1].Wrote?
    ensures c.after.Some? && c.after.value == asked[1].sent.(version := c.after.value.version)
  {
  }
}
