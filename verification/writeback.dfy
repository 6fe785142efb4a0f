/** The generated reconcile loop: leader gating, finalizers and status write-back against a changing server. */
module WriteBack {
  import opened ApiServer
  import opened Mesh
  import opened StringLists

  /** What the wrapped reconciler implements, and the generated reconciler's options. */
  datatype Config = Config(isFinalizer: bool, isROI: bool, skipStatusUpdates: bool, finalizerName: string)

  /**
   * What a Kind method returns: nothing, a reconciler event of some type (wrapped in an error or not), or
   * another error.
   */
  datatype Event = NoEvent | OfType(eventType: string, wrapped: bool) | OtherEvent

  const EVENT_TYPE_NORMAL := "Normal"

  /** An event counts as a success unless it comes wrapped in an error, any other error as a failure. */
  predicate Fails(e: Event) {
    (e.OfType? && e.wrapped) || e.OtherEvent?
  }

  predicate Clean(e: Event) {
    e.NoEvent? || (e.OfType? && e.eventType == EVENT_TYPE_NORMAL)
  }

  /** What a Kind method leaves of the resource it was handed, and what it returns. */
  datatype Outcome = Outcome(finalizers: seq<string>, status: string, event: Event)

  datatype Kind = ReconcileKind | FinalizeKind | ObserveKind | UnknownKind

  function KindFor(cfg: Config, isLeader: bool, deleting: bool): Kind {
    if !deleting then
      if isLeader then ReconcileKind else if cfg.isROI then ObserveKind else UnknownKind
    else if isLeader && cfg.isFinalizer then FinalizeKind
    else UnknownKind
  }

  /** `failed` tells an error return from a nil one, once everything else went well. */
  datatype Result = Done(event: Event, failed: bool) | InvalidKey | SkipKey | Gone | LookupFailed
      | FinalizersFailed | StatusFailed

  /* ---- What a write may do ---- */

  /** The write replaced the status and nothing else of the object it found. */
  ghost predicate StatusWrite(c: Commit, status: string) {
    && c.before.Some? && c.after.Some?
    && c.after.value == c.before.value.(status := status, version := c.after.value.version)
  }

  /** The write changed the finalizers only, and of those only `name`. */
  ghost predicate FinalizerWrite(c: Commit, name: string) {
    && c.before.Some? && c.after.Some?
    && c.after.value == c.before.value.(finalizers := c.after.value.finalizers, version := c.after.value.version)
    && Elements(c.after.value.finalizers) - {name} == Elements(c.before.value.finalizers) - {name}
    && (name in c.before.value.finalizers <==> name !in c.after.value.finalizers)
  }

  ghost predicate Removes(c: Commit, name: string) {
    FinalizerWrite(c, name) && name in c.before.value.finalizers
  }

  /** The stored object had this status when the call began or after some write made during it. */
  ghost predicate HadStatus(before: Option<Resource>, commits: seq<Commit>, status: string) {
    || (before.Some? && before.value.status == status)
    || exists i :: 0 <= i < |commits| && commits[i].after.Some? && commits[i].after.value.status == status
  }

  lemma LastState(before: Option<Resource>, commits: seq<Commit>, now: Option<Resource>)
    requires Linked(before, commits, now) && now.Some?
    ensures HadStatus(before, commits, now.value.status)
  {
  }

  lemma HadStatusGrows(before: Option<Resource>, commits: seq<Commit>, more: seq<Commit>, status: string)
    requires HadStatus(before, commits, status)
    ensures HadStatus(before, commits + more, status)
  {
    if i :| 0 <= i < |commits| && commits[i].after.Some? && commits[i].after.value.status == status {
      assert (commits + more)[i].after == commits[i].after;
    }
  }

  /** The commits that are this controller's. */
  ghost function Ours(commits: seq<Commit>): seq<Commit> {
    if commits == [] then []
    else Ours(commits[..|commits| - 1]) + if commits[|commits| - 1].mine then [commits[|commits| - 1]] else []
  }

  lemma {:induction false} OursConcat(x: seq<Commit>, y: seq<Commit>)
    ensures Ours(x + y) == Ours(x) + Ours(y)
    decreases |y|
  {
    if y == [] {
      assert x + y == x;
    } else {
      OursConcat(x, y[..|y| - 1]);
      assert (x + y)[..|x + y| - 1] == x + y[..|y| - 1];
    }
  }

  lemma {:induction false} NoneOfOurs(commits: seq<Commit>)
    requires forall i :: 0 <= i < |commits| ==> !commits[i].mine
    ensures Ours(commits) == []
  {
    if commits != [] {
      NoneOfOurs(commits[..|commits| - 1]);
    }
  }

  /* ---- Steps against the server, with others writing before each ---- */

  method ReadLister(s: Server) returns (r: Reply<Resource>, ghost commits: seq<Commit>)
    requires s.Valid()
    modifies s
    ensures Stepped(s, commits) && Ours(commits) == []
    ensures s.talk == old(s.talk) + [Listed(r)]
    ensures r.Found? ==> r.found in s.history
  {
    commits := s.OtherWriters();
    NoneOfOurs(commits);
    r := s.ListerGet();
  }

  method ReadServer(s: Server) returns (r: Reply<Resource>, ghost commits: seq<Commit>)
    requires s.Valid()
    modifies s
    ensures Stepped(s, commits) && Ours(commits) == []
    ensures s.talk == old(s.talk) + [Got(r)]
    ensures r.Found? ==> s.stored == Some(r.found) && r.found in s.history
  {
    commits := s.OtherWriters();
    NoneOfOurs(commits);
    r := s.Get();
  }

  /** The commit is what the exchange sent, over the object `read`. */
  ghost predicate Lands(c: Commit, x: Exchange, read: Resource) {
    && x.Wrote? && (x.err.Some? ==> x.err == Some(Failed))
    && c.mine && c.before == Some(read)
    && c.after.Some? && c.after.value == x.sent.(version := c.after.value.version)
  }

  /** Accepted only over the very object whose version it carries: `read`, which the server stored at some time. */
  method WriteServer(s: Server, read: Resource, r: Resource) returns (err: Option<ApiError>, ghost commits: seq<Commit>)
    requires s.Valid() && read in s.history && r.version == read.version
    modifies s
    ensures Stepped(s, commits)
    ensures s.talk == old(s.talk) + [Wrote(r, err)]
    ensures Ours(commits) == [] ==> err.Some?
    ensures Ours(commits) != [] ==> |Ours(commits)| == 1 && Lands(Ours(commits)[0], Wrote(r, err), read)
    ensures Ours(commits) != [] ==> s.stored == Ours(commits)[0].after
  {
    commits := s.OtherWriters();
    NoneOfOurs(commits);
    ghost var found, before := s.stored, s.log;
    err := s.Write(r);
    if s.log != before {
      assert found.value == read;
      ghost var c := Commit(true, found, s.stored);
      LinkedAppend(old(s.stored), commits, c);
      assert (commits + [c])[..|commits|] == commits;
      commits := commits + [c];
    }
  }

  /** Two stretches, one after the other. */
  lemma Compose(log: seq<Commit>, st0: Option<Resource>, x: seq<Commit>, st1: Option<Resource>, y: seq<Commit>,
                st2: Option<Resource>)
    requires Linked(st0, x, st1) && Linked(st1, y, st2)
    ensures log + x + y == log + (x + y)
    ensures Linked(st0, x + y, st2)
    ensures Ours(x + y) == Ours(x) + Ours(y)
    ensures st2.Some? ==> HadStatus(st0, x + y, st2.value.status)
    ensures forall status :: HadStatus(st1, y, status) ==> HadStatus(st0, x + y, status)
  {
    LinkedConcat(st0, x, st1, y, st2);
    OursConcat(x, y);
    if st2.Some? {
      LastState(st0, x + y, st2);
    }
    forall status | HadStatus(st1, y, status) ensures HadStatus(st0, x + y, status) {
      HadStatusLater(st0, x, st1, y, status);
    }
  }

  const RETRIES := 5

  /** Where a status update stands: about to send a status over `existing`, about to read again, or ended. */
  datatype Stage =
    | Writing(existing: Resource, attempt: nat)
    | Reading(attempt: nat)
    | Ended(err: Option<ApiError>)
    | Stuck

  /** With an object at hand: nothing to do, or a write. */
  function Settle(existing: Resource, desired: string, attempt: nat): Stage {
    if existing.status == desired then Ended(None) else Writing(existing, attempt)
  }

  /** What an exchange leads to; an exchange out of turn, or with another object in it, gets stuck. */
  function After(stage: Stage, x: Exchange, desired: string): Stage {
    match stage
    case Writing(existing, n) =>
      if !x.Wrote? || x.sent != existing.(status := desired) then Stuck
      else if x.err != Some(Conflict) then Ended(x.err)
      else if n + 1 == RETRIES then Ended(Some(Conflict))
      else Reading(n + 1)
    case Reading(n) =>
      if !x.Got? then Stuck
      else (match x.reply
            case NotFound => Ended(Some(Missing))
            case OtherError => Ended(Some(Failed))
            case Found(r) => Settle(r, desired, n))
    case _ => Stuck
  }

  /** The protocol of a status update: only conflicts are retried, each over a fresh read, at most so often. */
  function StageOf(informers: Resource, desired: string, said: seq<Exchange>): Stage {
    if said == [] then Settle(informers, desired, 0)
    else After(StageOf(informers, desired, said[..|said| - 1]), said[|said| - 1], desired)
  }

  /** The commit is the last exchange's write, over exactly the object the protocol had read for it. */
  ghost predicate OverRead(c: Commit, informers: Resource, desired: string, said: seq<Exchange>) {
    && said != []
    && var stage := StageOf(informers, desired, said[..|said| - 1]);
       stage.Writing? && Lands(c, said[|said| - 1], stage.existing)
  }

  lemma OverReadNow(c: Commit, informers: Resource, desired: string, said: seq<Exchange>, x: Exchange, read: Resource,
                    attempt: nat)
    requires StageOf(informers, desired, said) == Writing(read, attempt) && Lands(c, x, read)
    ensures OverRead(c, informers, desired, said + [x])
  {
    assert (said + [x])[..|said|] == said;
  }

  lemma StageNext(informers: Resource, desired: string, said: seq<Exchange>, x: Exchange, talk: seq<Exchange>)
    ensures StageOf(informers, desired, said + [x]) == After(StageOf(informers, desired, said), x, desired)
    ensures talk + said + [x] == talk + (said + [x])
  {
    assert (said + [x])[..|said|] == said;
  }

  /**
   * Write the desired status over the informer's copy, and after a conflict over a fresh one. At most one write is
   * accepted, over exactly the object it was computed from, and changes its status only. A nil return means the status
   * stood on the server at some moment of the call, given that the informer's copy did not carry it already.
   */
  method UpdateStatus(s: Server, informers: Resource, desired: string)
    returns (err: Option<ApiError>, ghost commits: seq<Commit>, ghost said: seq<Exchange>)
    requires s.Valid() && informers in s.history
    modifies s
    ensures Stepped(s, commits)
    ensures |Ours(commits)| <= 1 && (Ours(commits) != [] ==> StatusWrite(Ours(commits)[0], desired))
    ensures Ours(commits) != [] ==> OverRead(Ours(commits)[0], informers, desired, said)
    ensures err == None && informers.status != desired ==> HadStatus(old(s.stored), commits, desired)
    ensures informers.status == desired ==> Ours(commits) == []
    ensures s.talk == old(s.talk) + said && StageOf(informers, desired, said) == Ended(err)
  {
    hide Linked, Ours, HadStatus;
    NoCommits(s.stored);
    commits, said := [], [];
    ghost var opening := StageOf(informers, desired, []);
    hide StageOf, OverRead;
    var existing := informers;
    var attempts := 0;
    while attempts < RETRIES
      invariant attempts <= RETRIES && Stepped(s, commits) && Ours(commits) == []
      invariant attempts == 0 ==> existing == informers
      invariant attempts > 0 ==> informers.status != desired
      invariant existing in s.history
      invariant s.talk == old(s.talk) + said
      invariant StageOf(informers, desired, said) ==
                if attempts == 0 then Settle(informers, desired, 0)
                else if attempts == RETRIES then Ended(Some(Conflict))
                else Reading(attempts)
    {
      ghost var more;
      if attempts > 0 {
        ghost var before := s.stored;
        var got;
        got, more := ReadServer(s);
        StageNext(informers, desired, said, Got(got), old(s.talk));
        said := said + [Got(got)];
        Compose(old(s.log), old(s.stored), commits, before, more, s.stored);
        commits := commits + more;
        match got {
          case NotFound => return Some(Missing), commits, said;
          case OtherError => return Some(Failed), commits, said;
          case Found(r) => existing := r;
        }
      }
      if existing.status == desired {
        return None, commits, said;
      }
      ghost var before := s.stored;
      err, more := WriteServer(s, existing, existing.(status := desired));
      ghost var x := Wrote(existing.(status := desired), err);
      StageNext(informers, desired, said, x, old(s.talk));
      if Ours(more) != [] {
        OverReadNow(Ours(more)[0], informers, desired, said, x, existing, attempts);
      }
      said := said + [x];
      Compose(old(s.log), old(s.stored), commits, before, more, s.stored);
      commits := commits + more;
      if err != Some(Conflict) {
        return err, commits, said;
      }
      attempts := attempts + 1;
    }
    return Some(Conflict), commits, said;
  }

  lemma NoCommits(st: Option<Resource>)
    ensures Linked(st, [], st) && Ours([]) == []
  {
  }

  /* ---- Finalizers ---- */

  function Without(xs: seq<string>, x: string): (r: seq<string>)
    ensures Elements(r) == Elements(xs) - {x}
  {
    if xs == [] then []
    else
      assert xs == [xs[0]] + xs[1..];
      var rest := Without(xs[1..], x);
      assert Elements([xs[0]] + rest) == {xs[0]} + Elements(rest);
      if xs[0] == x then rest else [xs[0]] + rest
  }

  /** `sets.NewString(xs...).List()`. */
  function Listing(xs: seq<string>): (r: seq<string>)
    ensures Ascending(r) && Elements(r) == Elements(xs)
  {
    SortedUnion(xs, [])
  }

  /** How a finalizer step ends; `second` is the lister's answer it worked from. */
  datatype FinalizerStep = FinalizerStep(resource: Resource, err: bool, second: Option<Resource>)

  /**
   * The protocol of a finalizer step that wants `name` in the list or out of it: one look at the lister, and one write
   * over the very object it gave if that object is not as wanted. `step` reports the lister's answer and any failure.
   */
  ghost predicate FinalizerTalk(said: seq<Exchange>, name: string, wanted: bool, step: FinalizerStep) {
    && said != [] && said[0].Listed?
    && (if !said[0].reply.Found? then |said| == 1 && step.err && step.second == None
        else
          var existing := said[0].reply.found;
          && step.second == Some(existing)
          && (if wanted == (name in existing.finalizers) then |said| == 1 && !step.err
              else |said| == 2 && FinalizersSent(said[1], existing, name, wanted) && step.err == said[1].err.Some?))
  }

  /** The commit is the finalizer step's one write, over exactly the object the lister gave it. */
  ghost predicate OverSecond(c: Commit, said: seq<Exchange>, second: Option<Resource>) {
    |said| == 2 && second.Some? && Lands(c, said[1], second.value)
  }

  /** A write that sends `existing` with `name` added last to its finalizers, or with the others in order. */
  ghost predicate FinalizersSent(x: Exchange, existing: Resource, name: string, wanted: bool) {
    && x.Wrote? && x.sent == existing.(finalizers := x.sent.finalizers)
    && (if wanted then x.sent.finalizers == existing.finalizers + [name]
        else
          && Ascending(x.sent.finalizers)
          && Elements(x.sent.finalizers) == Elements(existing.finalizers) - {name})
  }

  /**
   * Bring the server's copy in line with `resource` as far as `name` goes. The write replaces the whole list, so
   * what it keeps is what was computed here: all other finalizers of the object it replaced.
   */
  method UpdateFinalizersFiltered(s: Server, name: string, resource: Resource)
    returns (r: FinalizerStep, ghost commits: seq<Commit>, ghost said: seq<Exchange>)
    requires s.Valid()
    modifies s
    ensures Stepped(s, commits) && |Ours(commits)| <= 1
    ensures Ours(commits) != [] ==> FinalizerWrite(Ours(commits)[0], name) && r.second == Ours(commits)[0].before
    ensures Ours(commits) != [] ==> (Removes(Ours(commits)[0], name) <==> name !in resource.finalizers)
    ensures Ours(commits) != [] ==> OverSecond(Ours(commits)[0], said, r.second)
    ensures !r.err ==> r.second.Some?
    ensures !r.err && Ours(commits) == [] ==>
              r.resource == resource && (name in resource.finalizers <==> name in r.second.value.finalizers)
    ensures !r.err && Ours(commits) != [] ==> Some(r.resource) == Ours(commits)[0].after
    ensures r.second.Some? ==> r.second.value in s.history
    ensures s.talk == old(s.talk) + said && FinalizerTalk(said, name, name in resource.finalizers, r)
  {
    hide Linked, Ours;
    var actual;
    actual, commits := ReadLister(s);
    said := [Listed(actual)];
    if !actual.Found? {
      return FinalizerStep(resource, true, None), commits, said;
    }
    var existing := actual.found;
    var finalizers;
    if name in resource.finalizers {
      if name in existing.finalizers {
        return FinalizerStep(resource, false, Some(existing)), commits, said;
      }
      finalizers := existing.finalizers + [name];
      assert Elements(finalizers) == Elements(existing.finalizers) + {name};
    } else {
      if name !in existing.finalizers {
        return FinalizerStep(resource, false, Some(existing)), commits, said;
      }
      finalizers := Listing(Without(existing.finalizers, name));
    }
    assert name in finalizers <==> name in Elements(finalizers);
    ghost var before := s.stored;
    var err;
    ghost var more;
    var sent := existing.(finalizers := finalizers);
    err, more := WriteServer(s, existing, sent);
    said := said + [Wrote(sent, err)];
    assert FinalizersSent(said[1], existing, name, name in resource.finalizers);
    assert s.talk == old(s.talk) + said;
    Compose(old(s.log), old(s.stored), commits, before, more, s.stored);
    commits := commits + more;
    if err.Some? {
      return FinalizerStep(resource, true, Some(existing)), commits, said;
    }
    r := FinalizerStep(s.stored.value, false, Some(existing));
  }

  /** Before reconciling: ask for the finalizer, unless the resource is being deleted. */
  method SetFinalizerIfFinalizer(s: Server, cfg: Config, resource: Resource)
    returns (r: FinalizerStep, ghost commits: seq<Commit>, ghost said: seq<Exchange>)
    requires s.Valid()
    modifies s
    ensures Stepped(s, commits) && |Ours(commits)| <= 1
    ensures Ours(commits) != [] ==> cfg.isFinalizer && FinalizerWrite(Ours(commits)[0], cfg.finalizerName)
    ensures Ours(commits) != [] ==> OverSecond(Ours(commits)[0], said, r.second)
    ensures Ours(commits) != [] && !resource.deleting ==> !Removes(Ours(commits)[0], cfg.finalizerName)
    ensures cfg.isFinalizer && !resource.deleting && !r.err ==>
              r.second.Some? && (Ours(commits) != [] <==> cfg.finalizerName !in r.second.value.finalizers)
    ensures r.second.Some? ==> r.second.value in s.history
    ensures s.talk == old(s.talk) + said
    ensures if cfg.isFinalizer then
              FinalizerTalk(said, cfg.finalizerName, !resource.deleting || cfg.finalizerName in resource.finalizers, r)
            else r == FinalizerStep(resource, false, None) && said == []
  {
    hide FinalizerTalk;
    if !cfg.isFinalizer {
      return FinalizerStep(resource, false, None), [], [];
    }
    var finalizers := Listing(resource.finalizers + if resource.deleting then [] else [cfg.finalizerName]);
    assert !resource.deleting ==> cfg.finalizerName in Elements(finalizers);
    assert cfg.finalizerName in finalizers <==> cfg.finalizerName in Elements(finalizers);
    assert cfg.finalizerName in resource.finalizers <==> cfg.finalizerName in Elements(resource.finalizers);
    assert resource.deleting ==> resource.finalizers + [] == resource.finalizers;
    r, commits, said := UpdateFinalizersFiltered(s, cfg.finalizerName, resource.(finalizers := finalizers));
  }

  /** Whether a finalize leaves the own finalizer wanted: it ended uncleanly and did not drop it itself. */
  predicate StillWanted(cfg: Config, finalizers: seq<string>, event: Event) {
    !Clean(event) && cfg.finalizerName in finalizers
  }

  /**
   * After finalizing: drop the finalizer if that went cleanly. It is removed from the server exactly when the lister's
   * second copy still has it and either the event was clean or the resource handed in had lost it already.
   */
  method ClearFinalizer(s: Server, cfg: Config, resource: Resource, event: Event)
    returns (r: FinalizerStep, ghost commits: seq<Commit>, ghost said: seq<Exchange>)
    requires s.Valid()
    modifies s
    ensures Stepped(s, commits) && |Ours(commits)| <= 1
    ensures Ours(commits) != [] ==>
              && cfg.isFinalizer && resource.deleting
              && FinalizerWrite(Ours(commits)[0], cfg.finalizerName) && r.second == Ours(commits)[0].before
              && OverSecond(Ours(commits)[0], said, r.second)
              && (Removes(Ours(commits)[0], cfg.finalizerName) <==>
                  Clean(event) || cfg.finalizerName !in resource.finalizers)
    ensures cfg.isFinalizer && resource.deleting && !r.err ==>
              && r.second.Some?
              && (Ours(commits) != [] <==>
                    ((Clean(event) || cfg.finalizerName !in resource.finalizers) <==>
                        cfg.finalizerName in r.second.value.finalizers))
    ensures !r.err && Ours(commits) == [] ==> r.resource.status == resource.status
    ensures !r.err && Ours(commits) != [] ==> Some(r.resource) == Ours(commits)[0].after
    ensures r.second.Some? ==> r.second.value in s.history
    ensures s.talk == old(s.talk) + said
    ensures if cfg.isFinalizer && resource.deleting then
              FinalizerTalk(said, cfg.finalizerName, StillWanted(cfg, resource.finalizers, event), r)
            else r == FinalizerStep(resource, false, None) && said == []
  {
    hide FinalizerTalk;
    if !cfg.isFinalizer || !resource.deleting {
      return FinalizerStep(resource, false, None), [], [];
    }
    var name := cfg.finalizerName;
    var finalizers := resource.finalizers;
    if !event.NoEvent? {
      if event.OfType? {
        if event.eventType == EVENT_TYPE_NORMAL {
          finalizers := Without(finalizers, name);
        }
      }
    } else {
      finalizers := Without(finalizers, name);
    }
    finalizers := Listing(finalizers);
    assert name in finalizers <==> name in Elements(finalizers);
    assert name in resource.finalizers <==> name in Elements(resource.finalizers);
    r, commits, said := UpdateFinalizersFiltered(s, name, resource.(finalizers := finalizers));
  }

  /* ---- The whole call ---- */

  function Slashes(s: string): nat {
    if s == [] then 0 else (if s[0] == '/' then 1 else 0) + Slashes(s[1..])
  }

  /** `SplitMetaNamespaceKey` takes a name, or a namespace and a name. */
  predicate ValidKey(key: string) {
    Slashes(key) <= 1
  }

  /** What one call saw: the lister's two copies, and the resource whose status it came to compare. */
  datatype Trace = Trace(first: Option<Resource>, kind: Kind, second: Option<Resource>, final: Option<Resource>)

  /** One call's exchanges: the lookup, the finalizer step's and the status update's, and what the last two came to. */
  datatype Talk = Talk(lookup: seq<Exchange>, asked: seq<Exchange>, step: Option<FinalizerStep>,
                       told: seq<Exchange>, err: Option<ApiError>)

  const SILENCE := Talk([], [], None, [], None)

  /** The finalizer step's exchanges are those its Kind calls for. */
  ghost predicate KindTalk(asked: seq<Exchange>, cfg: Config, kind: Kind, o: Outcome, step: FinalizerStep) {
    if kind.ReconcileKind? && cfg.isFinalizer then FinalizerTalk(asked, cfg.finalizerName, true, step)
    else if kind.FinalizeKind? then
      FinalizerTalk(asked, cfg.finalizerName, StillWanted(cfg, o.finalizers, o.event), step)
    else asked == [] && !step.err && step.second == None
  }

  /** The status is synchronized by a leader only, only if it changed, and unless that is to be skipped. */
  predicate MustSync(cfg: Config, isLeader: bool, first: Resource, status: string) {
    !cfg.skipStatusUpdates && first.status != status && isLeader
  }

  ghost predicate SyncTalk(told: seq<Exchange>, cfg: Config, isLeader: bool, first: Resource, status: string,
                           err: Option<ApiError>) {
    if MustSync(cfg, isLeader, first, status) then StageOf(first, status, told) == Ended(err)
    else told == [] && err == None
  }

  /**
   * One call from its exchanges: every answer of the informer and of the server is followed by what it calls for, and
   * the result is what they make it.
   */
  ghost predicate CallTalk(talk: Talk, cfg: Config, key: string, isLeader: bool, o: Outcome, t: Trace, result: Result) {
    if !ValidKey(key) then result == InvalidKey && talk == SILENCE
    else if !isLeader && !cfg.isROI then result == SkipKey && talk == SILENCE
    else
      && |talk.lookup| == 1 && talk.lookup[0].Listed?
      && (match talk.lookup[0].reply
          case NotFound => result == Gone && talk == SILENCE.(lookup := talk.lookup)
          case OtherError => result == LookupFailed && talk == SILENCE.(lookup := talk.lookup)
          case Found(first) =>
            && t.first == Some(first) && t.kind == KindFor(cfg, isLeader, first.deleting)
            && Concluded(talk, cfg, isLeader, o, t, first, result))
  }

  /** What follows a lookup that found the resource. */
  ghost predicate Concluded(talk: Talk, cfg: Config, isLeader: bool, o: Outcome, t: Trace, first: Resource,
                            result: Result) {
    && talk.step.Some? && t.second == talk.step.value.second
    && KindTalk(talk.asked, cfg, t.kind, o, talk.step.value)
    && (if talk.step.value.err then result == FinalizersFailed && talk.told == [] && talk.err == None
        else
          && t.final == Some(talk.step.value.resource)
          && SyncTalk(talk.told, cfg, isLeader, first, talk.step.value.resource.status, talk.err)
          && (if talk.err.Some? then result == StatusFailed else result.Done?))
  }

  /** What each write of one call may be, given what the call saw and said. */
  ghost predicate AllowedWrite(c: Commit, cfg: Config, isLeader: bool, o: Outcome, t: Trace, talk: Talk) {
    isLeader && t.first.Some? && (AllowedFinalizers(c, cfg, o, t, talk.asked) || AllowedStatus(c, cfg, t, talk.told))
  }

  ghost predicate AllowedFinalizers(c: Commit, cfg: Config, o: Outcome, t: Trace, asked: seq<Exchange>) {
    && cfg.isFinalizer && FinalizerWrite(c, cfg.finalizerName) && OverSecond(c, asked, t.second)
    && (Removes(c, cfg.finalizerName) ==> MayRemove(c, cfg, o, t))
  }

  ghost predicate AllowedStatus(c: Commit, cfg: Config, t: Trace, told: seq<Exchange>) {
    && !cfg.skipStatusUpdates && t.first.Some? && t.final.Some?
    && t.final.value.status != t.first.value.status && StatusWrite(c, t.final.value.status)
    && OverRead(c, t.first.value, t.final.value.status, told)
  }

  /** The writes of one call: at most one of the finalizers, then at most one of the status, each an allowed one. */
  ghost predicate AllowedWrites(ours: seq<Commit>, cfg: Config, isLeader: bool, o: Outcome, t: Trace, talk: Talk) {
    && |ours| <= 2
    && (|ours| == 2 ==> AllowedFinalizers(ours[0], cfg, o, t, talk.asked) && AllowedStatus(ours[1], cfg, t, talk.told))
    && forall i :: 0 <= i < |ours| ==> AllowedWrite(ours[i], cfg, isLeader, o, t, talk)
  }

  /**
   * The own finalizer goes only while finalizing, and cleanly, unless the two copies of the lister disagree
   * about it.
   */
  ghost predicate MayRemove(c: Commit, cfg: Config, o: Outcome, t: Trace) {
    && t.kind.FinalizeKind? && t.first.Some? && t.first.value.deleting && t.second.Some? && c.before == t.second
    && (Clean(o.event) || (cfg.finalizerName !in o.finalizers && cfg.finalizerName in t.second.value.finalizers))
  }

  ghost predicate Added(ours: seq<Commit>, name: string) {
    ours != [] && FinalizerWrite(ours[0], name) && !Removes(ours[0], name)
  }

  ghost predicate Removed(ours: seq<Commit>, name: string) {
    ours != [] && Removes(ours[0], name)
  }

  /** The Kind method that was due ran, and with it exactly the finalizer write it called for: `ours` are our writes. */
  ghost predicate KindRan(ours: seq<Commit>, cfg: Config, isLeader: bool, o: Outcome, t: Trace, event: Event) {
    var name := cfg.finalizerName;
    && t.first.Some? && t.kind == KindFor(cfg, isLeader, t.first.value.deleting)
    && event == (if t.kind.UnknownKind? then NoEvent else o.event)
    && (t.kind.ReconcileKind? && cfg.isFinalizer ==>
          && t.second.Some? && !Removed(ours, name)
          && (Added(ours, name) <==> name !in t.second.value.finalizers))
    && (t.kind.FinalizeKind? ==>
          && t.second.Some?
          && (Removed(ours, name) <==>
                (Clean(o.event) || name !in o.finalizers) && name in t.second.value.finalizers)
          && (Added(ours, name) <==>
                !(Clean(o.event) || name !in o.finalizers) && name !in t.second.value.finalizers))
  }

  /**
   * The status the write-back compares: what the Kind method left, or what a finalizer write after it brought
   * along.
   */
  ghost predicate FinalStatus(ours: seq<Commit>, cfg: Config, t: Trace, o: Outcome, status: string) {
    match t.kind
    case ReconcileKind => status == o.status
    case ObserveKind => status == o.status
    case FinalizeKind =>
      status ==
      if ours != [] && FinalizerWrite(ours[0], cfg.finalizerName) then ours[0].after.value.status
      else o.status
    case UnknownKind => t.first.Some? && status == t.first.value.status
  }

  /** A status write is no finalizer write. */
  lemma StatusWriteKeepsFinalizers(c: Commit, status: string, name: string)
    requires StatusWrite(c, status)
    ensures !FinalizerWrite(c, name)
  {
  }

  /** Status writes after it leave what is said of a Kind method's own write. */
  lemma KindRanAside(ours: seq<Commit>, more: seq<Commit>, cfg: Config, isLeader: bool, o: Outcome, t: Trace,
                     event: Event, final: Resource)
    requires KindRan(ours, cfg, isLeader, o, t, event) && FinalStatus(ours, cfg, t, o, final.status)
    requires more != [] ==> StatusWrite(more[0], final.status)
    ensures KindRan(ours + more, cfg, isLeader, o, t.(final := Some(final)), event)
    ensures FinalStatus(ours + more, cfg, t.(final := Some(final)), o, final.status)
  {
    var all, name := ours + more, cfg.finalizerName;
    if more != [] {
      StatusWriteKeepsFinalizers(more[0], final.status, name);
    }
    assert ours != [] ==> all[0] == ours[0];
    assert ours == [] ==> all == more;
    hide StatusWrite, FinalizerWrite;
    assert Added(all, name) <==> Added(ours, name);
    assert Removed(all, name) <==> Removed(ours, name);
  }

  lemma FinalAside(ours: seq<Commit>, cfg: Config, o: Outcome, t: Trace, asked: seq<Exchange>, final: Resource)
    ensures ours != [] && AllowedFinalizers(ours[0], cfg, o, t, asked) ==>
        AllowedFinalizers(ours[0], cfg, o, t.(final := Some(final)), asked)
  {
  }

  /** Run the Kind method with its finalizer step; on an error `t.final` stays empty. */
  method RunKind(s: Server, cfg: Config, isLeader: bool, original: Resource, o: Outcome)
    returns (step: FinalizerStep, event: Event, ghost commits: seq<Commit>, ghost t: Trace, ghost said: seq<Exchange>)
    requires s.Valid() && (isLeader || cfg.isROI)
    modifies s
    ensures Stepped(s, commits) && |Ours(commits)| <= 1
    ensures t.first == Some(original) && t.final == None && t.kind == KindFor(cfg, isLeader, original.deleting)
    ensures t.second == step.second && (t.second.Some? ==> t.second.value in s.history)
    ensures Ours(commits) != [] ==> isLeader && AllowedFinalizers(Ours(commits)[0], cfg, o, t, said)
    ensures !step.err ==> KindRan(Ours(commits), cfg, isLeader, o, t, event)
    ensures !step.err ==> FinalStatus(Ours(commits), cfg, t, o, step.resource.status)
    ensures s.talk == old(s.talk) + said && KindTalk(said, cfg, t.kind, o, step)
  {
    hide FinalizerTalk;
    var kind := KindFor(cfg, isLeader, original.deleting);
    commits, event, said := [], NoEvent, [];
    step := FinalizerStep(original, false, None);
    match kind {
      case ReconcileKind =>
        step, commits, said := SetFinalizerIfFinalizer(s, cfg, original);
        if !step.err {
          event := o.event;
        }
        var left := step.resource.(finalizers := o.finalizers, status := o.status);
        TalkIgnoresResource(said, cfg.finalizerName, true, step, left);
        step := step.(resource := left);
      case FinalizeKind =>
        event := o.event;
        step, commits, said := ClearFinalizer(s, cfg, original.(finalizers := o.finalizers, status := o.status), event);
      case ObserveKind =>
        event := o.event;
        step := step.(resource := original.(finalizers := o.finalizers, status := o.status));
      case UnknownKind =>
    }
    t := Trace(Some(original), kind, step.second, None);
  }

  lemma TalkIgnoresResource(said: seq<Exchange>, name: string, wanted: bool, step: FinalizerStep, r: Resource)
    ensures FinalizerTalk(said, name, wanted, step.(resource := r)) == FinalizerTalk(said, name, wanted, step)
  {
  }

  /** Write the status back, if it changed, this instance leads and nothing tells it to skip that. */
  method SyncStatus(s: Server, cfg: Config, isLeader: bool, original: Resource, status: string)
    returns (err: Option<ApiError>, ghost commits: seq<Commit>, ghost told: seq<Exchange>)
    requires s.Valid() && original in s.history
    modifies s
    ensures Stepped(s, commits) && |Ours(commits)| <= 1
    ensures Ours(commits) != [] ==>
              && isLeader && !cfg.skipStatusUpdates && original.status != status
              && StatusWrite(Ours(commits)[0], status) && OverRead(Ours(commits)[0], original, status, told)
    ensures err == None && isLeader && !cfg.skipStatusUpdates && original.status != status ==>
              HadStatus(old(s.stored), commits, status)
    ensures s.talk == old(s.talk) + told && SyncTalk(told, cfg, isLeader, original, status, err)
  {
    err, commits, told := None, [], [];
    if cfg.skipStatusUpdates {
    } else if original.status == status {
    } else if !isLeader {
    } else {
      err, commits, told := UpdateStatus(s, original, status);
    }
  }

  /** What is returned for the event of a call that got through. */
  method Report(event: Event) returns (result: Result)
    ensures result == Done(event, Fails(event))
  {
    if !event.NoEvent? {
      if event.OfType? {
        if event.wrapped {
          return Done(event, true);
        }
        return Done(event, false);
      }
      return Done(event, true);
    }
    result := Done(event, false);
  }

  /** The part of a call that follows a lookup that found the resource. */
  method Conclude(s: Server, cfg: Config, isLeader: bool, original: Resource, o: Outcome)
    returns (result: Result, ghost commits: seq<Commit>, ghost t: Trace, ghost talk: Talk)
    requires s.Valid() && (isLeader || cfg.isROI) && original in s.history
    modifies s
    ensures Stepped(s, commits)
    ensures s.talk == old(s.talk) + (talk.asked + talk.told) && talk.lookup == []
    ensures t.first == Some(original) && t.kind == KindFor(cfg, isLeader, original.deleting)
    ensures Concluded(talk, cfg, isLeader, o, t, original, result)
    ensures t.second.Some? ==> t.second.value in s.history
    ensures AllowedWrites(Ours(commits), cfg, isLeader, o, t, talk)
    ensures !isLeader ==> Ours(commits) == []
    ensures result.Done? && isLeader && !cfg.skipStatusUpdates ==>
              t.final.Some? && (t.final.value.status != original.status ==>
                                  HadStatus(old(s.stored), commits, t.final.value.status))
    ensures result.Done? ==> (result.failed <==> Fails(result.event))
    ensures result.Done? ==> KindRan(Ours(commits), cfg, isLeader, o, t, result.event)
    ensures result.Done? || result.StatusFailed? <==> t.final.Some?
    ensures t.final.Some? ==> FinalStatus(Ours(commits), cfg, t, o, t.final.value.status)
  {
    hide Linked, Ours, HadStatus, FinalizerWrite, StatusWrite, Removes, MayRemove, Clean, OverRead, OverSecond;
    hide KindRan, FinalStatus, Fails, KindTalk, SyncTalk;
    var step, event;
    ghost var said;
    step, event, commits, t, said := RunKind(s, cfg, isLeader, original, o);
    talk := SILENCE.(asked := said, step := Some(step));
    if step.err {
      assert said + [] == said;
      return FinalizersFailed, commits, t, talk;
    }
    FinalAside(Ours(commits), cfg, o, t, said, step.resource);
    ghost var ran, ours, before := t, Ours(commits), s.stored;
    t := t.(final := Some(step.resource));
    var err;
    ghost var more, told;
    err, more, told := SyncStatus(s, cfg, isLeader, original, step.resource.status);
    assert old(s.talk) + said + told == old(s.talk) + (said + told);
    talk := talk.(told := told, err := err);
    Compose(old(s.log), old(s.stored), commits, before, more, s.stored);
    commits := commits + more;
    KindRanAside(ours, Ours(more), cfg, isLeader, o, ran, event, step.resource);
    if err.Some? {
      return StatusFailed, commits, t, talk;
    }
    result := Report(event);
  }

  /** `isLeader` is read once, when the call's state is taken; `o` is what the Kind method does to its copy. */
  method Reconcile(s: Server, cfg: Config, key: string, isLeader: bool, o: Outcome)
    returns (result: Result, ghost commits: seq<Commit>, ghost t: Trace, ghost talk: Talk)
    requires s.Valid()
    modifies s
    ensures Stepped(s, commits)
    ensures s.talk == old(s.talk) + (talk.lookup + (talk.asked + talk.told))
    ensures CallTalk(talk, cfg, key, isLeader, o, t, result)
    ensures t.first.Some? ==> t.first.value in s.history
    ensures t.second.Some? ==> t.second.value in s.history
    ensures AllowedWrites(Ours(commits), cfg, isLeader, o, t, talk)
    ensures !isLeader || !ValidKey(key) ==> Ours(commits) == []
    ensures result.InvalidKey? <==> !ValidKey(key)
    ensures result.SkipKey? <==> ValidKey(key) && !isLeader && !cfg.isROI
    ensures result.Done? && isLeader && !cfg.skipStatusUpdates ==>
              && t.first.Some? && t.final.Some?
              && (t.final.value.status != t.first.value.status ==>
                    HadStatus(old(s.stored), commits, t.final.value.status))
    ensures result.Done? ==> (result.failed <==> Fails(result.event))
    ensures result.Done? ==> KindRan(Ours(commits), cfg, isLeader, o, t, result.event)
    ensures result.Done? || result.StatusFailed? <==> t.final.Some?
    ensures t.final.Some? ==> FinalStatus(Ours(commits), cfg, t, o, t.final.value.status)
  {
    hide Linked, Ours, HadStatus, AllowedFinalizers, AllowedStatus, Clean, KindRan, FinalStatus, Fails, Concluded;
    NoCommits(s.stored);
    t, commits, talk := Trace(None, UnknownKind, None, None), [], SILENCE;
    if !ValidKey(key) {
      return InvalidKey, commits, t, talk;
    }
    if !isLeader && !cfg.isROI {
      return SkipKey, commits, t, talk;
    }
    var got;
    got, commits := ReadLister(s);
    talk := SILENCE.(lookup := [Listed(got)]);
    match got {
      case NotFound => return Gone, commits, t, talk;
      case OtherError => return LookupFailed, commits, t, talk;
      case Found(_) =>
    }
    ghost var more, before, rest := [], s.stored, SILENCE;
    result, more, t, rest := Conclude(s, cfg, isLeader, got.found, o);
    ghost var later := rest.asked + rest.told;
    assert old(s.talk) + [Listed(got)] + later == old(s.talk) + ([Listed(got)] + later);
    talk := rest.(lookup := [Listed(got)]);
    LookupAside(rest, [Listed(got)], cfg, isLeader, o, t, got.found, result);
    Compose(old(s.log), old(s.stored), commits, before, more, s.stored);
    commits := commits + more;
    assert [] + Ours(more) == Ours(more);
  }

  lemma LookupAside(talk: Talk, lookup: seq<Exchange>, cfg: Config, isLeader: bool, o: Outcome, t: Trace,
                    first: Resource, result: Result)
    requires Concluded(talk, cfg, isLeader, o, t, first, result)
    ensures Concluded(talk.(lookup := lookup), cfg, isLeader, o, t, first, result)
  {
  }

  /** A call may fail and yet have finalized: exactly for a Normal event wrapped in an error. */
  lemma FailedButClean(e: Event)
    ensures Fails(e) && Clean(e) <==> e == OfType(EVENT_TYPE_NORMAL, true)
  {
  }

  lemma HadStatusLater(st0: Option<Resource>, first: seq<Commit>, st1: Option<Resource>, more: seq<Commit>,
                       status: string)
    requires Linked(st0, first, st1)
    ensures HadStatus(st1, more, status) ==> HadStatus(st0, first + more, status)
  {
    if !HadStatus(st1, more, status) {
    } else if st1.Some? && st1.value.status == status {
      LastState(st0, first, st1);
      HadStatusGrows(st0, first, more, status);
    } else {
      var i :| 0 <= i < |more| && more[i].after.Some? && more[i].after.value.status == status;
      assert (first + more)[|first| + i] == more[i];
    }
  }

  /**
   * Where the lister's two copies agree, only a clean finalize removes ours, or one that dropped it from its own
   * copy.
   */
  lemma RemovedOnlyCleanly(c: Commit, cfg: Config, isLeader: bool, o: Outcome, t: Trace, talk: Talk)
    requires AllowedWrite(c, cfg, isLeader, o, t, talk) && Removes(c, cfg.finalizerName)
    requires t.second.Some? ==>
               (cfg.finalizerName in t.first.value.finalizers <==> cfg.finalizerName in t.second.value.finalizers)
    ensures isLeader && t.kind.FinalizeKind? && t.first.value.deleting
    ensures Clean(o.event) || (cfg.finalizerName in t.first.value.finalizers && cfg.finalizerName !in o.finalizers)
  {
    assert !AllowedStatus(c, cfg, t, talk.told) by {
      assert c.after.value.finalizers != c.before.value.finalizers;
    }
  }

  /**
   * The interface promises that changes to Finalizers are ignored. They are not: on every call that finalizes without a
   * clean end, the lister's copies being the same, the own finalizer goes exactly if FinalizeKind dropped it.
   */
  lemma FailedFinalizeRemoves(ours: seq<Commit>, cfg: Config, isLeader: bool, o: Outcome, t: Trace, event: Event)
    requires KindRan(ours, cfg, isLeader, o, t, event)
    requires t.kind.FinalizeKind? && t.first == t.second && !Clean(event)
    ensures Removed(ours, cfg.finalizerName) <==>
              cfg.finalizerName in t.first.value.finalizers && cfg.finalizerName !in o.finalizers
  {
    hide Removes;
  }

  /** An input of that kind: the one finalizer there is goes with a finalize that failed. */
  lemma FailedFinalizeLosesFinalizer()
    ensures var cfg, o := Config(true, false, false, "f"), Outcome([], "", OtherEvent);
            var read := Resource(0, true, ["f"], "", "");
            var c := Commit(true, Some(read), Some(read.(finalizers := [], version := 1)));
            var t := Trace(Some(read), FinalizeKind, Some(read), Some(c.after.value));
            KindRan([c], cfg, true, o, t, OtherEvent) && Removed([c], "f")
  {
    var read := Resource(0, true, ["f"], "", "");
    var c := Commit(true, Some(read), Some(read.(finalizers := [], version := 1)));
    assert Elements(["f"]) - {"f"} == Elements([]) - {"f"};
    assert Removes(c, "f");
  }

  /** Every write of a call keeps the finalizers of everyone else. */
  lemma OthersFinalizersKept(c: Commit, cfg: Config, isLeader: bool, o: Outcome, t: Trace, talk: Talk)
    requires AllowedWrite(c, cfg, isLeader, o, t, talk)
    ensures c.before.Some? && c.after.Some?
    ensures Elements(c.after.value.finalizers) - {cfg.finalizerName} ==
        Elements(c.before.value.finalizers) - {cfg.finalizerName}
    ensures c.after.value.spec == c.before.value.spec && c.after.value.deleting == c.before.value.deleting
    ensures c.after.value.status == c.before.value.status || c.after.value.finalizers == c.before.value.finalizers
  {
    hide MayRemove;
  }
}
