/** A Kubernetes API server holding one BrokerBinding, written to by this controller and by others. */
module ApiServer {
  import opened Mesh

  datatype Resource = Resource(version: nat, deleting: bool, finalizers: seq<string>, spec: string, status: string)

  /** One accepted write: what was stored before it and after it, and whether it was this controller's. */
  datatype Commit = Commit(mine: bool, before: Option<Resource>, after: Option<Resource>)

  datatype ApiError = Conflict | Missing | Failed

  /** One exchange of this controller with its informer or with the server: what it asked or sent, and the answer. */
  datatype Exchange =
    | Listed(reply: Reply<Resource>)
    | Got(reply: Reply<Resource>)
    | Wrote(sent: Resource, err: Option<ApiError>)

  class Server {
    var stored: Option<Resource>
    var next: nat
    /** Every object ever stored; informers hand these out. */
    var history: set<Resource>
    var log: seq<Commit>
    /** This controller's exchanges, in order. */
    var talk: seq<Exchange>

    /** A resource version belongs to one object only. */
    ghost predicate Valid()
      reads this
    {
      && (forall r :: r in history ==> r.version < next)
      && (forall q, r :: q in history && r in history && q.version == r.version ==> q == r)
      && (stored.Some? ==> stored.value in history)
    }

    constructor ()
      ensures Valid() && stored == None && history == {} && log == [] && talk == []
    {
      stored, next, history, log, talk := None, 0, {}, [], [];
    }

    method Store(r: Resource, mine: bool)
      requires Valid()
      modifies this
      ensures talk == old(talk)
      ensures Valid()
      ensures stored == Some(r.(version := old(next)))
      ensures history == old(history) + {r.(version := old(next))}
      ensures log == old(log) + [Commit(mine, old(stored), stored)]
    {
      var fresh_ := r.(version := next);
      log := log + [Commit(mine, stored, Some(fresh_))];
      stored, history, next := Some(fresh_), history + {fresh_}, next + 1;
    }

    /** Any number of writes and deletions by others, between two steps of ours. */
    method OtherWriters() returns (ghost commits: seq<Commit>)
      requires Valid()
      modifies this
      ensures Stepped(this, commits) && talk == old(talk)
      ensures forall i :: 0 <= i < |commits| ==> !commits[i].mine
    {
      commits := [];
      var n: int :| 0 <= n;
      for i := 0 to n
        invariant Stepped(this, commits) && talk == old(talk)
        invariant forall i :: 0 <= i < |commits| ==> !commits[i].mine
      {
        var delete: bool := *;
        ghost var c;
        if delete {
          c := Commit(false, stored, None);
          log, stored := log + [Commit(false, stored, None)], None;
        } else {
          var r: Resource := *;
          c := Commit(false, stored, Some(r.(version := next)));
          Store(r, false);
        }
        LinkedAppend(old(stored), commits, c);
        commits := commits + [c];
      }
    }

    /** An informer's lister: some object the server stored at some time, or no such object, or an error. */
    method ListerGet() returns (r: Reply<Resource>)
      requires Valid()
      modifies this`talk
      ensures Valid() && talk == old(talk) + [Listed(r)]
      ensures r.Found? ==> r.found in history
    {
      var broken, known: bool := *, *;
      if broken {
        r := OtherError;
      } else if !known || history == {} {
        r := NotFound;
      } else {
        var some :| some in history;
        r := Found(some);
      }
      talk := talk + [Listed(r)];
    }

    /** A read through the API. */
    method Get() returns (r: Reply<Resource>)
      requires Valid()
      modifies this`talk
      ensures Valid() && talk == old(talk) + [Got(r)]
      ensures r.Found? ==> stored == Some(r.found)
    {
      var broken: bool := *;
      r := if broken then OtherError else if stored.None? then NotFound else Found(stored.value);
      talk := talk + [Got(r)];
    }

    /** A write that carries the version it was computed from; the answer to an accepted one may get lost. */
    method Write(r: Resource) returns (err: Option<ApiError>)
      requires Valid()
      modifies this
      ensures Valid() && old(history) <= history && talk == old(talk) + [Wrote(r, err)]
      ensures
        || (unchanged(`stored) && unchanged(`next) && unchanged(`history) && unchanged(`log) && err.Some?)
        || (&& old(stored).Some? && old(stored).value.version == r.version
            && stored == Some(r.(version := old(next)))
            && log == old(log) + [Commit(true, old(stored), stored)]
            && err in {None, Some(Failed)})
    {
      var sent: bool := *;
      var answered: bool := *;
      if !sent {
        err := Some(Failed);
      } else if stored.None? {
        err := Some(Missing);
      } else if stored.value.version != r.version {
        err := Some(Conflict);
      } else {
        Store(r, true);
        err := if answered then None else Some(Failed);
      }
      talk := talk + [Wrote(r, err)];
    }
  }

  /** A stretch of time: the commits made, by anyone, and nothing forgotten. */
  twostate predicate Stepped(s: Server, commits: seq<Commit>)
    reads s
  {
    && s.Valid()
    && old(s.history) <= s.history
    && s.log == old(s.log) + commits
    && Linked(old(s.stored), commits, s.stored)
  }

  /** The commits lead from one stored state to the other, each starting where the one before it ended. */
  ghost predicate Linked(from: Option<Resource>, commits: seq<Commit>, to: Option<Resource>)
    decreases |commits|
  {
    if commits == [] then from == to
    else commits[|commits| - 1].after == to
         && Linked(from, commits[..|commits| - 1], commits[|commits| - 1].before)
  }

  lemma LinkedAppend(from: Option<Resource>, commits: seq<Commit>, c: Commit)
    requires Linked(from, commits, c.before)
    ensures Linked(from, commits + [c], c.after)
  {
    assert (commits + [c])[..|commits|] == commits;
  }

  lemma {:induction false} LinkedConcat(from: Option<Resource>, x: seq<Commit>, mid: Option<Resource>,
                                        y: seq<Commit>, to: Option<Resource>)
    requires Linked(from, x, mid) && Linked(mid, y, to)
    ensures Linked(from, x + y, to)
    decreases |y|
  {
    if y == [] {
      assert x + y == x;
    } else {
      var last := y[|y| - 1];
      LinkedConcat(from, x, mid, y[..|y| - 1], last.before);
      assert x + y == (x + y[..|y| - 1]) + [last];
      LinkedAppend(from, x + y[..|y| - 1], last);
    }
  }
}
