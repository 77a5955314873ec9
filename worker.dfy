/** The service worker itself: its global scope holds the `caches` object
    and records whether `skipWaiting` was requested. Each listener of
    build/sw.js is one method, run as a single sequential step. */
module ServiceWorker {
  import opened Wrappers
  import opened Config
  import opened CacheStore
  import opened Router
  import opened Fetch
  import opened Lifecycle
  import opened Control

  class Worker {
    const caches: CacheStorage
    /** Scheme, host and port the worker's relative URLs resolve against. */
    const origin: string
    var skipWaitingRequested: bool

    ghost predicate Valid()
      reads this, caches
    {
      caches.Valid()
    }

    constructor (caches: CacheStorage, origin: string)
      requires caches.Valid()
      ensures Valid() && this.caches == caches && this.origin == origin
      ensures !skipWaitingRequested
    {
      this.caches := caches;
      this.origin := origin;
      skipWaitingRequested := false;
    }

    /** The `install` listener; `installed` is whether `waitUntil`'s promise
        fulfils. */
    method OnInstall(netStatic: string -> Option<Response>, netLogin: string -> Option<Response>) returns (installed: bool)
      requires Valid()
      modifies caches
      ensures Valid()
      ensures (installed, caches.Value()) == Install(old(caches.Value()), origin, netStatic, netLogin)
    {
      TwoBatches(caches.Value(), StaticCache, StaticUrls(origin), netStatic, LoginCache, LoginUrls(origin), netLogin);
      CurrentNamesDistinct();
      var staticOk := caches.AddAll(StaticCache, StaticUrls(origin), netStatic);
      var loginOk := caches.AddAll(LoginCache, LoginUrls(origin), netLogin);
      installed := staticOk && loginOk;
    }

    /** The `fetch` listener. `fetched` says whether the worker itself went
        to the network. */
    method OnFetch(req: Request, net: Option<Response>) returns (outcome: Outcome, fetched: bool)
      requires Valid()
      modifies caches
      ensures Valid()
      ensures Step(outcome, caches.Value(), fetched) == HandleFetch(old(caches.Value()), origin, req, net)
    {
      var route := Classify(req);
      if route == PassThrough {
        return NotIntercepted, false;
      }
      if route == Api {
        outcome := Responded(Some(net.GetOr(OfflineApiResponse())));
        return outcome, true;
      }
      var partition := PartitionFor(route);
      var fallback := route == EntryPoint || req.destination == "document";
      var cached := MatchAny(caches.Value(), req.url);
      if cached.Some? {
        return Responded(cached), false;
      }
      fetched := true;
      match net {
        case Some(resp) =>
          outcome := Responded(Some(resp));
          if resp.status == 200 {
            caches.Put(partition, req.url, resp);
          }
        case None =>
          if fallback {
            outcome := Responded(MatchAny(caches.Value(), Resolve(origin, "/")));
          } else {
            outcome := Responded(None);
          }
      }
    }

    /** The `activate` listener: walks the names `caches.keys()` returned
        and deletes each one that is not current. */
    method OnActivate()
      requires Valid()
      modifies caches
      ensures Valid()
      ensures caches.Value() == Activate(old(caches.Value()))
    {
      var cacheNames := caches.Keys();
      ghost var start := caches.Value();
      var i := 0;
      assert cacheNames[..0] == [];
      while i < |cacheNames|
        invariant 0 <= i <= |cacheNames|
        invariant caches.Valid()
        invariant caches.Value() == Sweep(start, cacheNames[..i])
      {
        var cacheName := cacheNames[i];
        SweepSnoc(start, cacheNames[..i], cacheName);
        assert cacheNames[..i + 1] == cacheNames[..i] + [cacheName];
        if !IsCurrentName(cacheName) {
          var _ := caches.Delete(cacheName);
        }
        i := i + 1;
      }
      assert cacheNames[..i] == cacheNames;
      SweepActivates(start);
    }

    /** The `message` listener. */
    method OnMessage(messageType: Option<string>, ports: nat) returns (reply: Reply)
      modifies this
      ensures var e := RouteMessage(messageType, ports);
        reply == e.reply && skipWaitingRequested == (old(skipWaitingRequested) || e.skipWaiting)
    {
      var e := RouteMessage(messageType, ports);
      if e.skipWaiting {
        skipWaitingRequested := true;
      }
      reply := e.reply;
    }
  }

  /** The store after the activation loop has visited the names in `done`,
      in order: each stale one was deleted. */
  ghost function Sweep(s: Store, done: seq<string>): Store
    decreases |done|
  {
    if done == [] then s
    else
      var prev := Sweep(s, done[..|done| - 1]);
      var x := done[|done| - 1];
      if IsCurrentName(x) then prev else DeletePartition(prev, x)
  }

  /** Visiting one more name deletes it exactly when it is stale. */
  lemma SweepSnoc(s: Store, done: seq<string>, x: string)
    ensures Sweep(s, done + [x]) == if IsCurrentName(x) then Sweep(s, done) else DeletePartition(Sweep(s, done), x)
  {
    assert (done + [x])[..|done|] == done;
  }

  /** The partitions of `before` left once the names in `done` were
      visited: the visited stale ones are gone. */
  ghost function Swept(before: map<string, map<string, Response>>, done: seq<string>): map<string, map<string, Response>>
  {
    map n | n in before && (IsCurrentName(n) || n !in done) :: before[n]
  }

  /** Visiting `names[i]` keeps the listing in step: a deletion removes the
      name from between the kept prefix and the unvisited rest. */
  lemma SweepStepNames(names: seq<string>, i: int)
    requires Distinct(names) && 0 <= i < |names|
    ensures KeepCurrent(names[..i + 1]) + names[i + 1..] ==
      if IsCurrentName(names[i]) then KeepCurrent(names[..i]) + names[i..]
      else Remove(KeepCurrent(names[..i]) + names[i..], names[i])
  {
    var x := names[i];
    assert names[..i + 1] == names[..i] + [x];
    KeepCurrentSnoc(names[..i], x);
    assert names[i..] == [x] + names[i + 1..];
    if !IsCurrentName(x) {
      var after := names[i + 1..];
      forall k | 0 <= k < |after| ensures after[k] != x {
        assert after[k] == names[i + 1 + k];
      }
      forall k | 0 <= k < i ensures names[..i][k] != x {
        assert names[..i][k] == names[k];
      }
      KeepCurrentFacts(names[..i]);
      RemoveSplit(KeepCurrent(names[..i]), x, after);
      assert KeepCurrent(names[..i]) + names[i..] == KeepCurrent(names[..i]) + [x] + after;
    }
  }

  /** Visiting `names[i]` keeps the table in step: a deletion drops the name. */
  lemma SweepStepTable(before: map<string, map<string, Response>>, names: seq<string>, i: int)
    requires Distinct(names) && 0 <= i < |names|
    ensures Swept(before, names[..i + 1]) ==
      if IsCurrentName(names[i]) then Swept(before, names[..i])
      else Swept(before, names[..i]) - {names[i]}
  {
    assert names[..i + 1] == names[..i] + [names[i]];
  }

  /** After visiting the first `i` listed names, the listing is the kept
      part of the prefix followed by the unvisited names, and the table has
      lost exactly the visited stale partitions. */
  lemma {:induction false} SweepPrefix(s: Store, i: nat)
    requires WellFormed(s) && i <= |s.names|
    ensures Sweep(s, s.names[..i]) == Store(KeepCurrent(s.names[..i]) + s.names[i..], Swept(s.parts, s.names[..i]))
  {
    if i == 0 {
      assert s.names[..0] == [] && s.names[0..] == s.names;
      assert Swept(s.parts, []) == s.parts;
    } else {
      var done, x := s.names[..i], s.names[i - 1];
      SweepPrefix(s, i - 1);
      assert done[..i - 1] == s.names[..i - 1] && done[i - 1] == x;
      var prev := Sweep(s, s.names[..i - 1]);
      assert Sweep(s, done) == if IsCurrentName(x) then prev else DeletePartition(prev, x);
      SweepStepNames(s.names, i - 1);
      SweepStepTable(s.parts, s.names, i - 1);
      if !IsCurrentName(x) {
        assert DeletePartition(prev, x) == Store(Remove(prev.names, x), prev.parts - {x});
      }
    }
  }

  /** Visiting every listed name yields the activated store. */
  lemma SweepActivates(s: Store)
    requires WellFormed(s)
    ensures Sweep(s, s.names) == Activate(s)
  {
    SweepPrefix(s, |s.names|);
    assert s.names[..|s.names|] == s.names && s.names[|s.names|..] == [];
    assert KeepCurrent(s.names) + [] == KeepCurrent(s.names);
  }
}
