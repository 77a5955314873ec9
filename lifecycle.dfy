/** The `install` and `activate` listeners of build/sw.js, as functions of
    the cache store before the event. */
module Lifecycle {
  import opened Wrappers
  import opened Config
  import opened CacheStore

  /** The Static manifest and the login assets, as the absolute URLs the
      browser fetches and stores them under. */
  function StaticUrls(origin: string): seq<string> { ResolveAll(origin, UrlsToCache) }
  function LoginUrls(origin: string): seq<string> { ResolveAll(origin, LoginAssets) }

  /** Resolving a duplicate-free list of paths gives a duplicate-free list
      of URLs. */
  lemma ResolveAllDistinct(origin: string, paths: seq<string>)
    requires Distinct(paths)
    ensures Distinct(ResolveAll(origin, paths))
  {
    var urls := ResolveAll(origin, paths);
    forall i, j | 0 <= i < j < |urls| ensures urls[i] != urls[j] {
      ResolveCancels(origin, paths[i], paths[j]);
    }
  }

  /** The entries of `xs` at positions `lo` to `hi - 1` each differ from
      every later entry. */
  predicate DistinctFrom(xs: seq<string>, lo: int, hi: int) {
    forall i, j :: 0 <= i && lo <= i < hi && i < j < |xs| ==> xs[i] != xs[j]
  }

  /** The Static manifest has no repeated path, checked in four bands of
      positions so that each comparison of literals stays small. */
  lemma UrlsToCacheBand1() ensures DistinctFrom(UrlsToCache, 0, 3) {}
  lemma UrlsToCacheBand2() ensures DistinctFrom(UrlsToCache, 3, 7) {}
  lemma UrlsToCacheBand3() ensures DistinctFrom(UrlsToCache, 7, 12) {}
  lemma UrlsToCacheBand4() ensures DistinctFrom(UrlsToCache, 12, |UrlsToCache|) {}

  /** Neither install batch lists a URL twice, whatever the origin. */
  lemma ManifestsDistinct(origin: string)
    ensures Distinct(StaticUrls(origin)) && Distinct(LoginUrls(origin))
  {
    UrlsToCacheBand1();
    UrlsToCacheBand2();
    UrlsToCacheBand3();
    UrlsToCacheBand4();
    assert Distinct(UrlsToCache);
    assert Distinct(LoginAssets);
    ResolveAllDistinct(origin, UrlsToCache);
    ResolveAllDistinct(origin, LoginAssets);
  }

  /** install: open Static and `addAll` the manifest; open Login and
      `addAll` the login assets. Each batch issues its own fetches:
      `netStatic` and `netLogin` are the network's answers per URL to the
      first and to the second. The event succeeds only when both batches
      do, and both partitions exist afterwards whatever the outcome. */
  function Install(s: Store, origin: string, netStatic: string -> Option<Response>, netLogin: string -> Option<Response>): (r: (bool, Store))
    ensures StaticCache in r.1.parts && LoginCache in r.1.parts
    ensures s.parts.Keys <= r.1.parts.Keys
  {
    var (staticOk, s1) := AddAllEntries(s, StaticCache, StaticUrls(origin), netStatic);
    var (loginOk, s2) := AddAllEntries(s1, LoginCache, LoginUrls(origin), netLogin);
    (staticOk && loginOk, s2)
  }

  /** What one `addAll` batch leaves in its own partition depends only on
      that partition's previous contents. */
  lemma AddAllLocal(s: Store, t: Store, name: string, urls: seq<string>, net: string -> Option<Response>)
    requires (name in s.parts <==> name in t.parts) && (name in s.parts ==> s.parts[name] == t.parts[name])
    ensures AddAllEntries(s, name, urls, net).0 == AddAllEntries(t, name, urls, net).0
    ensures AddAllEntries(s, name, urls, net).1.parts[name] == AddAllEntries(t, name, urls, net).1.parts[name]
  {
  }

  /** Two `addAll` batches into two different partitions, one after the
      other, give each partition what its batch alone would give it. */
  lemma TwoBatches(s: Store, n1: string, u1: seq<string>, net1: string -> Option<Response>,
                   n2: string, u2: seq<string>, net2: string -> Option<Response>)
    requires WellFormed(s) && n1 != n2
    ensures WellFormed(AddAllEntries(AddAllEntries(s, n1, u1, net1).1, n2, u2, net2).1)
    ensures AddAllEntries(AddAllEntries(s, n1, u1, net1).1, n2, u2, net2).1.parts.Keys == s.parts.Keys + {n1, n2}
    ensures AddAllEntries(AddAllEntries(s, n1, u1, net1).1, n2, u2, net2).0 == AddAllEntries(s, n2, u2, net2).0
    ensures AddAllEntries(AddAllEntries(s, n1, u1, net1).1, n2, u2, net2).1.parts[n1] == AddAllEntries(s, n1, u1, net1).1.parts[n1]
    ensures AddAllEntries(AddAllEntries(s, n1, u1, net1).1, n2, u2, net2).1.parts[n2] == AddAllEntries(s, n2, u2, net2).1.parts[n2]
    ensures forall n :: n in s.parts && n != n1 && n != n2 ==>
      AddAllEntries(AddAllEntries(s, n1, u1, net1).1, n2, u2, net2).1.parts[n] == s.parts[n]
  {
    var s1 := AddAllEntries(s, n1, u1, net1).1;
    AddAllFrame(s, n1, u1, net1);
    AddAllFrame(s1, n2, u2, net2);
    AddAllLocal(s1, s, n2, u2, net2);
  }

  /** The install outcome partition by partition: each of the two batches
      behaves exactly as if it ran alone on the store before the event, so a
      failure of one neither blocks nor alters the other; every other
      partition is untouched. */
  lemma InstallIndependent(s: Store, origin: string, netStatic: string -> Option<Response>, netLogin: string -> Option<Response>)
    requires WellFormed(s)
    ensures var r := Install(s, origin, netStatic, netLogin);
      && WellFormed(r.1)
      && r.1.parts.Keys == s.parts.Keys + {StaticCache, LoginCache}
      && r.0 == (AddAllEntries(s, StaticCache, StaticUrls(origin), netStatic).0 && AddAllEntries(s, LoginCache, LoginUrls(origin), netLogin).0)
      && r.1.parts[StaticCache] == AddAllEntries(s, StaticCache, StaticUrls(origin), netStatic).1.parts[StaticCache]
      && r.1.parts[LoginCache] == AddAllEntries(s, LoginCache, LoginUrls(origin), netLogin).1.parts[LoginCache]
      && (forall n :: n in s.parts && n != StaticCache && n != LoginCache ==> r.1.parts[n] == s.parts[n])
  {
    CurrentNamesDistinct();
    TwoBatches(s, StaticCache, StaticUrls(origin), netStatic, LoginCache, LoginUrls(origin), netLogin);
  }

  /** A successful batch over resolved paths holds every one of them, each
      with the response the network gave for it. */
  lemma BatchFills(s: Store, name: string, origin: string, paths: seq<string>, net: string -> Option<Response>)
    requires AddAllEntries(s, name, ResolveAll(origin, paths), net).0
    ensures var part := AddAllEntries(s, name, ResolveAll(origin, paths), net).1.parts[name];
      forall p :: p in paths ==> Resolve(origin, p) in part && Some(part[Resolve(origin, p)]) == net(Resolve(origin, p))
  {
    var urls := ResolveAll(origin, paths);
    AddAllContents(s, name, urls, net);
    forall p | p in paths ensures Resolve(origin, p) in urls {
      var i :| 0 <= i < |paths| && paths[i] == p;
      assert urls[i] == Resolve(origin, p);
    }
  }

  /** After a successful install, Static holds every manifest URL and Login
      every login asset, each with the response its batch's fetch gave. */
  lemma InstallFills(s: Store, origin: string, netStatic: string -> Option<Response>, netLogin: string -> Option<Response>)
    requires WellFormed(s)
    requires Install(s, origin, netStatic, netLogin).0
    ensures var r := Install(s, origin, netStatic, netLogin).1;
      && StaticCache in r.parts && LoginCache in r.parts
      && (forall p :: p in UrlsToCache ==>
            Resolve(origin, p) in r.parts[StaticCache] && Some(r.parts[StaticCache][Resolve(origin, p)]) == netStatic(Resolve(origin, p)))
      && (forall p :: p in LoginAssets ==>
            Resolve(origin, p) in r.parts[LoginCache] && Some(r.parts[LoginCache][Resolve(origin, p)]) == netLogin(Resolve(origin, p)))
  {
    InstallIndependent(s, origin, netStatic, netLogin);
    BatchFills(s, StaticCache, origin, UrlsToCache, netStatic);
    BatchFills(s, LoginCache, origin, LoginAssets, netLogin);
  }

  /** The names activation keeps, in their original order. */
  function KeepCurrent(names: seq<string>): (kept: seq<string>)
    ensures |kept| <= |names|
  {
    if names == [] then []
    else if IsCurrentName(names[0]) then [names[0]] + KeepCurrent(names[1..])
    else KeepCurrent(names[1..])
  }

  /** The kept names are exactly the current names listed, and a
      duplicate-free listing stays duplicate-free. */
  lemma {:induction false} KeepCurrentFacts(names: seq<string>)
    ensures forall n :: n in KeepCurrent(names) <==> n in names && IsCurrentName(n)
    ensures Distinct(names) ==> Distinct(KeepCurrent(names))
  {
    if names != [] {
      KeepCurrentFacts(names[1..]);
      if IsCurrentName(names[0]) {
        DistinctCons(names, KeepCurrent(names[1..]));
      }
    }
  }

  lemma {:induction false} KeepCurrentSnoc(names: seq<string>, n: string)
    ensures KeepCurrent(names + [n]) == KeepCurrent(names) + (if IsCurrentName(n) then [n] else [])
  {
    if names == [] {
      assert names + [n] == [n];
    } else {
      assert (names + [n])[1..] == names[1..] + [n];
      KeepCurrentSnoc(names[1..], n);
    }
  }

  /** Filtering twice keeps what filtering once kept. */
  lemma {:induction false} KeepCurrentIdempotent(names: seq<string>)
    ensures KeepCurrent(KeepCurrent(names)) == KeepCurrent(names)
  {
    if names != [] {
      KeepCurrentIdempotent(names[1..]);
      if IsCurrentName(names[0]) {
        assert ([names[0]] + KeepCurrent(names[1..]))[1..] == KeepCurrent(names[1..]);
      }
    }
  }

  /** activate: every partition whose name is not one of the three current
      names is deleted; the current ones stay, contents and order intact. */
  function Activate(s: Store): (r: Store)
    ensures WellFormed(s) ==> WellFormed(r)
    ensures forall n :: n in r.parts ==> IsCurrentName(n)
    ensures forall n :: n in s.parts && IsCurrentName(n) ==> n in r.parts && r.parts[n] == s.parts[n]
    ensures forall n :: n in s.parts && !IsCurrentName(n) ==> n !in r.parts
    ensures CacheName !in r.parts
  {
    NamesShareVersionTag();
    KeepCurrentFacts(s.names);
    Store(KeepCurrent(s.names), map n | n in s.parts && IsCurrentName(n) :: s.parts[n])
  }

  /** Activation only deletes: every surviving partition existed before,
      with the same contents, and the survivors keep their creation order,
      which decides the first hit of `caches.match`. */
  lemma ActivateOnlyDeletes(s: Store)
    ensures Activate(s).parts.Keys <= s.parts.Keys
    ensures forall n :: n in Activate(s).parts ==> Activate(s).parts[n] == s.parts[n]
    ensures Activate(s).names == KeepCurrent(s.names)
  {
  }

  /** A second activation deletes nothing more. */
  lemma ActivateIdempotent(s: Store)
    ensures Activate(Activate(s)) == Activate(s)
  {
    KeepCurrentIdempotent(s.names);
  }
}
