/** The browser's cache storage as the worker uses it: named partitions,
    each a table from request URL to response. `caches.match` and
    `caches.keys` see the partitions in the order they were created, so the
    store keeps that order beside the table. */
module CacheStore {
  import opened Wrappers

  /** A response as the worker handles it. Only the status is inspected;
      headers and body are kept so that a synthesized response can be stated. */
  datatype Response = Response(status: int, headers: map<string, string>, body: string)

  /** `names` lists the partitions in creation order; `parts` maps each
      partition name to its entries, keyed by request URL. */
  datatype Store = Store(names: seq<string>, parts: map<string, map<string, Response>>)

  predicate Distinct(xs: seq<string>) {
    forall i, j :: 0 <= i < j < |xs| ==> xs[i] != xs[j]
  }

  /** Each partition is listed exactly once. */
  ghost predicate WellFormed(s: Store) {
    Distinct(s.names) && (forall n :: n in s.names <==> n in s.parts)
  }

  /** `names` without `name`. */
  function Remove(xs: seq<string>, name: string): (ys: seq<string>)
    ensures |ys| <= |xs|
    ensures name in xs ==> |ys| < |xs|
  {
    if xs == [] then []
    else if xs[0] == name then Remove(xs[1..], name)
    else [xs[0]] + Remove(xs[1..], name)
  }

  /** Removal drops exactly the removed name, a name that is absent removes
      nothing, and a duplicate-free listing stays duplicate-free. */
  lemma {:induction false} RemoveFacts(xs: seq<string>, name: string)
    ensures forall x :: x in Remove(xs, name) <==> x in xs && x != name
    ensures Distinct(xs) ==> Distinct(Remove(xs, name))
    ensures name !in xs ==> Remove(xs, name) == xs
  {
    if xs != [] {
      RemoveFacts(xs[1..], name);
      if xs[0] != name {
        DistinctCons(xs, Remove(xs[1..], name));
      }
    }
  }

  /** Putting back the head of a duplicate-free list in front of a list of
      its other elements keeps it duplicate-free. */
  lemma DistinctCons(xs: seq<string>, rest: seq<string>)
    requires xs != []
    ensures Distinct(xs) && Distinct(rest) && (forall x :: x in rest ==> x in xs[1..]) ==> Distinct([xs[0]] + rest)
  {
    if !(Distinct(xs) && Distinct(rest) && (forall x :: x in rest ==> x in xs[1..])) {
      return;
    }
    assert xs[0] !in xs[1..] by {
      forall k | 0 <= k < |xs[1..]| ensures xs[1..][k] != xs[0] {
        assert xs[1..][k] == xs[k + 1];
      }
    }
    var ys := [xs[0]] + rest;
    forall i, j | 0 <= i < j < |ys| ensures ys[i] != ys[j] {
      if i == 0 {
        assert ys[j] == rest[j - 1] && rest[j - 1] in rest;
      } else {
        assert ys[i] == rest[i - 1] && ys[j] == rest[j - 1];
      }
    }
  }

  /** Removing an element listed once, between two runs that lack it, joins
      the two runs. */
  lemma {:induction false} RemoveSplit(a: seq<string>, name: string, b: seq<string>)
    requires name !in a && name !in b
    ensures Remove(a + [name] + b, name) == a + b
  {
    var s := a + [name] + b;
    if a == [] {
      assert s[0] == name && s[1..] == b;
      assert Remove(s, name) == Remove(b, name);
      RemoveFacts(b, name);
    } else {
      assert s[0] == a[0] && a[0] != name;
      assert s[1..] == a[1..] + [name] + b;
      RemoveSplit(a[1..], name, b);
      assert Remove(s, name) == [a[0]] + Remove(s[1..], name);
      assert a + b == [a[0]] + (a[1..] + b);
    }
  }

  /** `caches.match(key)` over the partitions in `names`, in that order:
      the first partition holding `key` answers. */
  function MatchIn(names: seq<string>, parts: map<string, map<string, Response>>, key: string): (r: Option<Response>)
    ensures r.None? <==> forall n :: n in names && n in parts ==> key !in parts[n]
    ensures r.Some? ==> exists n :: n in names && n in parts && key in parts[n] && r.value == parts[n][key]
  {
    if names == [] then None
    else if names[0] in parts && key in parts[names[0]] then Some(parts[names[0]][key])
    else MatchIn(names[1..], parts, key)
  }

  /** `names[i]` is a partition holding `key`. */
  predicate HitAt(names: seq<string>, parts: map<string, map<string, Response>>, key: string, i: int) {
    0 <= i < |names| && names[i] in parts && key in parts[names[i]]
  }

  /** The answer comes from the earliest-created partition holding the key. */
  lemma {:induction false} MatchFirstHit(names: seq<string>, parts: map<string, map<string, Response>>, key: string)
    requires MatchIn(names, parts, key).Some?
    ensures exists i :: (HitAt(names, parts, key, i)
      && MatchIn(names, parts, key).value == parts[names[i]][key]
      && forall j :: 0 <= j < i ==> !HitAt(names, parts, key, j))
  {
    if HitAt(names, parts, key, 0) {
    } else {
      MatchFirstHit(names[1..], parts, key);
      var i :| HitAt(names[1..], parts, key, i)
        && MatchIn(names[1..], parts, key).value == parts[names[1..][i]][key]
        && forall j :: 0 <= j < i ==> !HitAt(names[1..], parts, key, j);
      assert HitAt(names, parts, key, i + 1);
      forall j | 0 <= j < i + 1 ensures !HitAt(names, parts, key, j) {
        if j > 0 { assert !HitAt(names[1..], parts, key, j - 1); }
      }
    }
  }

  /** `caches.match(key)`: some partition's entry for `key`, or nothing when
      no partition holds it. */
  function MatchAny(s: Store, key: string): (r: Option<Response>)
    ensures WellFormed(s) ==> (r.None? <==> forall n :: n in s.parts ==> key !in s.parts[n])
    ensures r.Some? ==> exists n :: n in s.parts && key in s.parts[n] && r.value == s.parts[n][key]
  {
    MatchIn(s.names, s.parts, key)
  }

  /** `caches.open(name)`: the partition afterwards exists; a new one is
      empty and comes last in creation order; nothing else changes. */
  function OpenPartition(s: Store, name: string): (r: Store)
    ensures WellFormed(s) ==> WellFormed(r)
    ensures r.parts.Keys == s.parts.Keys + {name}
    ensures forall n :: n in s.parts ==> r.parts[n] == s.parts[n]
    ensures name !in s.parts ==> r.parts[name] == map[] && r.names == s.names + [name]
    ensures name in s.parts ==> r == s
  {
    if name in s.parts then s else Store(s.names + [name], s.parts[name := map[]])
  }

  /** `caches.open(name)` followed by `cache.put(key, resp)`: the entry for
      `key` in `name` becomes `resp`, overwriting any earlier one; every other
      key of `name` and every other partition is untouched. */
  function PutEntry(s: Store, name: string, key: string, resp: Response): (r: Store)
    ensures WellFormed(s) ==> WellFormed(r)
    ensures r.parts.Keys == s.parts.Keys + {name}
    ensures key in r.parts[name] && r.parts[name][key] == resp
    ensures r.parts[name].Keys == (if name in s.parts then s.parts[name].Keys else {}) + {key}
    ensures forall k :: name in s.parts && k in s.parts[name] && k != key ==> r.parts[name][k] == s.parts[name][k]
    ensures forall n :: n in s.parts && n != name ==> r.parts[n] == s.parts[n]
    ensures name in s.parts ==> r.names == s.names
    ensures name !in s.parts ==> r.names == s.names + [name]
  {
    var o := OpenPartition(s, name);
    Store(o.names, o.parts[name := o.parts[name][key := resp]])
  }

  /** `caches.delete(name)`: the partition and its entries are gone;
      nothing else changes. */
  function DeletePartition(s: Store, name: string): (r: Store)
    ensures WellFormed(s) ==> WellFormed(r)
    ensures r.parts.Keys == s.parts.Keys - {name}
    ensures forall n :: n in r.parts ==> r.parts[n] == s.parts[n]
    ensures name !in s.parts && WellFormed(s) ==> r == s
    ensures r.names == Remove(s.names, name)
  {
    RemoveFacts(s.names, name);
    Store(Remove(s.names, name), s.parts - {name})
  }

  /** A status `cache.addAll` accepts: an ok status (200 to 299) other than
      206 Partial Content, from a fetch that did not reject. */
  predicate Storable(r: Option<Response>) {
    r.Some? && 200 <= r.value.status <= 299 && r.value.status != 206
  }

  /** The batch of puts `cache.addAll` performs once every fetch succeeded. */
  function PutAll(p: map<string, Response>, urls: seq<string>, net: string -> Option<Response>): (q: map<string, Response>)
    requires forall u :: u in urls ==> Storable(net(u))
    ensures q.Keys == p.Keys + (set u | u in urls)
    ensures forall u :: u in urls ==> Some(q[u]) == net(u)
    ensures forall k :: k in p && k !in urls ==> q[k] == p[k]
    decreases |urls|
  {
    if urls == [] then p
    else
      assert urls[0] in urls && Storable(net(urls[0]));
      PutAll(p[urls[0] := net(urls[0]).value], urls[1..], net)
  }

  /** `caches.open(name).then(cache => cache.addAll(urls))`, with `net`
      giving the network's answer for each URL (`None`: the fetch rejected).
      The partition is opened first; the batch is all or nothing. */
  function AddAllEntries(s: Store, name: string, urls: seq<string>, net: string -> Option<Response>): (r: (bool, Store))
    ensures name in r.1.parts
  {
    var o := OpenPartition(s, name);
    if forall u :: u in urls ==> Storable(net(u)) then
      (true, Store(o.names, o.parts[name := PutAll(o.parts[name], urls, net)]))
    else
      (false, o)
  }

  /** What `AddAllEntries` promises about the store around the batch: the
      partition exists afterwards, every other partition is untouched, and
      the store stays well-formed. */
  lemma AddAllFrame(s: Store, name: string, urls: seq<string>, net: string -> Option<Response>)
    requires WellFormed(s)
    ensures WellFormed(AddAllEntries(s, name, urls, net).1)
    ensures AddAllEntries(s, name, urls, net).1.parts.Keys == s.parts.Keys + {name}
    ensures forall n :: n in s.parts && n != name ==> AddAllEntries(s, name, urls, net).1.parts[n] == s.parts[n]
  {
  }

  /** What `AddAllEntries` promises about the batch's own partition: it
      succeeds exactly when every fetch gave a storable response; then the
      partition holds every URL with its response and keeps its other
      entries; otherwise the partition is merely opened. */
  lemma AddAllContents(s: Store, name: string, urls: seq<string>, net: string -> Option<Response>)
    ensures var (ok, r) := AddAllEntries(s, name, urls, net);
      && (ok <==> forall u :: u in urls ==> Storable(net(u)))
      && (ok ==> forall u :: u in urls ==> u in r.parts[name] && Some(r.parts[name][u]) == net(u))
      && (ok ==> r.parts[name].Keys == (if name in s.parts then s.parts[name].Keys else {}) + (set u | u in urls))
      && (ok ==> r.names == OpenPartition(s, name).names)
      && (forall k :: name in s.parts && k in s.parts[name] && k !in urls ==> k in r.parts[name] && r.parts[name][k] == s.parts[name][k])
      && (!ok ==> r == OpenPartition(s, name))
  {
  }

  /** The browser's storage object. Its methods are the `caches.*` and
      `cache.*` calls the worker makes, each one a single step. */
  class CacheStorage {
    var names: seq<string>
    var parts: map<string, map<string, Response>>

    function Value(): Store
      reads this
    {
      Store(names, parts)
    }

    ghost predicate Valid()
      reads this
    {
      WellFormed(Value())
    }

    constructor ()
      ensures Valid() && Value() == Store([], map[])
    {
      names := [];
      parts := map[];
    }

    /** `caches.keys()`: the partition names in creation order. */
    method Keys() returns (ks: seq<string>)
      requires Valid()
      ensures ks == Value().names
      ensures Distinct(ks) && forall n :: n in ks <==> n in Value().parts
    {
      ks := names;
    }

    method Open(name: string)
      requires Valid()
      modifies this
      ensures Valid() && Value() == OpenPartition(old(Value()), name)
    {
      if name !in parts {
        names := names + [name];
        parts := parts[name := map[]];
      }
    }

    method Put(name: string, key: string, resp: Response)
      requires Valid()
      modifies this
      ensures Valid() && Value() == PutEntry(old(Value()), name, key, resp)
    {
      Open(name);
      parts := parts[name := parts[name][key := resp]];
    }

    /** `caches.delete(name)`, which reports whether the partition existed. */
    method Delete(name: string) returns (existed: bool)
      requires Valid()
      modifies this
      ensures existed == (name in old(Value()).parts)
      ensures Valid() && Value() == DeletePartition(old(Value()), name)
    {
      existed := name in parts;
      RemoveFacts(names, name);
      names := Remove(names, name);
      parts := parts - {name};
    }

    method AddAll(name: string, urls: seq<string>, net: string -> Option<Response>) returns (ok: bool)
      requires Valid()
      modifies this
      ensures Valid() && (ok, Value()) == AddAllEntries(old(Value()), name, urls, net)
    {
      AddAllFrame(Value(), name, urls, net);
      Open(name);
      ok := forall u :: u in urls ==> Storable(net(u));
      if ok {
        parts := parts[name := PutAll(parts[name], urls, net)];
      }
    }
  }
}
