/** The constants compiled into the worker: the version tag, the three
    current partition names and the two install manifests. */
module Config {

  /** The version tag shared by every partition name of this release. */
  const VersionTag: string := "v2.5.2"

  /** The name the worker reports as its version. No partition carries it. */
  const CacheName: string := "ims-v2.5.2"
  const StaticCache: string := "ims-static-v2.5.2"
  const DynamicCache: string := "ims-dynamic-v2.5.2"
  const LoginCache: string := "ims-login-v2.5.2"

  /** Paths pre-fetched into the Static partition at install time. */
  const UrlsToCache: seq<string> := [
    "/",
    "/login",
    "/dashboard",
    "/clients",
    "/suppliers",
    "/products",
    "/stock",
    "/warehouses",
    "/purchases",
    "/sales",
    "/financial",
    "/financial-reports",
    "/reports",
    "/import-export",
    "/settings",
    "/manifest.json",
    "/browserconfig.xml",
    "/logo.png",
    "/logo192.png",
    "/logo512.png",
    "/static/js/bundle.js",
    "/static/css/main.css"
  ]

  /** Paths pre-fetched into the Login partition at install time. */
  const LoginAssets: seq<string> := [
    "/",
    "/login",
    "/logo.png",
    "/logo192.png",
    "/manifest.json",
    "/browserconfig.xml"
  ]

  /** The partition names activation keeps. */
  predicate IsCurrentName(name: string) {
    name == StaticCache || name == DynamicCache || name == LoginCache
  }

  /** A path of the manifests resolved against the worker's origin
      (scheme, host and port, without a trailing slash), as the browser
      resolves `'/login'` or `caches.match('/')`. */
  function Resolve(origin: string, path: string): string
  {
    origin + path
  }

  /** The origin cancels: two paths resolve to the same URL only when they
      are the same path, so distinct manifest entries stay distinct keys. */
  lemma ResolveCancels(origin: string, p: string, q: string)
    ensures Resolve(origin, p) == Resolve(origin, q) <==> p == q
  {
    if Resolve(origin, p) == Resolve(origin, q) {
      assert p == Resolve(origin, p)[|origin|..];
      assert q == Resolve(origin, q)[|origin|..];
    }
  }

  /** Every path of a manifest resolved against `origin`, in order. */
  function ResolveAll(origin: string, paths: seq<string>): (urls: seq<string>)
    ensures |urls| == |paths|
    ensures forall i :: 0 <= i < |paths| ==> urls[i] == Resolve(origin, paths[i])
  {
    if paths == [] then [] else [Resolve(origin, paths[0])] + ResolveAll(origin, paths[1..])
  }

  /** The reported version is the version tag embedded in all three
      partition names, and none of the three is the reported name itself. */
  lemma NamesShareVersionTag()
    ensures CacheName == "ims-" + VersionTag
    ensures StaticCache == "ims-static-" + VersionTag
    ensures DynamicCache == "ims-dynamic-" + VersionTag
    ensures LoginCache == "ims-login-" + VersionTag
    ensures !IsCurrentName(CacheName)
  {
  }

  /** The three current names are pairwise distinct, so the three roles
      never share a partition. */
  lemma CurrentNamesDistinct()
    ensures StaticCache != DynamicCache && StaticCache != LoginCache && DynamicCache != LoginCache
  {
  }

  /** Every login asset is also a Static manifest entry. */
  lemma LoginAssetsInStatic()
    ensures forall p :: p in LoginAssets ==> p in UrlsToCache
  {
  }
}
