# Offline cache gateway of the IMS service worker

A Dafny model of the request-routing and cache-lifecycle logic in `build/sw.js`, the service worker of the IMS web application.

- **Router.** A `fetch` event is classified on `(method, url, destination)` into one of four routes:
  - pass-through: not intercepted;
  - API: network only, with a canned offline JSON response;
  - entry point: cache-first, populating the Login partition;
  - default: cache-first, populating the Dynamic partition, with a root fallback only for page navigations.
- **Cache store.** The browser's cache storage is a `Store`:
  - the partition names, in creation order;
  - a table from partition name to (request URL → response).

  `caches.match` searches the partitions in creation order. The store is held by a `CacheStorage` class: its methods are the `caches.*`/`cache.*` calls, and each is tied to a function on `Store`.
- **Lifecycle.** `install` fills Static with the page manifest and Login with the login assets, as two independent all-or-nothing `addAll` batches. `activate` walks `caches.keys()` and deletes every partition not named `ims-static-v2.5.2`, `ims-dynamic-v2.5.2` or `ims-login-v2.5.2`. That includes `ims-v2.5.2`, the name the worker reports as its version.
- **Control.** A notification click opens `/dashboard` for the `explore` action and `/` otherwise. A `SKIP_WAITING` message sets the worker's skip-waiting flag. `GET_VERSION` replies `{version: "ims-v2.5.2"}` on the first transferred port.

Layout: `wrappers.dfy` (Option), `text.dfy` (`includes`/`endsWith`), `config.dfy` (constants and URL resolution), `router.dfy`, `cache_store.dfy`, `lifecycle.dfy`, `fetch.dfy`, `control.dfy`, `worker.dfy` (the `Worker` class, one method per listener), `scenarios.dfy` (properties across listeners).

Modelling choices:
- The network is an input. A fetch's outcome is an `Option<Response>`, where `None` means the fetch rejected. For install, each of the two `addAll` batches issues its own fetches, so each gets its own function from URL to that outcome. A login asset that is also in the Static manifest can therefore succeed in one batch and fail in the other.
- Relative URLs (the manifests, `caches.match('/')`) are resolved as `origin + path`. `origin` is the worker's scheme, host and port, and is a parameter.
- The classifier tests the full absolute URL, as the code does.
- A request's cache key is its URL.
- The fire-and-forget `cache.put` is applied to the store after the response has been chosen, so it never affects the response.

Behaviour of the code that its comments do not suggest:
- The branch commented `// Handle login page specifically` (`build/sw.js:82`) tests `includes('/login') || endsWith('/')` on the whole URL. So `/loginx`, `/a/b/` and any URL on a host whose name begins with `login` pass the entry-point test, not only the login page and the root; a GET request for such a URL is an entry point unless it contains `/api/`.
- A cache hit for an entry point may come from any partition, not only Login, because `caches.match` searches them all.
- Activation does not create the three current partitions. Afterwards, only those current partitions that existed before remain.

## Model

| member | source | states |
|---|---|---|
| Text.Contains | build/sw.js:66 | `includes` can only hold when the substring is no longer than the URL; Text.ContainsAt gives its full meaning |
| Text.EndsWith | build/sw.js:83 | `endsWith`, a plain predicate whose meaning is stated by Text.EndsWithSuffix |
| Text.ContainsAt | build/sw.js:66 | the `includes` scan holds exactly when the substring occurs at some position |
| Text.ContainsPiece | build/sw.js:83 | a URL built around a piece contains that piece, whatever surrounds it |
| Text.EndsWithSuffix | build/sw.js:83 | a URL ends with whatever was appended last |
| Config.ResolveCancels | build/sw.js:6-38 | two manifest paths resolve to the same URL iff they are the same path |
| Config.ResolveAll | build/sw.js:6-38 | each manifest entry resolves, position by position, against the origin |
| Config.NamesShareVersionTag | build/sw.js:1-4 | all four names carry the tag `v2.5.2`; the reported name `ims-v2.5.2` is not a kept partition name |
| Config.CurrentNamesDistinct | build/sw.js:2-4 | the Static, Dynamic and Login names are pairwise different |
| Config.LoginAssetsInStatic | build/sw.js:6-38 | every login asset is also in the Static manifest |
| Router.Classify | build/sw.js:60-83 | pass-through iff not GET; API iff GET and the URL contains `/api/`; entry point iff GET, not API, and the URL contains `/login` or ends with `/`; default otherwise |
| Router.ApiLoginIsApi | build/sw.js:66-83 | a GET of any URL containing `/api/login` is API, because the API test comes first |
| Router.ApiBeforeEntryPoint | build/sw.js:66-83 | a GET of any URL containing `/api/` is API, even if it ends with `/` or contains `/login` |
| Router.LoginIsSubstringTest | build/sw.js:83 | `/login` anywhere in a non-API GET URL makes it an entry point (`/loginx` included) |
| Router.TrailingSlashIsEntryPoint | build/sw.js:83 | any non-API GET URL ending with `/` is an entry point, not only the root |
| CacheStore.Remove | build/sw.js:152 | removing a name never lengthens the listing and shortens it when the name is listed; Remove's full meaning is CacheStore.RemoveFacts |
| CacheStore.RemoveFacts | build/sw.js:152 | deleting a name removes exactly that name from the listing, removes nothing when it is absent, and keeps the listing free of duplicates |
| CacheStore.RemoveSplit | build/sw.js:152 | deleting a name listed once removes it from its place and keeps the order of all the others |
| CacheStore.MatchIn | build/sw.js:85 | a lookup misses iff no listed partition holds the key; a hit returns some listed partition's entry for the key |
| CacheStore.MatchFirstHit | build/sw.js:114 | a hit comes from the earliest-created partition that holds the key |
| CacheStore.MatchAny | build/sw.js:105 | `caches.match` misses iff no partition holds the key; a hit returns some partition's entry for it |
| CacheStore.OpenPartition | build/sw.js:44 | opening creates an empty partition last in creation order when absent, and changes nothing else |
| CacheStore.PutEntry | build/sw.js:96-99 | open then put: the key maps to the response, other keys of that partition and all other partitions are unchanged; a new partition is listed last |
| CacheStore.DeletePartition | build/sw.js:152 | the partition disappears with its entries; the others are unchanged; the listing loses exactly that name, keeping the order of the rest |
| CacheStore.PutAll | build/sw.js:46 | after the batch, every URL maps to its fetched response and every other key keeps its entry |
| CacheStore.AddAllEntries | build/sw.js:44-51 | one `caches.open(...).then(cache => cache.addAll(...))` batch; the partition exists afterwards whatever the outcome; its contents and frame are CacheStore.AddAllFrame and CacheStore.AddAllContents |
| CacheStore.AddAllFrame | build/sw.js:46-50 | an `addAll` creates its partition and leaves every other partition unchanged |
| CacheStore.AddAllContents | build/sw.js:46-50 | an `addAll` succeeds iff every fetch gave a storable response; it then holds exactly its earlier entries plus the batch's URLs, each URL with its response, and the listing is that of opening the partition; when it fails, the partition is only opened |
| CacheStore.CacheStorage.Keys | build/sw.js:145 | `caches.keys()` lists every partition once, in creation order |
| CacheStore.CacheStorage.Open | build/sw.js:44 | the store becomes the opened store |
| CacheStore.CacheStorage.Put | build/sw.js:96-99 | the store becomes the store with that entry written |
| CacheStore.CacheStorage.Delete | build/sw.js:152 | the store loses the partition; reports whether it existed |
| CacheStore.CacheStorage.AddAll | build/sw.js:44-51 | the store and the reported outcome are those of one `addAll` batch |
| Lifecycle.ResolveAllDistinct | build/sw.js:6-38 | resolving a list of paths without duplicates gives a list of URLs without duplicates |
| Lifecycle.ManifestsDistinct | build/sw.js:6-38 | neither install batch lists a URL twice, for every origin |
| Lifecycle.Install | build/sw.js:41-54 | the install listener, each batch with its own fetches; Static and Login exist afterwards and no partition is lost; its outcome and contents are Lifecycle.InstallIndependent and Lifecycle.InstallFills |
| Lifecycle.AddAllLocal | build/sw.js:43-52 | what one batch leaves in its own partition depends only on that partition's previous contents |
| Lifecycle.TwoBatches | build/sw.js:43-52 | two batches into different partitions give each partition what its batch alone would give |
| Lifecycle.InstallIndependent | build/sw.js:41-54 | install succeeds iff both batches do; Static and Login each end as if filled alone; other partitions unchanged |
| Lifecycle.BatchFills | build/sw.js:44-51 | a successful batch over resolved paths holds every path's URL with the response fetched for it |
| Lifecycle.InstallFills | build/sw.js:6-52 | after a successful install, Static holds every manifest URL and Login every login asset, each with the response its own batch fetched |
| Lifecycle.KeepCurrent | build/sw.js:147-150 | the kept names never outnumber the listed ones; which names are kept is Lifecycle.KeepCurrentFacts |
| Lifecycle.KeepCurrentFacts | build/sw.js:147-150 | the kept names are exactly the current names listed; a listing without duplicates stays without duplicates |
| Lifecycle.KeepCurrentSnoc | build/sw.js:147 | visiting one more name appends it to the kept names when current |
| Lifecycle.KeepCurrentIdempotent | build/sw.js:148-150 | filtering twice keeps what filtering once kept |
| Lifecycle.Activate | build/sw.js:143-158 | only current names remain; current partitions keep their contents; every other name, `ims-v2.5.2` included, is gone; that it only deletes, keeping order, is Lifecycle.ActivateOnlyDeletes |
| Lifecycle.ActivateOnlyDeletes | build/sw.js:147-153 | activation only deletes: every surviving partition existed before with the same contents, and the survivors keep their creation order |
| Lifecycle.ActivateIdempotent | build/sw.js:143-158 | a second activation deletes nothing more |
| Fetch.OfflineApiResponse | build/sw.js:71-76 | status 200, body exactly `{"error":"Offline mode - please check your connection","offline":true}`, `Content-Type: application/json` |
| Fetch.PartitionFor | build/sw.js:96-125 | an entry point writes to Login and a default request to Dynamic: partitions that activation keeps, never Static |
| Fetch.CacheFirst | build/sw.js:83-137 | always responds; the network is consulted iff the cache misses; a hit is answered from the cache with the store unchanged; the only store change is a network 200 written under the request URL into the route's partition |
| Fetch.HandleFetch | build/sw.js:57-140 | not intercepted iff not GET; the only store change is a network 200 of a cache-first route written under the URL into its partition; no partition is removed and well-formedness is kept; the cases are the Fetch lemmas below |
| Fetch.NonGetNotIntercepted | build/sw.js:60-63 | a non-GET request gets no response from the worker, triggers no fetch, and leaves the store unchanged |
| Fetch.ApiIsNetworkOnly | build/sw.js:66-79 | an API request returns the network response unchanged, or the offline JSON when the fetch rejects; the store is neither read nor written |
| Fetch.CacheHitServed | build/sw.js:83-89 | a non-API GET held in any partition is answered from the cache, with no fetch and no store change |
| Fetch.MissWith200IsStored | build/sw.js:91-101 | on a miss answered 200, the response is returned and stored under the URL in Login (entry point) or Dynamic (default); nothing else changes |
| Fetch.MissWithOtherStatusNotStored | build/sw.js:91-130 | on a miss answered with any status other than 200, the response is returned and the store is unchanged |
| Fetch.MissOfflineFallback | build/sw.js:103-137 | on a miss with a failed fetch: an entry point gets the cached root, possibly nothing; a default request gets it only when it is a document, else nothing |
| Fetch.StoredThenServed | build/sw.js:120-137 | a response stored on a miss is what the next identical request gets, online or not, without a fetch |
| Control.NotificationTarget | build/sw.js:209-218 | the click opens `/dashboard` iff the action is `explore`, and `/` otherwise |
| Control.NotificationTargetPrecached | build/sw.js:6-29 | both click destinations are Static manifest pages |
| Control.RouteMessage | build/sw.js:227-235 | skip-waiting iff type `SKIP_WAITING`; version reply `ims-v2.5.2` iff type `GET_VERSION` and a port was given; a missing port is an error |
| Control.VersionReplyNamesPartitions | build/sw.js:1-4 | the reported version carries the tag embedded in all three partition names |
| ServiceWorker.Worker.constructor | build/sw.js:227-230 | a fresh worker over a well-formed store; skip-waiting is not requested until a `SKIP_WAITING` message arrives |
| ServiceWorker.Worker.OnInstall | build/sw.js:41-54 | the store and outcome are those of `Install`, with one network function per batch |
| ServiceWorker.Worker.OnFetch | build/sw.js:57-140 | the response, the fetch flag and the new store are those of `HandleFetch` |
| ServiceWorker.Worker.OnActivate | build/sw.js:143-158 | the loop over `caches.keys()` leaves the store equal to `Activate` of the old one |
| ServiceWorker.Worker.OnMessage | build/sw.js:227-235 | the reply is `RouteMessage`'s; the skip-waiting flag is set by `SKIP_WAITING` and otherwise unchanged |
| ServiceWorker.Sweep | build/sw.js:145-155 | the store after the loop has visited some names; stated by ServiceWorker.SweepPrefix and ServiceWorker.SweepActivates |
| ServiceWorker.SweepSnoc | build/sw.js:147-153 | the loop's visit of one more name deletes that partition exactly when the name is stale |
| ServiceWorker.SweepStepNames | build/sw.js:147-153 | visiting one name keeps the listing equal to the kept visited names followed by the unvisited ones |
| ServiceWorker.SweepStepTable | build/sw.js:147-153 | visiting one stale name drops exactly that partition from the table; a current one changes nothing |
| ServiceWorker.SweepPrefix | build/sw.js:145-155 | after the loop has visited the first `i` names, the listing is the kept visited names then the unvisited ones, and only the visited stale partitions are gone |
| ServiceWorker.SweepActivates | build/sw.js:145-155 | once the loop has visited every listed name, the store is `Activate` of the store it started from |
| Scenarios.NotificationTargetOfflineAfterInstall | build/sw.js:41-54 | after a successful install, the page a notification click opens still gets a response with the network down |
| Scenarios.ActivateKeepsInstalled | build/sw.js:143-158 | activation right after install leaves Static and Login as install left them |
| Scenarios.ActivateSweepsOldRelease | build/sw.js:143-158 | for every other version tag, that release's Static, Dynamic and Login partitions are all gone after activation |
| Scenarios.OtherTagNotCurrent | build/sw.js:147-150 | a role prefix followed by any other tag is none of the three current names |

## Left out

- `build/postinstall.js`: it only creates a configuration file and four directories when they are absent, then logs.
- `push` listeners (both of them), `notificationclose`, `error`, `unhandledrejection` and all logging: they build notification options or only log.
  - The two `push` listeners both fire on each push, so one push shows two notifications. This is event registration, which is not modelled.
- `sync` listeners, `doBackgroundSync`, and the `online`/`offline` broadcasts: client messaging and a no-op promise.
- Asynchrony: each listener is one sequential step, with the network's outcome as an input. Interleavings of concurrent fetches and `waitUntil` timing are not modelled.
- Ordering inside install: the Static and Login batches run concurrently in the code but one after the other in the model. The creation order of the two partitions may therefore differ. `Lifecycle.InstallIndependent` shows their contents do not depend on that order.
- Lifecycle.Install: each batch gets one outcome per URL. A URL listed twice in one batch would be fetched twice in the browser, possibly with different outcomes; `Lifecycle.ManifestsDistinct` shows that neither batch lists a URL twice.
- Response bodies, cloning and headers beyond the offline response: a response is a value with a status.
- Cache matching is by exact URL. Query options, `Vary` and fragment removal are not modelled.
- `Cache.put` and `addAll` failures other than a rejected fetch or a status they refuse: the model does not reproduce quota errors and similar failures.
- `addAll` with duplicate URLs: the browser throws, while the model keeps the last entry. `Lifecycle.ManifestsDistinct` proves that neither install batch lists a URL twice, so this case does not arise in the worker.
- `event.notification.close()` and `clients.openWindow`: the model keeps only the path that is opened.
- What `skipWaiting` does to the worker's lifecycle: that state machine is the browser's; the model only records the request.
