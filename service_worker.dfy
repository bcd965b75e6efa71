/** The offline cache router (the page's service worker): pre-caching on install,
    removal of stale cache generations on activate, and one fetch strategy per
    request class. Each event handler is a method of `Worker` over the shared
    `CacheStorage`; the network is an oracle passed to the handlers that use it. */
module ServiceWorker {
  import opened Wrappers
  import opened Web
  import opened Strings
  import opened CacheStore

  /** The cache generation of this version of the worker. */
  const CACHE_NAME := "dawa-pahchan-v1"

  /** Same-origin paths pre-cached at install. */
  const STATIC_ASSETS: seq<string> :=
    ["/", "/static/style.css", "/static/app.js", "/static/icon.svg", "/static/icon-maskable.svg", "/manifest.json"]

  const FONT_CSS_HOST := "fonts.googleapis.com"
  const FONT_FILE_HOST := "fonts.gstatic.com"

  const API_PREFIX := "/api/"

  const OFFLINE_MESSAGE := "انٹرنیٹ کنکشن نہیں ہے۔ انٹرنیٹ آنے کے بعد دوبارہ کوشش کریں۔"

  /** The JSON body the worker substitutes for an unreachable API. */
  const OFFLINE_API_BODY :=
    JObj(map["not_medicine" := JBool(true), "error_message_urdu" := JStr(OFFLINE_MESSAGE)])

  /** `new Response('Offline', {status: 503})`; a string body gets a text content type. */
  const OFFLINE_TEXT_RESPONSE := Response(503, Some("text/plain;charset=UTF-8"), NotJson("Offline"))

  datatype RequestClass = Api | FontHost | Other

  /** The three request classes, tested in the order API path, font host, anything else. */
  function Classify(u: Url): (c: RequestClass)
    ensures c == Api <==> StartsWith(u.pathname, API_PREFIX)
    ensures c == FontHost <==>
      !StartsWith(u.pathname, API_PREFIX) && (u.origin.hostname == FONT_CSS_HOST || u.origin.hostname == FONT_FILE_HOST)
  {
    if StartsWith(u.pathname, API_PREFIX) then Api
    else if u.origin.hostname == FONT_CSS_HOST || u.origin.hostname == FONT_FILE_HOST then FontHost
    else Other
  }

  /** The API strategy: network only, with a synthetic offline answer. It reads no
      cache, which a function without a `reads` clause cannot do. */
  function ApiResponse(req: Request, net: Network): (r: Response)
    ensures net(req).Some? ==> r == net(req).value
    ensures net(req).None? ==> && r.status == 503 && r.contentType == Some("application/json")
                               && r.body.Json? && Prop(r.body.value, "not_medicine") == JBool(true)
  {
    match net(req)
    case Some(resp) => resp
    case None => Response(503, Some("application/json"), Json(OFFLINE_API_BODY))
  }

  /** The `addAll` batch of the install step: a GET for each asset path on the worker's origin. */
  function AssetRequests(origin: Origin): (rs: seq<Request>)
    ensures |rs| == |STATIC_ASSETS|
    ensures forall i :: 0 <= i < |rs| ==> rs[i] == Request(Url(origin, STATIC_ASSETS[i], ""), "GET", Cors)
  {
    seq(|STATIC_ASSETS|, i requires 0 <= i < |STATIC_ASSETS| => Request(Url(origin, STATIC_ASSETS[i], ""), "GET", Cors))
  }

  /** The cache state an install leaves behind: the current cache is opened (and so
      exists either way), then filled with the whole asset batch or with nothing. */
  function Installed(s: Store, name: string, origin: Origin, net: Network): (r: Store)
    requires WellFormed(s)
    ensures WellFormed(r) && r.names == OpenCache(s, name).names
  {
    AddAllResult(OpenCache(s, name), name, AssetRequests(origin), net)
  }

  /** A successful install leaves an entry for every asset in the current cache;
      a failed one leaves that cache and every other exactly as they were. */
  lemma InstallIsAllOrNothing(s: Store, name: string, origin: Origin, net: Network)
    requires WellFormed(s)
    ensures FetchAll(AssetRequests(origin), net).Some? ==>
      forall p :: p in STATIC_ASSETS ==> Lookup(Installed(s, name, origin, net), name, Url(origin, p, "")).Some?
    ensures FetchAll(AssetRequests(origin), net).None? ==>
      forall n, k :: Lookup(Installed(s, name, origin, net), n, k) == Lookup(s, n, k)
  {
    var o := OpenCache(s, name);
    var reqs := AssetRequests(origin);
    AddAllIsAllOrNothing(o, name, reqs, net);
    if FetchAll(reqs, net).Some? {
      forall p | p in STATIC_ASSETS ensures Lookup(Installed(s, name, origin, net), name, Url(origin, p, "")).Some? {
        var i :| 0 <= i < |STATIC_ASSETS| && STATIC_ASSETS[i] == p;
        assert reqs[i].url == Url(origin, p, "");
      }
    }
  }

  /** The font-host strategy, cache first: a hit is returned as stored without
      consulting the network; on a miss the network's answer is returned as is and
      stored in the current cache exactly when it is ok. A failed fetch is a
      network error for the page (`resp` is `None`). */
  ghost predicate FontHandled(before: Store, after: Store, name: string, req: Request, net: Network,
                              resp: Option<Response>, fetched: bool)
    requires WellFormed(before)
  {
    var hit := Match(before, req.url);
    && (hit.Some? ==> resp == hit && !fetched && after == before)
    && (hit.None? ==> fetched && resp == net(req))
    && (hit.None? ==> after == if net(req).Some? && Ok(net(req).value)
                               then PutEntry(before, name, req.url, net(req).value) else before)
  }

  /** The strategy for every other request, cache first: a hit is returned as
      stored; on a miss the network's answer is returned and stored in the current
      cache exactly when it is ok and the method is GET; if the fetch fails, a
      navigation gets whatever is cached for the root document and any other request
      the 503 text response. */
  ghost predicate OtherHandled(before: Store, after: Store, name: string, origin: Origin, req: Request,
                               net: Network, resp: Option<Response>, fetched: bool)
    requires WellFormed(before)
  {
    var hit := Match(before, req.url);
    && (hit.Some? ==> resp == hit && !fetched && after == before)
    && (hit.None? ==> fetched)
    && (hit.None? && net(req).Some? ==>
          && resp == net(req)
          && after == if Ok(net(req).value) && req.verb == "GET"
                      then PutEntry(before, name, req.url, net(req).value) else before)
    && (hit.None? && net(req).None? ==>
          && after == before
          && resp == if req.mode == Navigate then Match(before, Url(origin, "/", "")) else Some(OFFLINE_TEXT_RESPONSE))
  }

  /** One version of the worker script: its cache name, the origin it serves, and
      the browser's cache storage it shares with every other version. */
  class Worker {
    const cacheName: string
    const origin: Origin
    const storage: CacheStorage

    constructor (cacheName: string, origin: Origin, storage: CacheStorage)
      ensures this.cacheName == cacheName && this.origin == origin && this.storage == storage
    {
      this.cacheName, this.origin, this.storage := cacheName, origin, storage;
    }

    /** The `install` handler: open the current cache and `addAll` the assets. */
    method Install(net: Network) returns (ok: bool)
      requires storage.Valid()
      modifies storage
      ensures storage.Valid()
      ensures ok == FetchAll(AssetRequests(origin), net).Some?
      ensures storage.View() == Installed(old(storage.View()), cacheName, origin, net)
    {
      storage.Open(cacheName);
      ok := storage.AddAll(cacheName, AssetRequests(origin), net);
    }

    /** The `activate` handler: delete every cache whose name is not the current one. */
    method Activate()
      requires storage.Valid()
      modifies storage
      ensures storage.Valid()
      ensures storage.View() == Retained(old(storage.View()), cacheName)
    {
      var keys := storage.Keys();
      ghost var before := storage.View();
      for i := 0 to |keys|
        invariant storage.View() == DeleteEach(before, keys[..i], cacheName)
      {
        DeleteEachStep(before, keys, i, cacheName);
        if keys[i] != cacheName {
          var _ := storage.Delete(keys[i]);
        }
      }
      assert keys[..|keys|] == keys;
      DeleteEachIsRetained(before, cacheName);
    }

    /** The `fetch` handler for the font-host class. */
    method HandleFont(req: Request, net: Network) returns (resp: Option<Response>, fetched: bool)
      requires storage.Valid()
      modifies storage
      ensures storage.Valid()
      ensures FontHandled(old(storage.View()), storage.View(), cacheName, req, net, resp, fetched)
    {
      var cached := storage.MatchKey(req.url);
      if cached.Some? {
        return cached, false;
      }
      resp, fetched := net(req), true;
      if resp.Some? && Ok(resp.value) {
        storage.Put(cacheName, req.url, resp.value);
      }
    }

    /** The `fetch` handler for the remaining class. */
    method HandleOther(req: Request, net: Network) returns (resp: Option<Response>, fetched: bool)
      requires storage.Valid()
      modifies storage
      ensures storage.Valid()
      ensures OtherHandled(old(storage.View()), storage.View(), cacheName, origin, req, net, resp, fetched)
    {
      var cached := storage.MatchKey(req.url);
      if cached.Some? {
        return cached, false;
      }
      var answer := net(req);
      fetched := true;
      if answer.None? {
        if req.mode == Navigate {
          resp := storage.MatchKey(Url(origin, "/", ""));
        } else {
          resp := Some(OFFLINE_TEXT_RESPONSE);
        }
        return;
      }
      if Ok(answer.value) && req.verb == "GET" {
        storage.Put(cacheName, req.url, answer.value);
      }
      resp := answer;
    }

    /** The `fetch` handler: classify, then apply that class's strategy. */
    method OnFetch(req: Request, net: Network) returns (resp: Option<Response>, fetched: bool)
      requires storage.Valid()
      modifies storage
      ensures storage.Valid()
      ensures Classify(req.url) == Api ==>
        resp == Some(ApiResponse(req, net)) && fetched && storage.View() == old(storage.View())
      ensures Classify(req.url) == FontHost ==>
        FontHandled(old(storage.View()), storage.View(), cacheName, req, net, resp, fetched)
      ensures Classify(req.url) == Other ==>
        OtherHandled(old(storage.View()), storage.View(), cacheName, origin, req, net, resp, fetched)
    {
      match Classify(req.url)
      case Api =>
        resp, fetched := Some(ApiResponse(req, net)), true;
      case FontHost =>
        resp, fetched := HandleFont(req, net);
      case Other =>
        resp, fetched := HandleOther(req, net);
    }
  }

  /** An older version installed, then this version installed and activated:
      only this version's cache generation is left. */
  method UpgradeLeavesOnlyNewCache(origin: Origin, net: Network, a: string)
    returns (storage: CacheStorage, activated: bool)
    requires a != CACHE_NAME
    ensures storage.Valid()
    ensures activated == FetchAll(AssetRequests(origin), net).Some?
    ensures activated ==> storage.names == [CACHE_NAME] && a !in storage.caches
  {
    var b := CACHE_NAME;
    storage := new CacheStorage();
    var first := new Worker(a, origin, storage);
    var okA := first.Install(net);
    assert storage.names == OpenCache(Empty, a).names == [a];
    var second := new Worker(b, origin, storage);
    ghost var between := storage.View();
    activated := second.Install(net);
    assert storage.names == OpenCache(between, b).names == [a, b];
    if activated {
      ghost var installed := storage.View();
      second.Activate();
      RetainedLeavesOnlyCurrent(installed, b);
    }
  }
}
