/**
 The asset handlers of internal/binaryhandler/handler.go: an object store (MinIO)
 with a metadata index (Redis), fronted by the byte-budget cache.

 The outcome of every backend call is an input. A failed call leaves its backend
 unchanged, except that a failed upload may have stored the object all the same.
 */
module BinaryHandler {
  import opened CacheTypes
  import opened AssetCache

  const MAX_BODY := 100 * 1024 * 1024

  datatype Object = Object(data: seq<bv8>, contentType: string)

  /** How an upload to the object store ends: stored, refused, or stored but reported as failed. */
  datatype PutOutcome = Stored | Refused | StoredButFailed

  /** How a read from the object store ends. */
  datatype ReadOutcome = ReadOk | GetFails | StatFails | BodyFails

  datatype Response =
    | Error(status: int)
    | Created(key: string, size: int, contentType: string)
    | Served(contentType: string, length: int, body: seq<bv8>, hit: bool)
    | Deleted(key: string)

  datatype Request =
    | Upload(filename: string, contentType: string, body: seq<bv8>, readable: bool,
             put: PutOutcome, hset: bool, sadd: bool, now: int)
    | Serve(filename: string, read: ReadOutcome, now: int)
    | Delete(filename: string, removed: bool, del: bool, srem: bool)

  /** The handler's state as a value. `meta` keeps the content type and size recorded for a key. */
  datatype HandlerState = HandlerState(
    cache: CacheState,
    store: map<string, Object>,
    meta: map<string, (string, int)>,
    index: set<string>)

  /** The body the handler reads: silently cut at 100 MB. */
  function Limited(body: seq<bv8>): seq<bv8> {
    body[..Min(|body|, MAX_BODY)]
  }

  function Detected(contentType: string, filename: string, detect: string -> string): string {
    if contentType == "" || contentType == "application/octet-stream" then detect(filename) else contentType
  }

  function AssetOf(o: Object, now: int): Asset {
    Asset(o.data, o.contentType, |o.data|, now)
  }

  function Fetched(o: Object): Response {
    Served(o.contentType, |o.data|, o.data, false)
  }

  // ------------------------------------------------------------------ the object

  class Handler {
    const cache: AssetCache
    const detect: string -> string
    var store: map<string, Object>
    var meta: map<string, (string, int)>
    var index: set<string>

    function State(): HandlerState
      reads this, cache
    {
      HandlerState(cache.State(), store, meta, index)
    }

    constructor (maxBytes: int, detect: string -> string, store: map<string, Object>)
      ensures State() == HandlerState(CacheState(map[], maxBytes, 0), store, map[], {})
      ensures this.detect == detect && fresh(cache)
    {
      cache := new AssetCache(maxBytes);
      this.detect, this.store, meta, index := detect, store, map[], {};
    }

    method UploadAsset(ready: bool, filename: string, contentType: string, body: seq<bv8>, readable: bool,
                       put: PutOutcome, hset: bool, sadd: bool, now: int)
      returns (r: Response, ghost victims: seq<string>)
      requires "" !in cache.items
      modifies this, cache
      ensures "" !in cache.items
      ensures Handles(old(State()), detect, ready,
                      Upload(filename, contentType, body, readable, put, hset, sadd, now), victims, r, State())
    {
      victims := [];
      if !ready { return Error(503), []; }
      if filename == "" { return Error(400), []; }
      var contentType' := contentType;
      if contentType == "" || contentType == "application/octet-stream" {
        contentType' := detect(filename);
      }
      if !readable { return Error(400), []; }
      var data := Limited(body);
      var stored := Object(data, contentType');
      if put != Refused { store := store[filename := stored]; }
      if put != Stored { return Error(502), []; }
      if hset { meta := meta[filename := (contentType', |data|)]; }
      if sadd { index := index + {filename}; }
      victims := cache.Set(filename, AssetOf(stored, now));
      r := Created(filename, |data|, contentType');
    }

    method ServeAsset(ready: bool, filename: string, read: ReadOutcome, now: int)
      returns (r: Response, ghost victims: seq<string>)
      requires "" !in cache.items
      modifies cache
      ensures "" !in cache.items
      ensures Handles(old(State()), detect, ready, Serve(filename, read, now), victims, r, State())
    {
      victims := [];
      if !ready { return Error(503), []; }
      if filename == "" { return Error(400), []; }
      var cached := cache.Get(filename);
      if cached.Some? {
        var a := cached.value;
        return Served(a.contentType, a.size, a.data, true), [];
      }
      if read == GetFails || read == StatFails || filename !in store {
        return Error(404), [];
      }
      if read == BodyFails { return Error(500), []; }
      var stored := store[filename];
      victims := cache.Set(filename, AssetOf(stored, now));
      r := Fetched(stored);
    }

    method DeleteAsset(ready: bool, filename: string, removed: bool, del: bool, srem: bool) returns (r: Response)
      requires "" !in cache.items
      modifies this, cache
      ensures "" !in cache.items
      ensures Handles(old(State()), detect, ready, Delete(filename, removed, del, srem), [], r, State())
    {
      if !ready { return Error(503); }
      if filename == "" { return Error(400); }
      if removed { store := store - {filename}; }
      if del { meta := meta - {filename}; }
      if srem { index := index - {filename}; }
      cache.Remove(filename);
      r := Deleted(filename);
    }
  }

  // -------------------------------------------------------------- the specification

  /** What one request does: its response and the new state. */
  ghost predicate Handles(s: HandlerState, detect: string -> string, ready: bool, q: Request, victims: seq<string>,
                          r: Response, t: HandlerState)
  {
    if !ready then r == Error(503) && t == s
    else if q.filename == "" then r == Error(400) && t == s
    else match q
         case Upload(k, ct, body, readable, put, hset, sadd, now) =>
           var o := Object(Limited(body), Detected(ct, k, detect));
           if !readable then r == Error(400) && t == s
           else if put.Refused? then r == Error(502) && t == s
           else if put.StoredButFailed? then r == Error(502) && t == s.(store := s.store[k := o])
           else
             && r == Created(k, |o.data|, o.contentType)
             && SetTo(s.cache, k, AssetOf(o, now), victims, t.cache)
             && t.store == s.store[k := o]
             && t.meta == (if hset then s.meta[k := (o.contentType, |o.data|)] else s.meta)
             && t.index == (if sadd then s.index + {k} else s.index)
         case Serve(k, read, now) =>
           if k in s.cache.items then
             var a := s.cache.items[k];
             r == Served(a.contentType, a.size, a.data, true) && t == s
           else if read.GetFails? || read.StatFails? || k !in s.store then r == Error(404) && t == s
           else if read.BodyFails? then r == Error(500) && t == s
           else
             && r == Fetched(s.store[k])
             && SetTo(s.cache, k, AssetOf(s.store[k], now), victims, t.cache)
             && t == s.(cache := t.cache)
         case Delete(k, removed, del, srem) =>
           && r == Deleted(k)
           && t.cache == RemoveFrom(s.cache, k)
           && t.store == (if removed then s.store - {k} else s.store)
           && t.meta == (if del then s.meta - {k} else s.meta)
           && t.index == (if srem then s.index - {k} else s.index)
  }

  // -------------------------------------------------- the cache agrees with the store

  /** The cached asset is the stored object, with its length. */
  predicate Matches(a: Asset, o: Object) {
    a.data == o.data && a.contentType == o.contentType && a.size == |o.data|
  }

  /** What is cached under `k` is what is stored under it. */
  predicate AgreesOn(s: HandlerState, k: string) {
    k in s.cache.items ==> k in s.store && Matches(s.cache.items[k], s.store[k])
  }

  ghost predicate Agrees(s: HandlerState) {
    "" !in s.cache.items && forall k :: AgreesOn(s, k)
  }

  /** An upload that stored its object and yet reported failure. */
  predicate Misreported(ready: bool, q: Request) {
    ready && q.Upload? && q.filename != "" && q.readable && q.put.StoredButFailed?
  }

  /** Every request keeps the agreement on a name, unless it is an upload of that name stored and reported as failed. */
  lemma RequestKeepsAgreement(s: HandlerState, detect: string -> string, ready: bool, q: Request, victims: seq<string>,
                              r: Response, t: HandlerState, k: string)
    requires AgreesOn(s, k) && Handles(s, detect, ready, q, victims, r, t)
    requires Misreported(ready, q) ==> q.filename != k
    ensures AgreesOn(t, k)
  {}

  /** And a misreported upload keeps it exactly when no other object was cached under the name. */
  lemma MisreportedUploadAgreesIff(s: HandlerState, detect: string -> string, q: Request, victims: seq<string>,
                                   r: Response, t: HandlerState)
    requires Agrees(s) && Handles(s, detect, true, q, victims, r, t) && Misreported(true, q)
    ensures Agrees(t) <==>
            (q.filename in s.cache.items ==>
              && q.filename in s.store
              && s.store[q.filename] == Object(Limited(q.body), Detected(q.contentType, q.filename, detect)))
  {
    assert AgreesOn(s, q.filename);
    forall k | k != q.filename ensures AgreesOn(t, k) <==> AgreesOn(s, k) {}
    assert Agrees(t) <==> AgreesOn(t, q.filename);
  }

  // ------------------------------------------------------------------ whole runs

  datatype Exchange = Exchange(ready: bool, request: Request, victims: seq<string>, response: Response)

  ghost predicate IsRun(states: seq<HandlerState>, detect: string -> string, log: seq<Exchange>) {
    && |states| == |log| + 1
    && states[0].cache.items == map[]
    && forall n :: 0 <= n < |log| ==>
         Handles(states[n], detect, log[n].ready, log[n].request, log[n].victims, log[n].response, states[n + 1])
  }

  lemma {:induction false} RunKeepsAgreement(states: seq<HandlerState>, detect: string -> string, log: seq<Exchange>,
                                             n: nat, k: string)
    requires IsRun(states, detect, log) && n <= |log|
    requires forall m :: 0 <= m < n && Misreported(log[m].ready, log[m].request) ==> log[m].request.filename != k
    ensures AgreesOn(states[n], k)
  {
    if n > 0 {
      RunKeepsAgreement(states, detect, log, n - 1, k);
      var x := log[n - 1];
      RequestKeepsAgreement(states[n - 1], detect, x.ready, x.request, x.victims, x.response, states[n], k);
    }
  }

  /**
   In every run without a misreported upload of its name, a served asset is the stored
   object: the response is what a server without a cache would send, apart from the
   mark that says whether it was a hit.
   */
  lemma ServesWhatIsStored(states: seq<HandlerState>, detect: string -> string, log: seq<Exchange>, n: nat)
    requires IsRun(states, detect, log) && n < |log|
    requires log[n].response.Served?
    requires forall m :: 0 <= m < n && Misreported(log[m].ready, log[m].request) ==>
               log[m].request.filename != log[n].request.filename
    ensures log[n].request.Serve? && log[n].request.filename in states[n].store
    ensures log[n].response.(hit := false) == Fetched(states[n].store[log[n].request.filename])
    ensures log[n].response.hit <==> log[n].request.filename in states[n].cache.items
  {
    RunKeepsAgreement(states, detect, log, n, log[n].request.filename);
    var x := log[n];
    assert Handles(states[n], detect, x.ready, x.request, x.victims, x.response, states[n + 1]);
  }

  // ---------------------------------------------------------------------- round trips

  /** What was uploaded is served back, from the cache and whatever the object store does then. */
  lemma UploadThenServe(s: HandlerState, t: HandlerState, u: HandlerState, detect: string -> string,
                        up: Request, victims: seq<string>, created: Response,
                        get: Request, more: seq<string>, served: Response)
    requires up.Upload? && get.Serve? && get.filename == up.filename
    requires Handles(s, detect, true, up, victims, created, t) && created.Created?
    requires Handles(t, detect, true, get, more, served, u)
    ensures served == Served(Detected(up.contentType, up.filename, detect), |Limited(up.body)|, Limited(up.body), true)
    ensures created.size == served.length && created.contentType == served.contentType && u == t
  {}

  /** What was deleted is not served, from the cache or the object store. */
  lemma DeleteThenServe(s: HandlerState, t: HandlerState, u: HandlerState, detect: string -> string,
                        del: Request, deleted: Response, get: Request, victims: seq<string>, served: Response)
    requires del.Delete? && del.removed && get.Serve? && get.filename == del.filename != ""
    requires Handles(s, detect, true, del, [], deleted, t)
    requires Handles(t, detect, true, get, victims, served, u)
    ensures served == Error(404) && u == t
  {}

  // ----------------------------------------------------------------------- the index

  /** No backend call of the request fails. */
  predicate Clean(q: Request) {
    match q
    case Upload(_, _, _, _, put, hset, sadd, _) => put.Stored? && hset && sadd
    case Serve(_, _, _) => true
    case Delete(_, removed, del, srem) => removed && del && srem
  }

  ghost predicate Indexed(s: HandlerState) {
    && s.index == s.store.Keys == s.meta.Keys
    && forall k :: k in s.store ==> s.meta[k] == (s.store[k].contentType, |s.store[k].data|)
  }

  /** In runs in which no backend fails, the index and the metadata describe exactly the stored objects. */
  lemma {:induction false} CleanRunsStayIndexed(states: seq<HandlerState>, detect: string -> string, log: seq<Exchange>,
                                                n: nat)
    requires IsRun(states, detect, log) && n <= |log| && Indexed(states[0])
    requires forall m :: 0 <= m < n ==> Clean(log[m].request)
    ensures Indexed(states[n])
  {
    if n > 0 {
      CleanRunsStayIndexed(states, detect, log, n - 1);
      var s, x, t := states[n - 1], log[n - 1], states[n];
      assert Handles(s, detect, x.ready, x.request, x.victims, x.response, t);
      assert Clean(x.request);
    }
  }
}
