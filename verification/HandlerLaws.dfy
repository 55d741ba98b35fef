/**
 What clients of the asset handlers see over one and two requests
 (internal/binaryhandler/handler.go): statuses, round trips, and what stays as it was.
 */
module HandlerLaws {
  import opened CacheTypes
  import opened AssetCache
  import R = AssetCacheRuns
  import opened BinaryHandler

  // ------------------------------------------------------------------------ refusals

  /** Each error status, exactly when it is sent. */
  lemma StatusIff(s: HandlerState, detect: string -> string, ready: bool, q: Request, victims: seq<string>,
                  r: Response, t: HandlerState)
    requires Handles(s, detect, ready, q, victims, r, t)
    ensures r == Error(503) <==> !ready
    ensures r == Error(400) <==> ready && (q.filename == "" || (q.Upload? && !q.readable))
    ensures r == Error(502) <==> ready && q.filename != "" && q.Upload? && q.readable && q.put != Stored
    ensures r == Error(404) <==>
            ready && q.filename != "" && q.Serve? && q.filename !in s.cache.items
            && (q.read == GetFails || q.read == StatFails || q.filename !in s.store)
    ensures r == Error(500) <==>
            ready && q.filename != "" && q.Serve? && q.filename !in s.cache.items && q.filename in s.store
            && q.read == BodyFails
    ensures r.Error? ==> r.status in {503, 400, 502, 404, 500}
  {}

  /** A refused request changes nothing, but that an upload reported as failed may have been stored. */
  lemma RefusedChangesNothing(s: HandlerState, detect: string -> string, ready: bool, q: Request, victims: seq<string>,
                              r: Response, t: HandlerState)
    requires Handles(s, detect, ready, q, victims, r, t) && r.Error?
    ensures t.cache == s.cache && t.meta == s.meta && t.index == s.index
    ensures !Misreported(ready, q) ==> t == s
  {}

  // ------------------------------------------------------------- what a request leaves

  /** What a cached entry under another name can come to: it stays as it is, or is evicted for want of room. */
  ghost predicate KeptOrEvicted(s: CacheState, k: string, newSize: nat, t: CacheState, o: string)
    requires o in s.items
  {
    || (o in t.items && t.items[o] == s.items[o])
    || (&& o !in t.items && StartBytes(s, k) + newSize > s.maxBytes
        && forall p :: p in s.items && p in t.items && p != k ==> s.items[o].cachedAt <= s.items[p].cachedAt)
  }

  lemma SetLeaves(s: CacheState, k: string, a: Asset, victims: seq<string>, t: CacheState)
    requires SetTo(s, k, a, victims, t)
    ensures k in t.items && t.items[k] == a && t.maxBytes == s.maxBytes
    ensures forall o :: o in t.items && o != k ==> o in s.items
    ensures forall o :: o in s.items && o != k ==> KeptOrEvicted(s, k, |a.data|, t, o)
  {
    R.SetRespectsBudget(s, k, a, victims, t);
  }

  /** The cached asset is the stored object, cached at a given time. */
  predicate CachedAt(a: Asset, o: Object, now: int) {
    a.data == o.data && a.contentType == o.contentType && a.size == |o.data| && a.cachedAt == now
  }

  /** The object an upload stores: all of its body up to 100 MB, and the type it names unless that says nothing. */
  ghost predicate StoredFrom(q: Request, detect: string -> string, o: Object)
    requires q.Upload?
  {
    && o.data == (if |q.body| <= 104857600 then q.body else q.body[..104857600])
    && o.contentType == if q.contentType in {"", "application/octet-stream"} then detect(q.filename) else q.contentType
  }

  /**
   An accepted upload: the object is stored, and cached with the age of this request; the
   metadata and the index each follow their own call; nothing under another name changes,
   except that cached entries may be evicted for want of room.
   */
  lemma UploadLeaves(s: HandlerState, detect: string -> string, q: Request, victims: seq<string>,
                     r: Response, t: HandlerState)
    requires q.Upload? && Handles(s, detect, true, q, victims, r, t) && r.Created?
    ensures q.filename in t.store && StoredFrom(q, detect, t.store[q.filename])
    ensures q.filename in t.cache.items && CachedAt(t.cache.items[q.filename], t.store[q.filename], q.now)
    ensures q.hset ==> q.filename in t.meta
                       && t.meta[q.filename] == (t.store[q.filename].contentType, |t.store[q.filename].data|)
    ensures !q.hset ==> t.meta == s.meta
    ensures q.filename in t.index <==> q.sadd || q.filename in s.index
    ensures OthersStay(s, t, q.filename)
    ensures forall o :: o in s.cache.items && o != q.filename ==>
              KeptOrEvicted(s.cache, q.filename, |t.store[q.filename].data|, t.cache, o)
  {
    SetLeaves(s.cache, q.filename, AssetOf(t.store[q.filename], q.now), victims, t.cache);
  }

  /** Store, metadata and index under other names. */
  ghost predicate OthersStay(s: HandlerState, t: HandlerState, k: string) {
    && t.store - {k} == s.store - {k} && t.meta - {k} == s.meta - {k} && t.index - {k} == s.index - {k}
    && forall o :: o in t.cache.items && o != k ==> o in s.cache.items
  }

  /**
   A serve changes nothing but the cache; a hit not even that. A miss caches the stored
   object with the age of this request, and other entries stay unless evicted for want of room.
   */
  lemma ServeLeaves(s: HandlerState, detect: string -> string, q: Request, victims: seq<string>,
                    r: Response, t: HandlerState)
    requires q.Serve? && Handles(s, detect, true, q, victims, r, t) && r.Served?
    ensures t == s.(cache := t.cache)
    ensures r.hit ==> t == s
    ensures !r.hit ==>
              && q.filename in s.store && q.filename in t.cache.items
              && CachedAt(t.cache.items[q.filename], s.store[q.filename], q.now)
              && (var o := s.store[q.filename]; r == Served(o.contentType, |o.data|, o.data, false))
              && (forall o :: o in t.cache.items && o != q.filename ==> o in s.cache.items)
              && forall o :: o in s.cache.items && o != q.filename ==>
                   KeptOrEvicted(s.cache, q.filename, |s.store[q.filename].data|, t.cache, o)
    ensures q.filename in t.cache.items
  {
    if !r.hit { SetLeaves(s.cache, q.filename, AssetOf(s.store[q.filename], q.now), victims, t.cache); }
  }

  /**
   An accepted deletion: the name is never cached afterwards; the object, the metadata and
   the index entry go exactly if their own call succeeds; nothing else changes.
   */
  lemma DeleteLeaves(s: HandlerState, detect: string -> string, q: Request, r: Response, t: HandlerState)
    requires q.Delete? && Handles(s, detect, true, q, [], r, t) && r.Deleted?
    ensures r == Deleted(q.filename) && t.cache.items == s.cache.items - {q.filename}
    ensures q.filename in t.store <==> !q.removed && q.filename in s.store
    ensures q.filename in t.store ==> t.store[q.filename] == s.store[q.filename]
    ensures q.filename in t.meta <==> !q.del && q.filename in s.meta
    ensures q.filename in t.meta ==> t.meta[q.filename] == s.meta[q.filename]
    ensures q.filename in t.index <==> !q.srem && q.filename in s.index
    ensures OthersStay(s, t, q.filename)
  {}

  // ------------------------------------------------------------------------ two requests

  /** What was served once is served again from the cache, whatever the object store does then. */
  lemma ServeThenServe(s: HandlerState, t: HandlerState, u: HandlerState, detect: string -> string,
                       first: Request, victims: seq<string>, a: Response,
                       second: Request, more: seq<string>, b: Response)
    requires first.Serve? && second.Serve? && second.filename == first.filename
    requires Handles(s, detect, true, first, victims, a, t) && a.Served?
    requires Handles(t, detect, true, second, more, b, u)
    ensures b == a.(hit := true) && u == t
  {
    ServeLeaves(s, detect, first, victims, a, t);
  }

  /** What was uploaded is served back: the body up to 100 MB, and the content type named or detected. */
  lemma UploadedIsServed(s: HandlerState, t: HandlerState, u: HandlerState, detect: string -> string,
                         up: Request, victims: seq<string>, created: Response,
                         get: Request, more: seq<string>, served: Response)
    requires up.Upload? && get.Serve? && get.filename == up.filename
    requires Handles(s, detect, true, up, victims, created, t) && created.Created?
    requires Handles(t, detect, true, get, more, served, u)
    ensures served.Served? && served.hit && u == t && served.length == |served.body|
    ensures served.body == if |up.body| <= 104857600 then up.body else up.body[..104857600]
    ensures served.contentType ==
            if up.contentType == "" || up.contentType == "application/octet-stream" then detect(up.filename)
            else up.contentType
    ensures created == Created(up.filename, served.length, served.contentType)
  {
    UploadLeaves(s, detect, up, victims, created, t);
  }

  /**
   After an accepted deletion the next serve is never a hit: it sends the stored object
   again if the object store failed to remove it and can still be read, and 404 if it is gone.
   */
  lemma DeletedIsNoHit(s: HandlerState, t: HandlerState, u: HandlerState, detect: string -> string,
                       del: Request, deleted: Response, get: Request, victims: seq<string>, served: Response)
    requires del.Delete? && get.Serve? && get.filename == del.filename
    requires Handles(s, detect, true, del, [], deleted, t) && deleted.Deleted?
    requires Handles(t, detect, true, get, victims, served, u)
    ensures served.Served? ==> !served.hit
    ensures served.Served? <==> !del.removed && del.filename in s.store && get.read == ReadOk
    ensures served.Served? ==> served == Fetched(s.store[del.filename])
    ensures del.removed || del.filename !in s.store ==> served == Error(404)
  {
    DeleteLeaves(s, detect, del, deleted, t);
  }
}
