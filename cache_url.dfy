/** The URL-keyed cache of traficFines/cacheURL.py.

    A `CacheURL` is a file cache whose keys are the MD5 hex digests of URLs. The
    parent file cache is kept as a map from key to file content; the network is a
    function from URL to `Response`, passed to the one operation that uses it. */
module UrlCache {
  import opened Outcomes

  const HexDigits := "0123456789abcdef"

  /** What `hashlib.md5(...).hexdigest()` returns: 32 lower-case hex characters. */
  predicate IsHexDigest(s: string) {
    |s| == 32 && forall i :: 0 <= i < |s| ==> s[i] in HexDigits
  }

  type Digest = s: string | IsHexDigest(s) witness "00000000000000000000000000000000"

  /** The answer of `requests.get(url, timeout=30)`: a status and a body, or the
      `RequestException` raised for DNS, connection and timeout failures. */
  datatype Response = Reply(status: int, text: string) | Unreachable(reason: string)

  /** `CacheError` and the parent cache's own failures. */
  datatype CacheError =
    | HttpError(status: int, url: string)  // a reply whose status is not 200
    | RequestFailed(reason: string)        // the request itself failed
    | Miss(key: string)                    // a key with no entry in the parent cache

  /** The parent's `load(key)`. */
  function LoadKey(store: map<string, string>, key: string): Result<string, CacheError> {
    if key in store then Ok(store[key]) else Err(Miss(key))
  }

  /** What one `get` did: its result, the parent store afterwards, and whether it
      went to the network. */
  datatype Fetched = Fetched(result: Result<string, CacheError>, store: map<string, string>, requested: bool)

  /** `get(url)` on a parent store, `key` being the URL's digest: serve a stored entry,
      otherwise download, keeping the body only when the status is 200. */
  function FetchOrServe(store: map<string, string>, key: string, url: string, net: string -> Response): (f: Fetched)
    // a hit is answered from the store, with no request and no change
    ensures key in store ==> f == Fetched(Ok(store[key]), store, false)
    // a miss always goes to the network, and succeeds exactly on a 200 reply, with its body
    ensures key !in store ==> f.requested
    ensures key !in store ==> (f.result.Ok? <==> net(url).Reply? && net(url).status == 200)
    ensures key !in store && f.result.Ok? ==> f.result.value == net(url).text
    ensures key !in store && net(url).Reply? && net(url).status != 200 ==> f.result == Err(HttpError(net(url).status, url))
    ensures key !in store && net(url).Unreachable? ==> f.result == Err(RequestFailed(net(url).reason))
    // what was returned is what is stored under the key
    ensures f.result.Ok? ==> LoadKey(f.store, key) == f.result
    // a failure stores nothing; a success adds at most the one key and overwrites nothing
    ensures f.result.Err? ==> f.store == store
    ensures f.store == store || (key !in store && f.result.Ok? && f.store == store[key := f.result.value])
  {
    if key in store then Fetched(Ok(store[key]), store, false)
    else
      match net(url)
      case Reply(status, text) =>
        if status == 200 then Fetched(Ok(text), store[key := text], true)
        else Fetched(Err(HttpError(status, url)), store, true)
      case Unreachable(reason) => Fetched(Err(RequestFailed(reason)), store, true)
  }

  /** Two `get`s of one URL: whatever the network answers the second time, the second
      returns what the first returned, from the store, and changes nothing. */
  lemma GetTwice(store: map<string, string>, key: string, url: string, net1: string -> Response, net2: string -> Response)
    requires FetchOrServe(store, key, url, net1).result.Ok?
    ensures var first := FetchOrServe(store, key, url, net1);
            FetchOrServe(first.store, key, url, net2) == Fetched(first.result, first.store, false)
  {
  }

  /** Two URLs with the same digest share one entry: after the first is fetched,
      `get` of the second is served the first one's content. */
  lemma SharedDigest(store: map<string, string>, key: string, url1: string, url2: string, net: string -> Response)
    requires FetchOrServe(store, key, url1, net).result.Ok?
    ensures var first := FetchOrServe(store, key, url1, net);
            FetchOrServe(first.store, key, url2, net).result == first.result
  {
  }

  class CacheURL {
    const appName: string
    const obsolescence: int
    /** `hashlib.md5(url.encode('utf-8')).hexdigest()`, left uninterpreted. */
    const digest: string -> Digest
    /** The parent cache: file name to file content. */
    var store: map<string, string>
    /** The URLs `get` has requested from the network, oldest first. */
    ghost var fetched: seq<string>

    /** `onDisk` is what the cache directory already holds from earlier runs. */
    constructor (appName: string, obsolescence: int, digest: string -> Digest, onDisk: map<string, string>)
      ensures this.appName == appName && this.obsolescence == obsolescence && this.digest == digest
      ensures store == onDisk && fetched == []
    {
      this.appName := appName;
      this.obsolescence := obsolescence;
      this.digest := digest;
      store := onDisk;
      fetched := [];
    }

    /** `__url_to_hash`: the same URL always gives the same 32-character hex key. */
    function UrlToHash(url: string): (key: string)
      ensures IsHexDigest(key)
    {
      digest(url)
    }

    /** The parent's `set(name, data)`: the entry is replaced whole. */
    method SetKey(key: string, data: string)
      modifies this
      ensures store == old(store)[key := data] && fetched == old(fetched)
    {
      store := store[key := data];
    }

    /** `exists(url)`: the parent's `exists` on the URL's key. */
    predicate Exists(url: string)
      reads this
      ensures Exists(url) <==> UrlToHash(url) in store
    {
      UrlToHash(url) in store
    }

    /** `load(url)`: the parent's `load` on the URL's key. */
    function Load(url: string): (r: Result<string, CacheError>)
      reads this
      ensures r.Ok? <==> Exists(url)
      ensures r.Ok? ==> r.value == store[UrlToHash(url)]
      ensures r.Err? ==> r.error == Miss(UrlToHash(url))
    {
      LoadKey(store, UrlToHash(url))
    }

    /** `how_old(url)`: the parent's age of the URL's key, `ageOf` standing for the
        parent's reading of the file's modification time against the clock. */
    function HowOld(url: string, ageOf: string -> real): (r: Result<real, CacheError>)
      reads this
      ensures r.Ok? <==> Exists(url)
      ensures r.Ok? ==> r.value == ageOf(UrlToHash(url))
      ensures r.Err? ==> r.error == Miss(UrlToHash(url))
    {
      var key := UrlToHash(url);
      if key in store then Ok(ageOf(key)) else Err(Miss(key))
    }

    /** `delete(url)`: removes the URL's entry, if any, and nothing else. */
    method Delete(url: string)
      modifies this
      ensures store == old(store) - {UrlToHash(url)} && fetched == old(fetched)
      ensures !Exists(url)
    {
      var key := UrlToHash(url);
      store := store - {key};
    }

    /** `get(url)`: served from the store on a hit; on a miss the URL is requested and
        a 200 body is stored under the URL's key; any other outcome is a `CacheError`. */
    method Get(url: string, net: string -> Response) returns (r: Result<string, CacheError>)
      modifies this
      ensures var f := FetchOrServe(old(store), UrlToHash(url), url, net);
              r == f.result && store == f.store &&
              fetched == old(fetched) + (if f.requested then [url] else [])
      ensures old(Exists(url)) ==> r == old(Load(url)) && store == old(store) && fetched == old(fetched)
      ensures r.Ok? ==> Exists(url) && Load(url) == r
      ensures r.Err? ==> store == old(store)
    {
      var key := UrlToHash(url);
      if Exists(url) {
        return Load(url);
      }
      fetched := fetched + [url];
      var response := net(url);
      match response
      case Reply(status, text) =>
        if status == 200 {
          SetKey(key, text);
          r := Ok(text);
        } else {
          r := Err(HttpError(status, url));
        }
      case Unreachable(reason) =>
        r := Err(RequestFailed(reason));
    }
  }
}
