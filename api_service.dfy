/**
 * `src/services/apiService.js`: a two-tier cache (an in-memory map, then the
 * durable key/value store under `shophub_cache_<key>`) in front of a network
 * fetch tried at most three times with linear waits, and the cache keys and
 * lifetimes the exported fetchers choose.
 *
 * The clock is the parameter `now`; the network is the sequence of responses
 * the successive attempts would receive; the waits between attempts are
 * returned rather than slept.
 */
module ApiService {
  import opened Wrappers
  import JsValue
  import Text

  /** `CACHE_EXPIRY`: thirty minutes, in milliseconds. */
  const CacheExpiry: int := 30 * 60 * 1000

  /** `maxRetries`. */
  const MaxRetries: nat := 3

  /** A cached value with the time it was fetched. */
  datatype Entry = Entry(data: JsValue.Value, timestamp: int)

  /** What the durable store holds under a key: an entry that parses, or text
      that does not (reading it throws and the error is swallowed). */
  datatype Durable = Readable(entry: Entry) | Corrupt

  /** What one network attempt gets: a parsed ok response (with the clock when
      it arrived), a response whose `ok` is false, or a thrown error (network
      failure or a body that is not JSON). */
  datatype Response =
    | Success(data: JsValue.Value, at: int)
    | NotOk(status: nat, statusText: string)
    | Thrown(message: string)

  /** An entry is fresh while strictly less than `expiry` has passed. */
  predicate Fresh(e: Entry, now: int, expiry: int) {
    now - e.timestamp < expiry
  }

  /** The durable key of a cache key. */
  function DurableKey(key: string): (r: string)
    ensures |r| == |key| + 14 && r[14..] == key
  {
    "shophub_cache_" + key
  }

  /** The message of the error a failed attempt throws. */
  function AttemptError(r: Response): string {
    match r
    case Success(_, _) => ""
    case NotOk(status, text) => "HTTP " + Text.NatToString(status) + ": " + text
    case Thrown(message) => message
  }

  /** The message thrown once every attempt has failed. */
  function FailureMessage(lastError: string): string {
    "Failed to load data after " + Text.NatToString(MaxRetries) + " attempts: " + lastError
  }

  // ----- the retry loop, as a specification -----

  /** What the retry loop produces: the fetched entry or the last error, how
      many attempts it made and the waits between them. */
  datatype Retried = Retried(result: Result<Entry, string>, attempts: nat, waits: seq<int>)

  /** The loop from attempt `attempt` on, `lastError` being the message of the
      previous failure. */
  function RetryFrom(network: seq<Response>, attempt: nat, lastError: string): (r: Retried)
    requires 1 <= attempt <= MaxRetries + 1 && |network| >= MaxRetries
    ensures attempt <= MaxRetries ==> attempt <= r.attempts <= MaxRetries
    ensures attempt <= MaxRetries ==> (|r.waits| == r.attempts - attempt &&
                                       forall i :: 0 <= i < |r.waits| ==> r.waits[i] == 1000 * (attempt + i))
    decreases MaxRetries + 1 - attempt
  {
    if attempt > MaxRetries then Retried(Err(lastError), MaxRetries, [])
    else
      match network[attempt - 1]
      case Success(data, at) => Retried(Ok(Entry(data, at)), attempt, [])
      case _ =>
        var rest := RetryFrom(network, attempt + 1, AttemptError(network[attempt - 1]));
        var wait := if attempt < MaxRetries then [1000 * attempt] else [];
        Retried(rest.result, rest.attempts, wait + rest.waits)
  }

  /** The delay after failed attempt `k` is `1000 * k` milliseconds: it grows
      linearly, and there is none after the last attempt. */
  function Retry(network: seq<Response>): (r: Retried)
    requires |network| >= MaxRetries
    ensures 1 <= r.attempts <= MaxRetries
    ensures |r.waits| == r.attempts - 1 && forall i :: 0 <= i < |r.waits| ==> r.waits[i] == 1000 * (i + 1)
  {
    RetryFrom(network, 1, "")
  }

  /** The loop makes between one and three attempts, stops at the first
      success and otherwise reports the error of the third attempt. */
  lemma RetryStopsAtFirstSuccess(network: seq<Response>)
    requires |network| >= MaxRetries
    ensures var r := Retry(network);
      1 <= r.attempts <= MaxRetries &&
      (forall k :: 0 <= k < r.attempts - 1 ==> !network[k].Success?) &&
      (r.result.Ok? <==> network[r.attempts - 1].Success?) &&
      (r.result.Ok? ==> r.result.value == Entry(network[r.attempts - 1].data, network[r.attempts - 1].at)) &&
      (r.result.Err? ==> r.attempts == MaxRetries && r.result.error == AttemptError(network[2]))
  {
    var r2 := RetryFrom(network, 3, AttemptError(network[1]));
    var r1 := RetryFrom(network, 2, AttemptError(network[0]));
    assert r2.attempts == 3 && (r2.result.Ok? <==> network[2].Success?);
    assert !network[0].Success? ==> r1.attempts >= 2;
  }

  /** After failed attempt `k` the loop waits `1000 * k` ms, unless `k` was the
      last attempt: the waits grow linearly. */
  lemma RetryWaits(network: seq<Response>)
    requires |network| >= MaxRetries
    ensures var r := Retry(network);
      |r.waits| == (if r.result.Ok? then r.attempts - 1 else MaxRetries - 1) &&
      forall k :: 0 <= k < |r.waits| ==> r.waits[k] == 1000 * (k + 1)
  {
    var r := Retry(network);
    var r3 := RetryFrom(network, 3, AttemptError(network[1]));
    var r2 := RetryFrom(network, 2, AttemptError(network[0]));
    assert r3.waits == [];
    assert !network[1].Success? ==> r2.waits == [2000] + r3.waits;
  }

  function Sum(s: seq<int>): int {
    if s == [] then 0 else s[0] + Sum(s[1..])
  }

  /** When every attempt fails the loop waits 1000 + 2000 ms in total. */
  lemma TotalWaitWhenAllFail(network: seq<Response>)
    requires |network| >= MaxRetries
    requires forall k :: 0 <= k < MaxRetries ==> !network[k].Success?
    ensures Retry(network).waits == [1000, 2000]
    ensures Sum(Retry(network).waits) == 3000
  {
    RetryWaits(network);
    RetryStopsAtFirstSuccess(network);
    var w := Retry(network).waits;
    assert |w| == 2 && w[0] == 1000 && w[1] == 2000;
    assert w == [1000, 2000];
    assert Sum([2000]) == 2000 by { assert [2000][1..] == []; }
    assert w[1..] == [2000];
  }

  /** The loop of `fetchWithCache`: it tries up to `MaxRetries` times, returns
      at the first ok response and records the wait after each failure but
      the last. */
  method RetryLoop(network: seq<Response>) returns (result: Result<Entry, string>, attempts: nat, waits: seq<int>)
    requires |network| >= MaxRetries
    ensures Retried(result, attempts, waits) == Retry(network)
  {
    var lastError := "";
    waits := [];
    var attempt := 1;
    while attempt <= MaxRetries
      invariant 1 <= attempt <= MaxRetries + 1
      invariant attempt > 1 ==> lastError == AttemptError(network[attempt - 2])
      invariant var rest := RetryFrom(network, attempt, lastError);
        Retry(network) == Retried(rest.result, rest.attempts, waits + rest.waits)
      decreases MaxRetries + 1 - attempt
    {
      var response := network[attempt - 1];
      if response.Success? {
        return Ok(Entry(response.data, response.at)), attempt, waits;
      }
      lastError := AttemptError(response);
      if attempt < MaxRetries {
        waits := waits + [1000 * attempt];
      }
      attempt := attempt + 1;
    }
    result, attempts := Err(lastError), MaxRetries;
  }

  // ----- fetchWithCache, as a specification -----

  /** The two tiers. */
  datatype Caches = Caches(memory: map<string, Entry>, durable: map<string, Durable>)

  /** Which stage answered. */
  datatype Source = FromMemory | FromDurable | FromNetwork(attempts: nat)

  /** The value or error returned, the tiers afterwards, the stage that
      answered and the waits between network attempts. */
  datatype Reply = Reply(result: Result<JsValue.Value, string>, caches: Caches, source: Source, waits: seq<int>)

  /** A memory entry for `key` that is no longer fresh is deleted. */
  function DropExpiredMemory(c: Caches, key: string, expiry: int, now: int): Caches {
    if key in c.memory && !Fresh(c.memory[key], now, expiry) then c.(memory := c.memory - {key}) else c
  }

  /** A readable durable entry for `key` that is no longer fresh is removed. */
  function DropExpiredDurable(c: Caches, key: string, expiry: int, now: int): Caches {
    var dk := DurableKey(key);
    if dk in c.durable && c.durable[dk].Readable? && !Fresh(c.durable[dk].entry, now, expiry)
    then c.(durable := c.durable - {dk})
    else c
  }

  /** `fetchWithCache(url, key, expiry)`; `durableWriteOk` says whether the
      durable write after a successful fetch goes through. */
  function Fetch(c: Caches, key: string, expiry: int, now: int, network: seq<Response>, durableWriteOk: bool): (r: Reply)
    requires |network| >= MaxRetries
    ensures r.source == FromMemory <==> key in c.memory && Fresh(c.memory[key], now, expiry)
    ensures r.source == FromMemory ==> r.caches == c && r.result == Ok(c.memory[key].data)
    ensures r.source == FromDurable ==>
      var dk := DurableKey(key);
      dk in c.durable && c.durable[dk].Readable? && Fresh(c.durable[dk].entry, now, expiry) &&
      r.result == Ok(c.durable[dk].entry.data) &&
      key in r.caches.memory && r.caches.memory[key] == c.durable[dk].entry &&
      r.caches.durable == c.durable
    ensures r.source.FromNetwork? ==> 1 <= r.source.attempts <= MaxRetries
    ensures r.source.FromNetwork? && r.result.Ok? ==>
      key in r.caches.memory && r.result.value == r.caches.memory[key].data &&
      (durableWriteOk ==> DurableKey(key) in r.caches.durable &&
                          r.caches.durable[DurableKey(key)] == Readable(r.caches.memory[key]))
    ensures r.result.Err? ==> r.source.FromNetwork? && key !in r.caches.memory
    ensures r.source.FromNetwork? ==>
      var t := Retry(network);
      r.source.attempts == t.attempts && r.waits == t.waits && (r.result.Ok? <==> t.result.Ok?) &&
      (t.result.Ok? ==> r.result == Ok(t.result.value.data) && r.caches.memory[key] == t.result.value) &&
      (t.result.Err? ==> r.result == Err(FailureMessage(t.result.error)))
  {
    if key in c.memory && Fresh(c.memory[key], now, expiry) then
      Reply(Ok(c.memory[key].data), c, FromMemory, [])
    else
      var c1 := DropExpiredMemory(c, key, expiry, now);
      var dk := DurableKey(key);
      if dk in c1.durable && c1.durable[dk].Readable? && Fresh(c1.durable[dk].entry, now, expiry) then
        var e := c1.durable[dk].entry;
        Reply(Ok(e.data), c1.(memory := c1.memory[key := e]), FromDurable, [])
      else
        var c2 := DropExpiredDurable(c1, key, expiry, now);
        var t := Retry(network);
        RetryStopsAtFirstSuccess(network);
        match t.result
        case Ok(e) =>
          var durable := if durableWriteOk then c2.durable[dk := Readable(e)] else c2.durable;
          Reply(Ok(e.data), Caches(c2.memory[key := e], durable), FromNetwork(t.attempts), t.waits)
        case Err(last) =>
          Reply(Err(FailureMessage(last)), c2, FromNetwork(t.attempts), t.waits)
  }

  /** A call touches only its own entry in each tier. */
  lemma FetchTouchesOnlyItsKey(c: Caches, key: string, expiry: int, now: int, network: seq<Response>, w: bool)
    requires |network| >= MaxRetries
    ensures var r := Fetch(c, key, expiry, now, network, w);
      forall k :: k != key ==>
        (k in r.caches.memory <==> k in c.memory) && (k in c.memory ==> r.caches.memory[k] == c.memory[k])
    ensures var r := Fetch(c, key, expiry, now, network, w);
      forall k :: k != DurableKey(key) ==>
        (k in r.caches.durable <==> k in c.durable) && (k in c.durable ==> r.caches.durable[k] == c.durable[k])
  {
    var r := Fetch(c, key, expiry, now, network, w);
    var c2 := DropExpiredDurable(DropExpiredMemory(c, key, expiry, now), key, expiry, now);
    if r.source.FromNetwork? {
      assert r.caches.memory == c2.memory || r.caches.memory == c2.memory[key := r.caches.memory[key]];
      assert r.caches.durable == c2.durable || r.caches.durable == c2.durable[DurableKey(key) := r.caches.durable[DurableKey(key)]];
    }
  }

  /** The network is reached only when neither tier holds a fresh entry: an
      expired readable durable entry has then been removed and a corrupt one
      left in place (unless the fetch overwrote it). */
  lemma NetworkOnlyOnMiss(c: Caches, key: string, expiry: int, now: int, network: seq<Response>, w: bool)
    requires |network| >= MaxRetries
    ensures var r := Fetch(c, key, expiry, now, network, w);
      var dk := DurableKey(key);
      r.source.FromNetwork? <==>
        !(key in c.memory && Fresh(c.memory[key], now, expiry)) &&
        !(dk in c.durable && c.durable[dk].Readable? && Fresh(c.durable[dk].entry, now, expiry))
    ensures var r := Fetch(c, key, expiry, now, network, w);
      var dk := DurableKey(key);
      r.source.FromNetwork? && !(r.result.Ok? && w) ==>
        (dk in c.durable && c.durable[dk].Readable? ==> dk !in r.caches.durable) &&
        (dk in c.durable && c.durable[dk].Corrupt? ==> dk in r.caches.durable && r.caches.durable[dk].Corrupt?)
  {
  }

  /** A failed fetch reports the third attempt's error behind the fixed
      prefix, after all three attempts. */
  lemma FailureReportsLastError(c: Caches, key: string, expiry: int, now: int, network: seq<Response>, w: bool)
    requires |network| >= MaxRetries
    ensures var r := Fetch(c, key, expiry, now, network, w);
      r.result.Err? ==>
        r.source == FromNetwork(MaxRetries) &&
        r.result.error == "Failed to load data after 3 attempts: " + AttemptError(network[2])
  {
    RetryStopsAtFirstSuccess(network);
    assert Text.NatToString(MaxRetries) == "3";
  }

  /** Whatever a call stores is answered from memory by the next call, with the
      same data, until it expires: no durable read and no network. */
  lemma StoredThenServedFromMemory(c: Caches, key: string, expiry: int, now: int, network: seq<Response>, w: bool,
                                   later: int, network': seq<Response>, w': bool)
    requires |network| >= MaxRetries && |network'| >= MaxRetries
    requires var r := Fetch(c, key, expiry, now, network, w);
      r.result.Ok? && key in r.caches.memory && later - r.caches.memory[key].timestamp < expiry
    ensures var r := Fetch(c, key, expiry, now, network, w);
      var r' := Fetch(r.caches, key, expiry, later, network', w');
      r'.source == FromMemory && r'.result == r.result && r'.caches == r.caches
  {
  }

  /** A fresh durable entry is promoted with its own timestamp, so a second
      call at the same time is answered from memory. */
  lemma PromotedThenServedFromMemory(c: Caches, key: string, expiry: int, now: int, network: seq<Response>, w: bool)
    requires |network| >= MaxRetries
    requires Fetch(c, key, expiry, now, network, w).source == FromDurable
    ensures var r := Fetch(c, key, expiry, now, network, w);
      var r' := Fetch(r.caches, key, expiry, now, network, w);
      r'.source == FromMemory && r'.result == r.result
  {
  }

  /** Freshness is strict: an entry fetched at `t` is served up to
      `t + expiry - 1` and not at `t + expiry`. */
  lemma FreshBoundary(e: Entry, expiry: int)
    ensures Fresh(e, e.timestamp + expiry - 1, expiry)
    ensures !Fresh(e, e.timestamp + expiry, expiry)
  {
  }

  /** `ApiService`: the in-memory map and the durable store, with ghost traces
      of the network attempts made and the waits between them. */
  class Service {
    var memory: map<string, Entry>
    var durable: map<string, Durable>
    ghost var fetches: nat
    ghost var waited: seq<int>

    /** A new service starts with an empty memory map over whatever the
        durable store already holds. */
    constructor(stored: map<string, Durable>)
      ensures memory == map[] && durable == stored
      ensures fetches == 0 && waited == []
    {
      memory := map[];
      durable := stored;
      fetches := 0;
      waited := [];
    }

    method FetchWithCache(key: string, expiry: int, now: int, network: seq<Response>, durableWriteOk: bool)
      returns (result: Result<JsValue.Value, string>)
      requires |network| >= MaxRetries
      modifies this
      ensures var r := Fetch(old(Caches(memory, durable)), key, expiry, now, network, durableWriteOk);
        result == r.result && Caches(memory, durable) == r.caches && waited == old(waited) + r.waits &&
        fetches == old(fetches) + (if r.source.FromNetwork? then r.source.attempts else 0)
    {
      if key in memory {
        var e := memory[key];
        if now - e.timestamp < expiry {
          return Ok(e.data);
        }
        memory := memory - {key};
      }
      var dk := "shophub_cache_" + key;
      if dk in durable && durable[dk].Readable? {
        var e := durable[dk].entry;
        if now - e.timestamp < expiry {
          memory := memory[key := e];
          return Ok(e.data);
        }
        durable := durable - {dk};
      }
      var fetched, attempts, waits := RetryLoop(network);
      fetches := fetches + attempts;
      waited := waited + waits;
      match fetched
      case Ok(e) =>
        memory := memory[key := e];
        if durableWriteOk {
          durable := durable[dk := Readable(e)];
        }
        result := Ok(e.data);
      case Err(last) =>
        result := Err("Failed to load data after " + Text.NatToString(MaxRetries) + " attempts: " + last);
    }
  }

  // ----- the exported fetchers -----

  /** The cache key and lifetime a fetcher passes to `fetchWithCache`. */
  datatype Request = Request(key: string, expiry: int)

  function ProductsRequest(): Request { Request("products", CacheExpiry) }

  /** `product_<id>`, where `id` is already printed as the URL prints it. */
  function ProductByIdRequest(id: string): Request { Request("product_" + id, CacheExpiry) }

  function CategoriesRequest(): Request { Request("categories", 24 * 60 * 60 * 1000) }

  function SearchRequest(query: string): Request { Request("search_" + query, 15 * 60 * 1000) }

  function CategoryRequest(category: string): Request { Request("category_" + category, CacheExpiry) }

  /** The lifetimes: 30 minutes by default, a day for categories and a quarter
      of an hour for searches. */
  lemma RequestLifetimes(id: string, query: string, category: string)
    ensures ProductsRequest().expiry == ProductByIdRequest(id).expiry == CategoryRequest(category).expiry == 1800000
    ensures CategoriesRequest().expiry == 48 * CacheExpiry
    ensures 2 * SearchRequest(query).expiry == CacheExpiry
  {
  }

  /** Different fetchers never share a cache entry, and within one fetcher
      the key determines the id, query or category it was built from. */
  lemma RequestKeysDistinct(id: string, query: string, category: string, id': string, query': string, category': string)
    ensures var keys := [ProductsRequest().key, ProductByIdRequest(id).key, CategoriesRequest().key,
                         SearchRequest(query).key, CategoryRequest(category).key];
      forall i, j :: 0 <= i < j < |keys| ==> keys[i] != keys[j]
    ensures ProductByIdRequest(id).key == ProductByIdRequest(id').key ==> id == id'
    ensures SearchRequest(query).key == SearchRequest(query').key ==> query == query'
    ensures CategoryRequest(category).key == CategoryRequest(category').key ==> category == category'
  {
    var keys := [ProductsRequest().key, ProductByIdRequest(id).key, CategoriesRequest().key,
                 SearchRequest(query).key, CategoryRequest(category).key];
    assert keys[0][7] == 's' && keys[1][7] == '_';
    assert keys[2][7] == 'i' && keys[4][7] == 'y';
    assert keys[3][0] == 's';
    assert keys[0][0] == keys[1][0] == 'p' && keys[2][0] == keys[4][0] == 'c';
    assert ProductByIdRequest(id).key[8..] == id && ProductByIdRequest(id').key[8..] == id';
    assert SearchRequest(query).key[7..] == query && SearchRequest(query').key[7..] == query';
    assert CategoryRequest(category).key[9..] == category && CategoryRequest(category').key[9..] == category';
  }
}
