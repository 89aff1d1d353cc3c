// The terrain tile proxy: a least-recently-used cache bounded in bytes, with one
// upstream fetch shared by everybody who asks while it runs.
module TileCache {
  import opened Options
  import opened Numbers

  type Body = seq<bv8>

  const CACHE_LIMIT_BYTES := 48 * 1024 * 1024
  const MAX_ZOOM := 14

  datatype Key = Key(z: int, x: int, y: int)

  // A path segment that is not a whole number reads as None.
  function Address(z: Option<int>, x: Option<int>, y: Option<int>): Option<Key> {
    if z.None? || x.None? || y.None? || z.value < 0 || z.value > MAX_ZOOM then None
    else if 0 <= x.value < Pow2(z.value) && 0 <= y.value < Pow2(z.value) then Some(Key(z.value, x.value, y.value))
    else None
  }

  // ---------------------------------------------------------------------------
  // An insertion-ordered map of bodies, oldest first
  // ---------------------------------------------------------------------------

  datatype Entry = Entry(key: Key, body: Body)

  type Entries = seq<Entry>

  function IndexOf(entries: Entries, key: Key): (i: int)
    ensures 0 <= i ==> i < |entries| && entries[i].key == key
    ensures i < 0 ==> forall j :: 0 <= j < |entries| ==> entries[j].key != key
  {
    if entries == [] then -1
    else if entries[0].key == key then 0
    else var rest := IndexOf(entries[1..], key); if rest < 0 then -1 else rest + 1
  }

  function Without(entries: Entries, i: nat): Entries
    requires i < |entries|
  {
    entries[..i] + entries[i + 1..]
  }

  // Setting a key the map already has keeps its place.
  function Put(entries: Entries, e: Entry): Entries {
    var i := IndexOf(entries, e.key);
    if i >= 0 then entries[i := e] else entries + [e]
  }

  function Bytes(entries: Entries): nat {
    if entries == [] then 0 else |entries[0].body| + Bytes(entries[1..])
  }

  predicate Distinct(entries: Entries) {
    forall i, j :: 0 <= i < j < |entries| ==> entries[i].key != entries[j].key
  }

  lemma {:induction false} BytesOfConcat(a: Entries, b: Entries)
    ensures Bytes(a + b) == Bytes(a) + Bytes(b)
  {
    if a == [] {
      assert a + b == b;
    } else {
      assert (a + b)[1..] == a[1..] + b;
      BytesOfConcat(a[1..], b);
    }
  }

  lemma BytesSplit(entries: Entries, i: nat)
    requires i < |entries|
    ensures Bytes(entries) == Bytes(entries[..i]) + |entries[i].body| + Bytes(entries[i + 1..])
  {
    assert entries == entries[..i] + entries[i..];
    BytesOfConcat(entries[..i], entries[i..]);
    assert entries[i..][1..] == entries[i + 1..];
  }

  lemma BytesOfOne(e: Entry)
    ensures Bytes([e]) == |e.body|
  {
    assert Bytes([e]) == |e.body| + Bytes([]);
  }

  // Moving an entry to the young end weighs nothing.
  lemma BytesOfMoved(entries: Entries, i: nat)
    requires i < |entries|
    ensures Bytes(Without(entries, i) + [entries[i]]) == Bytes(entries)
  {
    hide Bytes;
    BytesSplit(entries, i);
    BytesOfConcat(entries[..i], entries[i + 1..]);
    BytesOfConcat(Without(entries, i), [entries[i]]);
    BytesOfOne(entries[i]);
  }

  // ---------------------------------------------------------------------------
  // The proxy, one uninterrupted stretch of code at a time
  // ---------------------------------------------------------------------------

  // A fetch that has its answer is still shared until its clean-up has run.
  datatype Fetch = Running(key: Key) | Done(key: Key, result: Option<Body>)

  // `lastUse` is when each key was last stored or served from the cache.
  datatype Proxy = Proxy(
    cache: Entries, cacheBytes: int, inflight: map<Key, nat>, fetches: map<nat, Fetch>, started: nat,
    now: nat, lastUse: map<Key, nat>)

  datatype Event =
    | Request(key: Key)
    | Fetched(id: nat, body: Option<Body>)
    | Settled(id: nat)

  datatype Reply = Hit(body: Body) | Await(id: nat)

  function Moved(entries: Entries, i: nat): Entries
    requires i < |entries|
  {
    Without(entries, i) + [entries[i]]
  }

  // The eviction loop: entries go from the old end until the count fits.
  function Evict(entries: Entries, bytes: int): (Entries, int) {
    if bytes > CACHE_LIMIT_BYTES && entries != [] then Evict(entries[1..], bytes - |entries[0].body|) else (entries, bytes)
  }

  function Remember(p: Proxy, key: Key, body: Body): Proxy {
    if |body| > CACHE_LIMIT_BYTES then p
    else
      var (entries, bytes) := Evict(Put(p.cache, Entry(key, body)), p.cacheBytes + |body|);
      p.(cache := entries, cacheBytes := bytes, lastUse := p.lastUse[key := p.now])
  }

  function ReplyTo(p: Proxy, key: Key): Reply {
    var i := IndexOf(p.cache, key);
    if i >= 0 then Hit(p.cache[i].body) else if key in p.inflight then Await(p.inflight[key]) else Await(p.started)
  }

  function Next(p: Proxy, e: Event): Proxy {
    var p := p.(now := p.now + 1);
    match e
    case Request(key) =>
      var i := IndexOf(p.cache, key);
      if i >= 0 then p.(cache := Moved(p.cache, i), lastUse := p.lastUse[key := p.now])
      else if key in p.inflight then p
      else p.(inflight := p.inflight[key := p.started], fetches := p.fetches[p.started := Running(key)], started := p.started + 1)
    case Fetched(id, body) =>
      if id !in p.fetches then p
      else
        var key := p.fetches[id].key;
        var p := p.(fetches := p.fetches[id := Done(key, body)]);
        if body.None? then p else Remember(p, key, body.value)
    case Settled(id) =>
      if id !in p.fetches then p
      else p.(inflight := p.inflight - {p.fetches[id].key}, fetches := p.fetches - {id})
  }

  // Upstream answers a key with its tile, or with nothing the proxy can use.
  predicate Enabled(p: Proxy, e: Event, upstream: Key -> Body) {
    match e
    case Request(_) => true
    case Fetched(id, body) => id in p.fetches && p.fetches[id].Running? && (body.Some? ==> body.value == upstream(p.fetches[id].key))
    case Settled(id) => id in p.fetches && p.fetches[id].Done?
  }

  function Empty(): Proxy { Proxy([], 0, map[], map[], 0, 0, map[]) }

  class TerrainController {
    var cache: Entries
    var cacheBytes: int
    var inflight: map<Key, nat>
    var fetches: map<nat, Fetch>
    var started: nat
    ghost var now: nat
    ghost var lastUse: map<Key, nat>

    constructor ()
      ensures State() == Empty()
    {
      cache, cacheBytes, inflight, fetches, started := [], 0, map[], map[], 0;
      now, lastUse := 0, map[];
    }

    ghost function State(): Proxy
      reads this
    {
      Proxy(cache, cacheBytes, inflight, fetches, started, now, lastUse)
    }

    // None is a 404.
    method Tile(z: Option<int>, x: Option<int>, y: Option<int>) returns (r: Option<Reply>)
      modifies this
      ensures match Address(z, x, y)
        case None => r == None && State() == old(State())
        case Some(key) => r == Some(ReplyTo(old(State()), key)) && State() == Next(old(State()), Request(key))
      // A tile is served exactly for a square that exists at a zoom from 0 to 14, and
      // as that square: out of the cache, or by the fetch that runs for it.
      ensures r.Some? <==>
        && z.Some? && x.Some? && y.Some? && 0 <= z.value <= 14
        && 0 <= x.value < Pow2(z.value) && 0 <= y.value < Pow2(z.value)
      ensures r.Some? ==>
        var asked := Key(z.value, x.value, y.value);
        match r.value
        case Hit(body) => Entry(asked, body) in old(cache)
        case Await(id) => (forall e :: e in cache ==> e.key != asked) && asked in inflight && inflight[asked] == id
    {
      hide IndexOf;
      var address := Address(z, x, y);
      if address == None {
        return None;
      }
      var key := address.value;
      now := now + 1;
      var i := IndexOf(cache, key);
      if i >= 0 {
        var cached := cache[i];
        cache := Without(cache, i) + [cached];
        lastUse := lastUse[key := now];
        return Some(Hit(cached.body));
      }
      var id := FetchOnce(key);
      return Some(Await(id));
    }

    method FetchOnce(key: Key) returns (id: nat)
      modifies this`inflight, this`fetches, this`started
      ensures key in old(inflight) ==>
        id == old(inflight)[key] && inflight == old(inflight) && fetches == old(fetches) && started == old(started)
      ensures key !in old(inflight) ==>
        id == old(started) == started - 1 && inflight == old(inflight)[key := id] && fetches == old(fetches)[id := Running(key)]
    {
      if key in inflight {
        return inflight[key];
      }
      id := started;
      started := started + 1;
      fetches := fetches[id := Running(key)];
      inflight := inflight[key := id];
    }

    // The rest of fetchUpstream, once the response has been read or has failed.
    method UpstreamAnswered(id: nat, body: Option<Body>)
      requires id in fetches
      modifies this
      ensures State() == Next(old(State()), Fetched(id, body))
      ensures body.None? || |body.value| > 48 * 1024 * 1024 ==> cache == old(cache) && cacheBytes == old(cacheBytes)
    {
      now := now + 1;
      var key := fetches[id].key;
      fetches := fetches[id := Done(key, body)];
      if body.Some? {
        RememberTile(key, body.value);
      }
    }

    method RememberTile(key: Key, body: Body)
      modifies this`cache, this`cacheBytes, this`lastUse
      ensures State() == Remember(old(State()), key, body)
    {
      if |body| > CACHE_LIMIT_BYTES {
        return;
      }
      cache := Put(cache, Entry(key, body));
      cacheBytes := cacheBytes + |body|;
      lastUse := lastUse[key := now];
      ghost var entries, bytes := cache, cacheBytes;
      while cacheBytes > CACHE_LIMIT_BYTES
        invariant Evict(cache, cacheBytes) == Evict(entries, bytes) && lastUse == old(lastUse)[key := now]
        decreases |cache|
      {
        if cache == [] {
          break;
        }
        cacheBytes := cacheBytes - |cache[0].body|;
        cache := cache[1..];
      }
      assert Evict(cache, cacheBytes) == (cache, cacheBytes);
    }

    method Settle(id: nat)
      requires id in fetches
      modifies this
      ensures State() == Next(old(State()), Settled(id))
    {
      now := now + 1;
      inflight := inflight - {fetches[id].key};
      fetches := fetches - {id};
    }
  }

  // ---------------------------------------------------------------------------
  // What every run keeps
  // ---------------------------------------------------------------------------

  predicate Shared(inflight: map<Key, nat>, fetches: map<nat, Fetch>, started: nat, cache: Entries) {
    && (forall k :: k in inflight ==> inflight[k] in fetches && fetches[inflight[k]].key == k)
    && (forall id :: id in fetches ==> id < started && fetches[id].key in inflight && inflight[fetches[id].key] == id)
    // Nothing is fetched that is cached.
    && (forall id :: id in fetches && fetches[id].Running? ==> IndexOf(cache, fetches[id].key) < 0)
  }

  predicate Kept(cache: Entries, bytes: int, upstream: Key -> Body) {
    && Distinct(cache)
    && bytes == Bytes(cache) <= CACHE_LIMIT_BYTES
    && forall i :: 0 <= i < |cache| ==> cache[i].body == upstream(cache[i].key)
  }

  // Position in the map is age since last use.
  predicate Aged(cache: Entries, lastUse: map<Key, nat>, now: nat) {
    && (forall i :: 0 <= i < |cache| ==> cache[i].key in lastUse && lastUse[cache[i].key] <= now)
    && forall i, j :: 0 <= i < j < |cache| ==> lastUse[cache[i].key] < lastUse[cache[j].key]
  }

  predicate Inv(p: Proxy, upstream: Key -> Body) {
    && Shared(p.inflight, p.fetches, p.started, p.cache)
    && Kept(p.cache, p.cacheBytes, upstream)
    && Aged(p.cache, p.lastUse, p.now)
  }

  // Eviction leaves a young end that fits, and drops no more than it must.
  lemma {:induction false} EvictDropsPrefix(entries: Entries, bytes: int) returns (k: nat)
    requires bytes == Bytes(entries)
    ensures k <= |entries| && Evict(entries, bytes) == (entries[k..], Bytes(entries[k..]))
    ensures Bytes(entries[k..]) <= CACHE_LIMIT_BYTES
    ensures k > 0 ==> Bytes(entries[k - 1..]) > CACHE_LIMIT_BYTES
    decreases |entries|
  {
    k := 0;
    assert entries[0..] == entries;
    if bytes > CACHE_LIMIT_BYTES && entries != [] {
      var rest := EvictDropsPrefix(entries[1..], bytes - |entries[0].body|);
      k := rest + 1;
      assert entries[1..][rest..] == entries[k..];
      if rest > 0 {
        assert entries[1..][rest - 1..] == entries[k - 1..];
      }
    }
  }

  lemma StoreEvicts(entries: Entries, e: Entry) returns (k: nat)
    requires IndexOf(entries, e.key) < 0 && |e.body| <= CACHE_LIMIT_BYTES
    ensures var grown := entries + [e];
      && k < |grown| && Evict(Put(entries, e), Bytes(entries) + |e.body|) == (grown[k..], Bytes(grown[k..]))
      && Bytes(grown[k..]) <= CACHE_LIMIT_BYTES
      && (k > 0 ==> Bytes(grown[k - 1..]) > CACHE_LIMIT_BYTES)
  {
    var grown := entries + [e];
    BytesOfConcat(entries, [e]);
    BytesOfOne(e);
    k := EvictDropsPrefix(grown, Bytes(entries) + |e.body|);
    assert grown[|entries|..] == [e];
  }

  // Storing a fetched tile: it is new to the cache and stays; what goes is the
  // least recently used, and only as much as the limit demands.
  lemma StoreEvictsLeastRecentlyUsed(p: Proxy, upstream: Key -> Body, id: nat, body: Body) returns (k: nat)
    requires Inv(p, upstream) && Enabled(p, Fetched(id, Some(body)), upstream) && |body| <= 48 * 1024 * 1024
    ensures var key, p' := p.fetches[id].key, Next(p, Fetched(id, Some(body)));
      var grown := p.cache + [Entry(key, body)];
      && IndexOf(p.cache, key) < 0
      && k < |grown| && p'.cache == grown[k..] && p'.cacheBytes == Bytes(grown[k..]) <= 48 * 1024 * 1024
      && (k > 0 ==> Bytes(grown[k - 1..]) > 48 * 1024 * 1024)
    ensures forall i, j :: 0 <= i < k <= j < |p.cache| ==> p.lastUse[p.cache[i].key] < p.lastUse[p.cache[j].key]
  {
    hide Distinct, Evict, Put, Bytes, IndexOf;
    k := StoreEvicts(p.cache, Entry(p.fetches[id].key, body));
  }

  // ---- a hit ---------------------------------------------------------------------

  lemma MovedEntries(entries: Entries, i: nat)
    requires i < |entries|
    ensures |Moved(entries, i)| == |entries|
    ensures forall j :: 0 <= j < |entries| ==>
      Moved(entries, i)[j] == if j < i then entries[j] else if j < |entries| - 1 then entries[j + 1] else entries[i]
  {
  }

  lemma MovedKept(cache: Entries, bytes: int, upstream: Key -> Body, i: nat)
    requires Kept(cache, bytes, upstream) && i < |cache|
    ensures Kept(Moved(cache, i), bytes, upstream)
  {
    BytesOfMoved(cache, i);
    MovedEntries(cache, i);
    hide Moved, Bytes;
  }

  lemma MovedAged(cache: Entries, lastUse: map<Key, nat>, now: nat, i: nat)
    requires Aged(cache, lastUse, now) && Distinct(cache) && i < |cache|
    ensures Aged(Moved(cache, i), lastUse[cache[i].key := now + 1], now + 1)
  {
    MovedEntries(cache, i);
    hide Moved;
  }

  lemma MovedAbsent(cache: Entries, i: nat, key: Key)
    requires i < |cache| && IndexOf(cache, key) < 0
    ensures IndexOf(Moved(cache, i), key) < 0
  {
    MovedEntries(cache, i);
    hide Moved, IndexOf;
  }

  lemma MovedShared(inflight: map<Key, nat>, fetches: map<nat, Fetch>, started: nat, cache: Entries, i: nat)
    requires Shared(inflight, fetches, started, cache) && i < |cache|
    ensures Shared(inflight, fetches, started, Moved(cache, i))
  {
    forall id | id in fetches && fetches[id].Running?
      ensures IndexOf(Moved(cache, i), fetches[id].key) < 0
    {
      MovedAbsent(cache, i, fetches[id].key);
    }
  }

  lemma HitKeepsInv(p: Proxy, upstream: Key -> Body, key: Key)
    requires Inv(p, upstream) && IndexOf(p.cache, key) >= 0
    ensures Inv(Next(p, Request(key)), upstream)
  {
    var i := IndexOf(p.cache, key);
    assert Distinct(p.cache);
    hide Shared, Kept, Aged, Distinct, Moved;
    MovedKept(p.cache, p.cacheBytes, upstream, i);
    MovedAged(p.cache, p.lastUse, p.now, i);
    MovedShared(p.inflight, p.fetches, p.started, p.cache, i);
  }

  // ---- a miss -----------------------------------------------------------------------

  lemma StartShared(inflight: map<Key, nat>, fetches: map<nat, Fetch>, started: nat, cache: Entries, key: Key)
    requires Shared(inflight, fetches, started, cache) && key !in inflight && IndexOf(cache, key) < 0
    ensures Shared(inflight[key := started], fetches[started := Running(key)], started + 1, cache)
  {
    hide IndexOf;
  }

  lemma StillAged(cache: Entries, lastUse: map<Key, nat>, now: nat)
    requires Aged(cache, lastUse, now)
    ensures Aged(cache, lastUse, now + 1)
  {
  }

  lemma MissKeepsInv(p: Proxy, upstream: Key -> Body, key: Key)
    requires Inv(p, upstream) && IndexOf(p.cache, key) < 0
    ensures Inv(Next(p, Request(key)), upstream)
  {
    hide Shared, Kept, Aged;
    StillAged(p.cache, p.lastUse, p.now);
    if key !in p.inflight {
      StartShared(p.inflight, p.fetches, p.started, p.cache, key);
    }
  }

  // ---- a fetch that ends ---------------------------------------------------------------

  // A young end of the cache, with the new tile behind it.
  lemma YoungKept(cache: Entries, bytes: int, upstream: Key -> Body, e: Entry, k: nat)
    requires Kept(cache, bytes, upstream) && IndexOf(cache, e.key) < 0 && e.body == upstream(e.key)
    requires k <= |cache| && Bytes((cache + [e])[k..]) <= CACHE_LIMIT_BYTES
    ensures Kept((cache + [e])[k..], Bytes((cache + [e])[k..]), upstream)
  {
    hide Bytes, IndexOf;
  }

  lemma YoungAged(cache: Entries, lastUse: map<Key, nat>, now: nat, e: Entry, k: nat)
    requires Aged(cache, lastUse, now) && IndexOf(cache, e.key) < 0 && k <= |cache|
    ensures Aged((cache + [e])[k..], lastUse[e.key := now + 1], now + 1)
  {
    hide IndexOf;
  }

  lemma YoungAbsent(cache: Entries, e: Entry, k: nat, key: Key)
    requires k <= |cache| && IndexOf(cache, key) < 0 && key != e.key
    ensures IndexOf((cache + [e])[k..], key) < 0
  {
    hide IndexOf;
  }

  lemma YoungShared(inflight: map<Key, nat>, fetches: map<nat, Fetch>, started: nat, cache: Entries, id: nat, body: Body, k: nat)
    requires Shared(inflight, fetches, started, cache) && id in fetches && k <= |cache|
    ensures var key := fetches[id].key;
      Shared(inflight, fetches[id := Done(key, Some(body))], started, (cache + [Entry(key, body)])[k..])
  {
    var key := fetches[id].key;
    forall other | other in fetches && other != id && fetches[other].Running?
      ensures IndexOf((cache + [Entry(key, body)])[k..], fetches[other].key) < 0
    {
      YoungAbsent(cache, Entry(key, body), k, fetches[other].key);
    }
    hide IndexOf;
  }

  lemma DoneShared(inflight: map<Key, nat>, fetches: map<nat, Fetch>, started: nat, cache: Entries, id: nat, result: Option<Body>)
    requires Shared(inflight, fetches, started, cache) && id in fetches
    ensures Shared(inflight, fetches[id := Done(fetches[id].key, result)], started, cache)
  {
    hide IndexOf;
  }

  lemma FetchedKeepsInv(p: Proxy, upstream: Key -> Body, id: nat, body: Option<Body>)
    requires Inv(p, upstream) && Enabled(p, Fetched(id, body), upstream)
    ensures Inv(Next(p, Fetched(id, body)), upstream)
  {
    hide Shared, Kept, Aged, Bytes, IndexOf, Evict, Put;
    if body.Some? && |body.value| <= CACHE_LIMIT_BYTES {
      var k := StoreEvictsLeastRecentlyUsed(p, upstream, id, body.value);
      var e := Entry(p.fetches[id].key, body.value);
      YoungKept(p.cache, p.cacheBytes, upstream, e, k);
      YoungAged(p.cache, p.lastUse, p.now, e, k);
      YoungShared(p.inflight, p.fetches, p.started, p.cache, id, body.value, k);
    } else {
      StillAged(p.cache, p.lastUse, p.now);
      DoneShared(p.inflight, p.fetches, p.started, p.cache, id, body);
    }
  }

  lemma SettledShared(inflight: map<Key, nat>, fetches: map<nat, Fetch>, started: nat, cache: Entries, id: nat)
    requires Shared(inflight, fetches, started, cache) && id in fetches
    ensures Shared(inflight - {fetches[id].key}, fetches - {id}, started, cache)
  {
    hide IndexOf;
  }

  lemma SettledKeepsInv(p: Proxy, upstream: Key -> Body, id: nat)
    requires Inv(p, upstream) && Enabled(p, Settled(id), upstream)
    ensures Inv(Next(p, Settled(id)), upstream)
  {
    hide Shared, Kept, Aged;
    StillAged(p.cache, p.lastUse, p.now);
    SettledShared(p.inflight, p.fetches, p.started, p.cache, id);
  }

  lemma StepKeepsInv(p: Proxy, upstream: Key -> Body, e: Event)
    requires Inv(p, upstream) && Enabled(p, e, upstream)
    ensures Inv(Next(p, e), upstream)
  {
    match e
    case Request(key) =>
      if IndexOf(p.cache, key) >= 0 {
        HitKeepsInv(p, upstream, key);
      } else {
        MissKeepsInv(p, upstream, key);
      }
    case Fetched(id, body) => FetchedKeepsInv(p, upstream, id, body);
    case Settled(id) => SettledKeepsInv(p, upstream, id);
  }

  ghost function After(run: seq<Event>): Proxy {
    if run == [] then Empty() else Next(After(run[..|run| - 1]), run[|run| - 1])
  }

  ghost predicate Run(run: seq<Event>, upstream: Key -> Body) {
    forall i :: 0 <= i < |run| ==> Enabled(After(run[..i]), run[i], upstream)
  }

  lemma {:induction false} RunKeepsInv(run: seq<Event>, upstream: Key -> Body)
    requires Run(run, upstream)
    ensures Inv(After(run), upstream)
  {
    if run != [] {
      var n := |run| - 1;
      assert forall i :: 0 <= i < n ==> run[..n][..i] == run[..i];
      RunKeepsInv(run[..n], upstream);
      StepKeepsInv(After(run[..n]), upstream, run[n]);
    }
  }

  // In every run: the cache stays within 48 MiB, two fetches alive at once are for
  // different keys, what is cached is a hit and its body the upstream's, and a
  // request waits only for a fetch of its own key.
  lemma RequestsAreServedRight(run: seq<Event>, upstream: Key -> Body, key: Key)
    requires Run(run, upstream)
    ensures var p := After(run);
      && (forall a, b :: a in p.fetches && b in p.fetches && a != b ==> p.fetches[a].key != p.fetches[b].key)
      && (ReplyTo(p, key).Hit? <==> exists i :: 0 <= i < |p.cache| && p.cache[i].key == key)
      && p.cacheBytes <= 48 * 1024 * 1024
      && var p' := Next(p, Request(key));
         match ReplyTo(p, key)
         case Hit(body) => body == upstream(key) && p'.fetches == p.fetches
         case Await(id) => id in p'.fetches && p'.fetches[id].key == key && |p'.fetches| <= |p.fetches| + 1
  {
    RunKeepsInv(run, upstream);
    hide After, Run, IndexOf, Bytes;
  }
}
