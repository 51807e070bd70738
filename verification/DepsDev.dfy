/** The deps.dev resolver and its cache (internal/depsdev/resolver.go,
    internal/license/cache.go): one purl at a time, or a batch. */
module DepsDev {
  import opened Text
  import opened Provenance

  datatype PackageVersion = PackageVersion(system: string, name: string, version: string)

  /** Stands for the version of a purl that names none. */
  const AnyVersion := "*"

  function CacheKey(pv: PackageVersion): string {
    pv.system + ":" + pv.name + "@" + pv.version
  }

  /** A version whose cache key can be told apart from every other's. */
  predicate Plain(pv: PackageVersion) {
    ':' !in pv.system && '@' !in pv.version
  }

  lemma LongerSystem(p: PackageVersion, q: PackageVersion)
    requires CacheKey(p) == CacheKey(q) && |p.system| < |q.system|
    ensures q.system[|p.system|] == ':'
  {
    assert CacheKey(p)[|p.system|] == ':' && CacheKey(q)[|p.system|] == q.system[|p.system|];
  }

  lemma LongerVersion(p: PackageVersion, q: PackageVersion)
    requires CacheKey(p) == CacheKey(q) && |p.version| < |q.version|
    ensures q.version[|q.version| - |p.version| - 1] == '@'
  {
    var k := CacheKey(p);
    var at := |k| - |p.version| - 1;
    assert k[at] == '@' && CacheKey(q)[at] == q.version[|q.version| - |p.version| - 1];
  }

  lemma CacheKeyInjective(p: PackageVersion, q: PackageVersion)
    requires Plain(p) && Plain(q) && CacheKey(p) == CacheKey(q)
    ensures p == q
  {
    if |p.system| < |q.system| { LongerSystem(p, q); }
    if |q.system| < |p.system| { LongerSystem(q, p); }
    if |p.version| < |q.version| { LongerVersion(p, q); }
    if |q.version| < |p.version| { LongerVersion(q, p); }
    var k := CacheKey(p);
    assert k[..|p.system|] == p.system && k[..|q.system|] == q.system;
    assert k[|k| - |p.version|..] == p.version && k[|k| - |q.version|..] == q.version;
    assert k[|p.system| + 1..|k| - |p.version| - 1] == p.name;
    assert k[|q.system| + 1..|k| - |q.version| - 1] == q.name;
  }

  // ---------------------------------------------------------------------
  // The cache
  // ---------------------------------------------------------------------

  class ResolverCache {
    var m: map<string, string>

    constructor ()
      ensures m == map[]
    {
      m := map[];
    }

    /** The stored encoding, if there is one. */
    method LoadValue(key: string) returns (value: Option<string>)
      ensures value == if key in m then Some(m[key]) else None
    {
      value := if key in m then Some(m[key]) else None;
    }

    /** An empty value is no definite answer and is dropped: what is in the cache
        afterwards is the value, if there is one, and otherwise what was there. */
    method StoreValue(key: string, value: string)
      modifies this
      ensures forall k :: k in m <==> k in old(m) || (k == key && value != "")
      ensures forall k :: k in m ==> m[k] == if k == key && value != "" then value else old(m)[k]
      ensures (forall k :: k in old(m) ==> old(m)[k] != "") ==> forall k :: k in m ==> m[k] != ""
    {
      if value == "" { return; }
      m := m[key := value];
    }

    /** Seeds the cache; rows without a value are skipped. */
    method PreloadCache(entries: map<string, string>)
      modifies this
      ensures forall k :: k in m <==> k in old(m) || (k in entries && entries[k] != "")
      ensures forall k :: k in m ==> m[k] == if k in entries && entries[k] != "" then entries[k] else old(m)[k]
    {
      var left := entries.Keys;
      while left != {}
        invariant left <= entries.Keys
        invariant forall k :: k in m <==> k in old(m) || (k in entries && k !in left && entries[k] != "")
        invariant forall k :: k in m ==> m[k] == if k in entries && k !in left && entries[k] != "" then entries[k] else old(m)[k]
      {
        var k :| k in left;
        StoreValue(k, entries[k]);
        left := left - {k};
      }
    }
  }

  const MaxBatchSize := 5000

  // ---------------------------------------------------------------------
  // The backend, and what an answer is
  // ---------------------------------------------------------------------

  /** deps.dev as it answers while it is asked: the encoding of each version's
      license, or "" for a failure, and the default version of each package, or
      the reason there is none. parse splits a purl. */
  datatype Backend = Backend(
    fetch: PackageVersion -> string,
    defaultVersion: (string, string) -> (string, string),
    parse: string -> Option<PackageVersion>)

  /** The default version of a package, as a concrete one. */
  function DefaultOf(b: Backend, pv: PackageVersion): PackageVersion {
    pv.(version := b.defaultVersion(pv.system, pv.name).0)
  }

  /** What is to be known about a version; the wildcard borrows the default version's license. */
  function Value(b: Backend, pv: PackageVersion): string {
    if pv.version != AnyVersion then b.fetch(pv)
    else if DefaultOf(b, pv).version == "" then NegativeCacheValue(b.defaultVersion(pv.system, pv.name).1)
    else b.fetch(DefaultOf(b, pv))
  }

  /** The key whose answer a version gets: its own, or that of the version it borrows from. */
  function SourceKey(b: Backend, pv: PackageVersion): string {
    if pv.version == AnyVersion && DefaultOf(b, pv).version != "" then CacheKey(DefaultOf(b, pv)) else CacheKey(pv)
  }

  function Wanted(pv: PackageVersion): PackageVersion {
    if pv.version == "" then pv.(version := AnyVersion) else pv
  }

  function License(value: string): string {
    SplitCacheValue(value).0
  }

  /** The license of a purl, by the definition both paths share. */
  function LicenseOf(b: Backend, purl: string): string {
    if b.parse(purl).None? then "" else License(Value(b, Wanted(b.parse(purl).value)))
  }

  /** The license is what deps.dev has for the version of the purl, and for the default
      version where the purl names none or the wildcard; a value behind an exclamation
      mark is a reason and no license. */
  lemma LicenseMeans(b: Backend, purl: string)
    ensures LicenseOf(b, purl) ==
            match b.parse(purl)
            case None => ""
            case Some(pv) =>
              var version := if pv.version == "" || pv.version == "*" then b.defaultVersion(pv.system, pv.name).0 else pv.version;
              var value := b.fetch(PackageVersion(pv.system, pv.name, version));
              if version == "" || (value != "" && value[0] == '!') then "" else value
  {
    if b.parse(purl).Some? {
      CacheValueRoundTrip(b.defaultVersion(b.parse(purl).value.system, b.parse(purl).value.name).1, "");
    }
  }

  /** What a purl gets when it is the first to be asked for, alone. */
  function AloneOf(b: Backend, purl: string): string {
    if b.parse(purl).None? then ""
    else
      var pv := b.parse(purl).value;
      License(if pv.version != "" then b.fetch(pv) else Value(b, Wanted(pv)))
  }

  // ---------------------------------------------------------------------
  // Versions that share a key
  // ---------------------------------------------------------------------

  /** Which encodings count as one answer: equal ones, or those of one license. */
  type Sameness = (string, string) -> bool

  function Equal(): Sameness { (x, y) => x == y }

  function OneLicense(): Sameness { (x, y) => License(x) == License(y) }

  function Anything(): Sameness { (x, y) => true }

  ghost predicate Transitive(same: Sameness) {
    forall x, y, z :: same(x, y) && same(y, z) ==> same(x, z)
  }

  type Versions = iset<PackageVersion>

  /** Versions of the scope that share a cache key have one answer. */
  ghost predicate Consistent(b: Backend, scope: Versions, same: Sameness) {
    && Transitive(same)
    && forall p, q :: p in scope && q in scope && CacheKey(p) == CacheKey(q) ==> same(Value(b, p), Value(b, q))
  }

  /** The scope has the default versions its wildcards borrow from. */
  ghost predicate Closed(b: Backend, scope: Versions) {
    forall pv :: pv in scope && pv.version == AnyVersion && DefaultOf(b, pv).version != "" ==> DefaultOf(b, pv) in scope
  }

  ghost predicate Covers(b: Backend, scope: Versions, purl: string) {
    b.parse(purl).Some? ==> Wanted(b.parse(purl).value) in scope
  }

  /** The versions that purls ask for, and the default versions of their packages. */
  ghost function Involved(b: Backend, purls: seq<string>): Versions {
    (iset purl | purl in purls && b.parse(purl).Some? :: Wanted(b.parse(purl).value))
    + (iset purl | purl in purls && b.parse(purl).Some? :: DefaultOf(b, b.parse(purl).value))
  }

  /** When no version involved has an at sign, the keys tell all of them apart. */
  lemma PlainVersionsConsistent(b: Backend, purls: seq<string>)
    requires forall pv :: pv in Involved(b, purls) ==> Plain(pv)
    ensures Consistent(b, Involved(b, purls), Equal()) && Closed(b, Involved(b, purls))
    ensures forall purl :: purl in purls ==> Covers(b, Involved(b, purls), purl)
  {
    var scope := Involved(b, purls);
    forall p, q | p in scope && q in scope && CacheKey(p) == CacheKey(q) ensures p == q { CacheKeyInjective(p, q); }
    forall pv | pv in scope ensures DefaultOf(b, pv) in scope {
      var purl :| purl in purls && b.parse(purl).Some?
                  && (pv == Wanted(b.parse(purl).value) || pv == DefaultOf(b, b.parse(purl).value));
      assert DefaultOf(b, pv) == DefaultOf(b, b.parse(purl).value);
    }
  }

  /** Every entry is a definite answer of the backend for its versions. */
  ghost predicate Coherent(b: Backend, scope: Versions, same: Sameness, m: map<string, string>) {
    forall pv :: pv in scope && CacheKey(pv) in m ==> m[CacheKey(pv)] != "" && same(m[CacheKey(pv)], Value(b, pv))
  }

  /** Whatever has been found is what is to be known. */
  ghost predicate Known(b: Backend, scope: Versions, same: Sameness, found: map<string, string>) {
    forall pv :: pv in scope && CacheKey(pv) in found ==> same(found[CacheKey(pv)], Value(b, pv))
  }

  /** The value of one version of a key is that of all of them. */
  lemma SpeaksForKey(b: Backend, scope: Versions, same: Sameness, pv: PackageVersion, value: string)
    requires Consistent(b, scope, same) && pv in scope && same(value, Value(b, pv))
    ensures forall q :: q in scope && CacheKey(q) == CacheKey(pv) ==> same(value, Value(b, q))
  {
    forall q | q in scope && CacheKey(q) == CacheKey(pv) ensures same(value, Value(b, q)) {
      assert same(Value(b, pv), Value(b, q));
    }
  }

  lemma StoreKeepsCoherent(b: Backend, scope: Versions, same: Sameness, m: map<string, string>, pv: PackageVersion, value: string)
    requires Consistent(b, scope, same) && pv in scope && same(value, Value(b, pv))
    ensures Coherent(b, scope, same, m) && value != "" ==> Coherent(b, scope, same, m[CacheKey(pv) := value])
    ensures Known(b, scope, same, m) ==> Known(b, scope, same, m[CacheKey(pv) := value])
  {
    SpeaksForKey(b, scope, same, pv, value);
  }

  /** Read alone, a purl whose version is literally "*" is that very version. */
  ghost predicate ReadsAlike(b: Backend, same: Sameness, purl: string) {
    b.parse(purl).Some? && b.parse(purl).value.version == AnyVersion ==> same(b.fetch(b.parse(purl).value), Value(b, b.parse(purl).value))
  }

  class Resolver {
    const backend: Backend
    const cache: ResolverCache

    constructor (backend: Backend, cache: ResolverCache)
      ensures this.backend == backend && this.cache == cache
    {
      this.backend := backend;
      this.cache := cache;
    }

    /** The cached encoding of a concrete version, or the backend's, which is then cached. */
    method ResolveOneValue(pv: PackageVersion) returns (value: string)
      modifies cache
      ensures value == if CacheKey(pv) in old(cache.m) then old(cache.m)[CacheKey(pv)] else backend.fetch(pv)
      ensures cache.m == if value == "" then old(cache.m) else old(cache.m)[CacheKey(pv) := value]
    {
      var cached := cache.LoadValue(CacheKey(pv));
      if cached.Some? { return cached.value; }
      value := backend.fetch(pv);
      cache.StoreValue(CacheKey(pv), value);
    }

    /** The answer for a concrete version, and a cache that stays coherent. */
    method ResolveOne(pv: PackageVersion, ghost scope: Versions, ghost same: Sameness) returns (value: string)
      requires Consistent(backend, scope, same) && Coherent(backend, scope, same, cache.m) && pv in scope
      requires pv.version == AnyVersion ==> same(backend.fetch(pv), Value(backend, pv))
      modifies cache
      ensures same(value, Value(backend, pv))
      ensures Coherent(backend, scope, same, cache.m)
      ensures value == if CacheKey(pv) in old(cache.m) then old(cache.m)[CacheKey(pv)] else backend.fetch(pv)
      ensures CacheKey(pv) !in old(cache.m) ==> forall k :: k in cache.m ==> k in old(cache.m) || k == CacheKey(pv)
    {
      ghost var before := cache.m;
      value := ResolveOneValue(pv);
      StoreKeepsCoherent(backend, scope, same, before, pv, value);
    }

    /** One purl. */
    method Resolve(purl: string, ghost scope: Versions, ghost same: Sameness) returns (lic: string, ghost value: string)
      requires Closed(backend, scope) && Consistent(backend, scope, same) && Coherent(backend, scope, same, cache.m)
      requires Covers(backend, scope, purl) && ReadsAlike(backend, same, purl)
      modifies cache
      ensures backend.parse(purl).None? ==> lic == ""
      ensures backend.parse(purl).Some? ==>
                lic == License(value) && same(value, Value(backend, Wanted(backend.parse(purl).value)))
      ensures Coherent(backend, scope, same, cache.m)
      ensures old(cache.m) == map[] ==> lic == AloneOf(backend, purl)
    {
      value := "";
      var parsed := backend.parse(purl);
      if parsed.None? { return "", ""; }
      var pv := parsed.value;
      if pv.version != "" {
        var v := ResolveOne(pv, scope, same);
        return License(v), v;
      }
      var any := pv.(version := AnyVersion);
      var cached := cache.LoadValue(CacheKey(any));
      if cached.Some? { return License(cached.value), cached.value; }
      var found := backend.defaultVersion(pv.system, pv.name);
      var v := NegativeCacheValue(found.1);
      if found.0 != "" {
        var concrete := pv.(version := found.0);
        assert concrete == DefaultOf(backend, any) && Value(backend, any) == backend.fetch(concrete) == Value(backend, concrete);
        assert same(Value(backend, concrete), Value(backend, concrete));
        v := ResolveOne(concrete, scope, same);
      }
      StoreKeepsCoherent(backend, scope, same, cache.m, any, v);
      cache.StoreValue(CacheKey(any), v);
      return License(v), v;
    }

    /** Sorts the purls into answered ones and pending versions. */
    method CollectPending(purls: seq<string>, ghost scope: Versions)
      returns (out: map<string, string>, pending: map<string, PackageVersion>, purlsByKey: map<string, seq<string>>)
      requires forall i :: 0 <= i < |purls| ==> Covers(backend, scope, purls[i])
      ensures PendingOk(scope, cache.m, pending) && WaitersOk(backend, pending, purlsByKey)
      ensures Keyed(backend, cache.m, out)
      ensures forall i :: 0 <= i < |purls| ==> Accounted(backend, purls[i], out, purlsByKey)
      ensures forall key :: key in pending ==> Asked(backend, purls, pending[key])
    {
      out, pending, purlsByKey := map[], map[], map[];
      for i := 0 to |purls|
        invariant Collected(backend, scope, purls, cache.m, out, pending, purlsByKey, i)
      {
        var purl := purls[i];
        var parsed := backend.parse(purl);
        if parsed.Some? {
          var pv := Wanted(parsed.value);
          var key := CacheKey(pv);
          var cached := cache.LoadValue(key);
          if cached.Some? {
            CollectCached(backend, scope, purls, cache.m, out, pending, purlsByKey, i);
            out := out[purl := License(cached.value)];
          } else {
            assert Covers(backend, scope, purl);
            CollectWaiting(backend, scope, purls, cache.m, out, pending, purlsByKey, i);
            if key !in pending { pending := pending[key := pv]; }
            purlsByKey := purlsByKey[key := WaitersOf(purlsByKey, key) + [purl]];
          }
        }
      }
    }

    /** Lists the pending concrete versions. */
    method QueueConcrete(pending: map<string, PackageVersion>, ghost scope: Versions) returns (items: seq<PackageVersion>, queued: set<string>)
      requires PendingOk(scope, cache.m, pending)
      ensures ItemsOk(backend, scope, items) && Queued(items, queued)
      ensures forall key :: key in pending && pending[key].version != AnyVersion ==> key in queued
    {
      items, queued := [], {};
      var left := pending.Keys;
      while left != {}
        invariant left <= pending.Keys && ItemsOk(backend, scope, items) && Queued(items, queued)
        invariant forall key :: key in pending && key !in left && pending[key].version != AnyVersion ==> key in queued
      {
        var key :| key in left;
        if pending[key].version != AnyVersion {
          QueueOne(items, queued, pending[key]);
          items, queued := items + [pending[key]], queued + {key};
        }
        left := left - {key};
      }
    }

    /** Finds the default versions that versionless purls borrow from. */
    method QueueDefaults(pending: map<string, PackageVersion>, items0: seq<PackageVersion>, queued0: set<string>,
                         ghost scope: Versions, ghost same: Sameness)
      returns (items: seq<PackageVersion>, queued: set<string>, resolved: map<string, string>, defaultOf: map<string, string>)
      requires Closed(backend, scope) && Consistent(backend, scope, same) && Coherent(backend, scope, same, cache.m)
      requires PendingOk(scope, cache.m, pending) && ItemsOk(backend, scope, items0) && Queued(items0, queued0)
      ensures ItemsOk(backend, scope, items) && Queued(items, queued) && queued0 <= queued
      ensures Known(backend, scope, same, resolved)
      ensures forall key :: key in defaultOf ==> key in pending && pending[key].version == AnyVersion
      ensures forall key :: key in pending && pending[key].version == AnyVersion ==>
                Borrows(backend, pending[key], key, resolved, defaultOf, queued)
    {
      items, queued, resolved, defaultOf := items0, queued0, map[], map[];
      var left := pending.Keys;
      while left != {}
        invariant left <= pending.Keys && ItemsOk(backend, scope, items) && Queued(items, queued) && queued0 <= queued
        invariant Known(backend, scope, same, resolved)
        invariant forall key :: key in defaultOf ==> key in pending && key !in left && pending[key].version == AnyVersion
        invariant forall key :: key in pending && key !in left && pending[key].version == AnyVersion ==>
                    Borrows(backend, pending[key], key, resolved, defaultOf, queued)
      {
        var key :| key in left;
        left := left - {key};
        if pending[key].version == AnyVersion {
          ghost var was := (resolved, defaultOf, queued);
          items, queued, resolved, defaultOf := QueueDefault(pending[key], key, items, queued, resolved, defaultOf, scope, same);
          forall k | k in pending && k !in left && pending[k].version == AnyVersion
            ensures Borrows(backend, pending[k], k, resolved, defaultOf, queued)
          {
            if k != key { BorrowsGrows(backend, pending[k], k, was.0, was.1, was.2, resolved, defaultOf, queued); }
          }
        }
      }
    }

    /** One versionless purl's package. */
    method QueueDefault(pv: PackageVersion, key: string, items0: seq<PackageVersion>, queued0: set<string>,
                        resolved0: map<string, string>, defaultOf0: map<string, string>, ghost scope: Versions, ghost same: Sameness)
      returns (items: seq<PackageVersion>, queued: set<string>, resolved: map<string, string>, defaultOf: map<string, string>)
      requires Closed(backend, scope) && Consistent(backend, scope, same) && Coherent(backend, scope, same, cache.m)
      requires CacheKey(pv) == key && pv in scope && pv.version == AnyVersion
      requires ItemsOk(backend, scope, items0) && Queued(items0, queued0) && Known(backend, scope, same, resolved0) && key !in defaultOf0
      ensures ItemsOk(backend, scope, items) && Queued(items, queued) && queued0 <= queued
      ensures Known(backend, scope, same, resolved) && resolved0.Keys <= resolved.Keys
      ensures defaultOf.Keys <= defaultOf0.Keys + {key} && forall k :: k in defaultOf0 ==> k in defaultOf && defaultOf[k] == defaultOf0[k]
      ensures Borrows(backend, pv, key, resolved, defaultOf, queued)
    {
      items, queued, resolved, defaultOf := items0, queued0, resolved0, defaultOf0;
      var found := backend.defaultVersion(pv.system, pv.name);
      if found.0 == "" {
        assert same(Value(backend, pv), Value(backend, pv));
        StoreKeepsCoherent(backend, scope, same, resolved, pv, Value(backend, pv));
        resolved := resolved[key := NegativeCacheValue(found.1)];
        return;
      }
      var concrete := pv.(version := found.0);
      assert concrete == DefaultOf(backend, pv) && Value(backend, concrete) == backend.fetch(concrete);
      var ck := CacheKey(concrete);
      defaultOf := defaultOf[key := ck];
      var cached := cache.LoadValue(ck);
      if cached.Some? {
        resolved := resolved[ck := cached.value];
      } else if ck !in queued {
        QueueOne(items, queued, concrete);
        items, queued := items + [concrete], queued + {ck};
      }
    }

    /** One batch request: every item answered as a single request would be, or none. */
    method FetchLicenseBatch(items: seq<PackageVersion>, fails: bool, ghost scope: Versions, ghost same: Sameness)
      returns (batch: map<string, string>, ok: bool)
      requires Consistent(backend, scope, same) && ItemsOk(backend, scope, items)
      ensures ok == !fails
      ensures ok ==> Known(backend, scope, same, batch) && forall i :: 0 <= i < |items| ==> CacheKey(items[i]) in batch
    {
      batch, ok := map[], !fails;
      if fails { return; }
      for i := 0 to |items|
        invariant Known(backend, scope, same, batch) && forall k :: 0 <= k < i ==> CacheKey(items[k]) in batch
      {
        FetchedIsKnown(backend, scope, same, batch, items, i);
        batch := batch[CacheKey(items[i]) := backend.fetch(items[i])];
      }
    }

    /** Resolves the items in batches, one by one where a batch request fails. */
    method FetchItems(items: seq<PackageVersion>, resolved0: map<string, string>, fails: nat -> bool, ghost scope: Versions, ghost same: Sameness)
      returns (resolved: map<string, string>)
      requires Consistent(backend, scope, same) && ItemsOk(backend, scope, items) && Known(backend, scope, same, resolved0)
      ensures Known(backend, scope, same, resolved) && resolved0.Keys <= resolved.Keys
      ensures forall i :: 0 <= i < |items| ==> CacheKey(items[i]) in resolved
    {
      resolved := resolved0;
      var start, n := 0, 0;
      while start < |items|
        invariant 0 <= start <= |items| && Known(backend, scope, same, resolved) && resolved0.Keys <= resolved.Keys
        invariant forall i :: 0 <= i < start ==> CacheKey(items[i]) in resolved
      {
        var end := if start + MaxBatchSize < |items| then start + MaxBatchSize else |items|;
        resolved := FetchRange(items, start, end, resolved, fails(n), scope, same);
        start, n := end, n + 1;
      }
    }

    method FetchRange(items: seq<PackageVersion>, start: nat, end: nat, resolved0: map<string, string>, fails: bool,
                      ghost scope: Versions, ghost same: Sameness)
      returns (resolved: map<string, string>)
      requires start <= end <= |items| && Consistent(backend, scope, same)
      requires ItemsOk(backend, scope, items) && Known(backend, scope, same, resolved0)
      ensures Known(backend, scope, same, resolved) && resolved0.Keys <= resolved.Keys
      ensures forall i :: start <= i < end ==> CacheKey(items[i]) in resolved
    {
      var chunk := items[start..end];
      var batch, ok := FetchLicenseBatch(chunk, fails, scope, same);
      if ok {
        resolved := resolved0 + batch;
        forall i | start <= i < end ensures CacheKey(items[i]) in resolved { assert items[i] == chunk[i - start]; }
        return;
      }
      resolved := resolved0;
      for i := start to end
        invariant Known(backend, scope, same, resolved) && resolved0.Keys <= resolved.Keys
        invariant forall k :: start <= k < i ==> CacheKey(items[k]) in resolved
      {
        FetchedIsKnown(backend, scope, same, resolved, items, i);
        resolved := resolved[CacheKey(items[i]) := backend.fetch(items[i])];
      }
    }

    /** Caches what was fetched beyond the pending versions. */
    method StoreItems(items: seq<PackageVersion>, pending: map<string, PackageVersion>, resolved: map<string, string>,
                      ghost scope: Versions, ghost same: Sameness)
      requires Consistent(backend, scope, same) && Coherent(backend, scope, same, cache.m)
      requires ItemsOk(backend, scope, items) && Known(backend, scope, same, resolved)
      requires forall i :: 0 <= i < |items| ==> CacheKey(items[i]) in resolved
      modifies cache
      ensures Coherent(backend, scope, same, cache.m)
    {
      for i := 0 to |items|
        invariant Coherent(backend, scope, same, cache.m)
      {
        var ck := CacheKey(items[i]);
        if ck !in pending { cache.StoreValue(ck, resolved[ck]); }
      }
    }

    /** Caches every pending version and answers the purls that wait for it. */
    method AnswerPending(pending: map<string, PackageVersion>, purlsByKey: map<string, seq<string>>,
                         resolved: map<string, string>, defaultOf: map<string, string>, out0: map<string, string>,
                         ghost before: map<string, string>, ghost scope: Versions, ghost same: Sameness)
      returns (out: map<string, string>, ghost found: map<string, string>)
      requires Closed(backend, scope) && Consistent(backend, scope, same) && Coherent(backend, scope, same, cache.m) && Known(backend, scope, same, before)
      requires PendingOk(scope, before, pending) && WaitersOk(backend, pending, purlsByKey) && Known(backend, scope, same, resolved)
      requires forall key :: key in pending ==> Determined(backend, pending[key], key, resolved, defaultOf)
      requires Keyed(backend, before, out0)
      modifies cache
      ensures Coherent(backend, scope, same, cache.m)
      ensures Known(backend, scope, same, found) && Keyed(backend, found, out)
      ensures out0.Keys <= out.Keys && forall key, purl :: key in purlsByKey && purl in purlsByKey[key] ==> purl in out
      ensures found.Keys <= before.Keys + pending.Keys
      ensures forall key :: key in pending ==> AtSource(backend, pending[key], key, resolved, found)
    {
      out, found := out0, before;
      var left := pending.Keys;
      while left != {}
        invariant left <= pending.Keys && Coherent(backend, scope, same, cache.m) && out0.Keys <= out.Keys
        invariant Known(backend, scope, same, found) && Keyed(backend, found, out)
        invariant forall key, purl :: key in purlsByKey && key !in left && purl in purlsByKey[key] ==> purl in out
        invariant found.Keys <= before.Keys + pending.Keys
        invariant Answered(backend, pending, resolved, found, left)
      {
        var key :| key in left;
        var value := if key in defaultOf then resolved[defaultOf[key]] else resolved[key];
        DeterminedIsValue(backend, scope, same, pending[key], key, resolved, defaultOf);
        out := AnswerKey(pending[key], key, value, purlsByKey[key], out, found, scope, same);
        AnsweredNext(backend, pending, resolved, found, left, key, value);
        found := found[key := value];
        left := left - {key};
      }
    }

    /** Caches one pending version and answers the purls that wait for it. */
    method AnswerKey(pv: PackageVersion, key: string, value: string, purls: seq<string>, out0: map<string, string>,
                     ghost found: map<string, string>, ghost scope: Versions, ghost same: Sameness)
      returns (out: map<string, string>)
      requires Consistent(backend, scope, same) && Coherent(backend, scope, same, cache.m) && Known(backend, scope, same, found)
      requires pv in scope && CacheKey(pv) == key && same(value, Value(backend, pv))
      requires Keyed(backend, found, out0) && key !in found
      requires forall purl :: purl in purls ==> backend.parse(purl).Some? && CacheKey(Wanted(backend.parse(purl).value)) == key
      modifies cache
      ensures Coherent(backend, scope, same, cache.m)
      ensures Known(backend, scope, same, found[key := value]) && Keyed(backend, found[key := value], out)
      ensures forall purl :: purl in out <==> purl in out0 || purl in purls
    {
      StoreKeepsCoherent(backend, scope, same, cache.m, pv, value);
      StoreKeepsCoherent(backend, scope, same, found, pv, value);
      cache.StoreValue(key, value);
      out := AnswerWaiters(purls, key, value, out0, found);
    }

    method AnswerWaiters(purls: seq<string>, key: string, value: string, out0: map<string, string>, ghost found: map<string, string>)
      returns (out: map<string, string>)
      requires Keyed(backend, found, out0) && key !in found
      requires forall purl :: purl in purls ==> backend.parse(purl).Some? && CacheKey(Wanted(backend.parse(purl).value)) == key
      ensures forall purl :: purl in out <==> purl in out0 || purl in purls
      ensures Keyed(backend, found[key := value], out)
    {
      out := out0;
      for i := 0 to |purls|
        invariant forall purl :: purl in out <==> purl in out0 || purl in purls[..i]
        invariant Keyed(backend, found[key := value], out)
      {
        assert purls[..i + 1] == purls[..i] + [purls[i]];
        assert purls[i] in purls;
        out := out[purls[i] := License(value)];
      }
      assert purls[..|purls|] == purls;
    }

    /** A batch of purls. Every supported purl is answered with what was found
        for its key, and what was found for a key is the answer for its versions. */
    method ResolveBatch(purls: seq<string>, fails: nat -> bool, ghost scope: Versions, ghost same: Sameness)
      returns (out: map<string, string>, ghost found: map<string, string>,
               ghost asked: map<string, PackageVersion>, ghost sources: map<string, string>)
      requires Closed(backend, scope) && Consistent(backend, scope, same) && Coherent(backend, scope, same, cache.m)
      requires forall i :: 0 <= i < |purls| ==> Covers(backend, scope, purls[i])
      modifies cache
      ensures Coherent(backend, scope, same, cache.m)
      ensures Keyed(backend, found, out) && Known(backend, scope, same, found)
      ensures forall i :: 0 <= i < |purls| ==> purls[i] in out || backend.parse(purls[i]).None?
      ensures old(cache.m) == map[] ==> Sourced(backend, purls, asked, sources, found)
    {
      var pending: map<string, PackageVersion>, purlsByKey: map<string, seq<string>>;
      ghost var before := cache.m;
      out, pending, purlsByKey := CollectPending(purls, scope);
      found, asked, sources := before, pending, map[];
      if |pending| == 0 { return; }
      var items, queued := QueueConcrete(pending, scope);
      var resolved, defaultOf;
      items, queued, resolved, defaultOf := QueueDefaults(pending, items, queued, scope, same);
      ghost var known := resolved;
      resolved := FetchItems(items, resolved, fails, scope, same);
      forall key | key in pending ensures Determined(backend, pending[key], key, resolved, defaultOf) {
        FetchedDetermines(backend, pending, key, items, queued, known, resolved, defaultOf);
      }
      StoreItems(items, pending, resolved, scope, same);
      sources := resolved;
      out, found := AnswerPending(pending, purlsByKey, resolved, defaultOf, out, before, scope, same);
      if before == map[] { SourcedFrom(backend, scope, purls, before, pending, resolved, found); }
    }
  }

  // ---------------------------------------------------------------------
  // What the batch path keeps
  // ---------------------------------------------------------------------

  function WaitersOf(purlsByKey: map<string, seq<string>>, key: string): seq<string> {
    if key in purlsByKey then purlsByKey[key] else []
  }

  /** Pending versions are filed under their own keys, which are not cached. */
  ghost predicate PendingOk(scope: Versions, cached: map<string, string>, pending: map<string, PackageVersion>) {
    forall key :: key in pending ==> CacheKey(pending[key]) == key && pending[key] in scope && key !in cached
  }

  /** Purls wait under the key of the version they want. */
  ghost predicate WaitersOk(b: Backend, pending: map<string, PackageVersion>, purlsByKey: map<string, seq<string>>) {
    && purlsByKey.Keys == pending.Keys
    && forall key, purl :: key in purlsByKey && purl in purlsByKey[key] ==>
         b.parse(purl).Some? && CacheKey(Wanted(b.parse(purl).value)) == key
  }

  /** One of the purls wants the version. */
  ghost predicate Asked(b: Backend, purls: seq<string>, pv: PackageVersion) {
    exists purl :: purl in purls && b.parse(purl).Some? && Wanted(b.parse(purl).value) == pv
  }

  /** What was found for a key is the answer at the source of a version of that key
      that was asked for. */
  ghost predicate Sourced(b: Backend, purls: seq<string>, asked: map<string, PackageVersion>, sources: map<string, string>,
                          found: map<string, string>) {
    && (forall key :: key in found ==>
          && key in asked && CacheKey(asked[key]) == key
          && SourceKey(b, asked[key]) in sources && found[key] == sources[SourceKey(b, asked[key])])
    && (forall key :: key in asked ==> Asked(b, purls, asked[key]))
  }

  /** A purl is unsupported, answered, or waiting. */
  ghost predicate Accounted(b: Backend, purl: string, out: map<string, string>, purlsByKey: map<string, seq<string>>) {
    b.parse(purl).None? || purl in out
    || (CacheKey(Wanted(b.parse(purl).value)) in purlsByKey && purl in purlsByKey[CacheKey(Wanted(b.parse(purl).value))])
  }

  /** How far the collection has come after the first i purls. */
  ghost predicate Collected(b: Backend, scope: Versions, purls: seq<string>, cached: map<string, string>, out: map<string, string>,
                            pending: map<string, PackageVersion>, purlsByKey: map<string, seq<string>>, i: nat)
    requires i <= |purls|
  {
    && PendingOk(scope, cached, pending) && WaitersOk(b, pending, purlsByKey) && Keyed(b, cached, out)
    && (forall k :: 0 <= k < i ==> Accounted(b, purls[k], out, purlsByKey))
    && (forall key :: key in pending ==> Asked(b, purls, pending[key]))
  }

  lemma CollectCached(b: Backend, scope: Versions, purls: seq<string>, cached: map<string, string>, out: map<string, string>,
                      pending: map<string, PackageVersion>, purlsByKey: map<string, seq<string>>, i: nat)
    requires i < |purls| && Collected(b, scope, purls, cached, out, pending, purlsByKey, i)
    requires b.parse(purls[i]).Some? && CacheKey(Wanted(b.parse(purls[i]).value)) in cached
    ensures Collected(b, scope, purls, cached, out[purls[i] := License(cached[CacheKey(Wanted(b.parse(purls[i]).value))])],
                      pending, purlsByKey, i + 1)
  {
  }

  lemma WaitersGrow(b: Backend, pending: map<string, PackageVersion>, purlsByKey: map<string, seq<string>>, purl: string)
    requires WaitersOk(b, pending, purlsByKey) && b.parse(purl).Some?
    ensures var pv := Wanted(b.parse(purl).value);
            WaitersOk(b, if CacheKey(pv) in pending then pending else pending[CacheKey(pv) := pv],
                      purlsByKey[CacheKey(pv) := WaitersOf(purlsByKey, CacheKey(pv)) + [purl]])
  {
  }

  lemma AccountedStays(b: Backend, out: map<string, string>, purlsByKey: map<string, seq<string>>, key: string, purl: string, other: string)
    requires Accounted(b, other, out, purlsByKey)
      || (other == purl && b.parse(purl).Some? && key == CacheKey(Wanted(b.parse(purl).value)))
    ensures Accounted(b, other, out, purlsByKey[key := WaitersOf(purlsByKey, key) + [purl]])
  {
  }

  lemma CollectWaiting(b: Backend, scope: Versions, purls: seq<string>, cached: map<string, string>, out: map<string, string>,
                       pending: map<string, PackageVersion>, purlsByKey: map<string, seq<string>>, i: nat)
    requires i < |purls| && Collected(b, scope, purls, cached, out, pending, purlsByKey, i)
    requires b.parse(purls[i]).Some? && Wanted(b.parse(purls[i]).value) in scope
    requires CacheKey(Wanted(b.parse(purls[i]).value)) !in cached
    ensures var pv := Wanted(b.parse(purls[i]).value);
            Collected(b, scope, purls, cached, out, if CacheKey(pv) in pending then pending else pending[CacheKey(pv) := pv],
                      purlsByKey[CacheKey(pv) := WaitersOf(purlsByKey, CacheKey(pv)) + [purls[i]]], i + 1)
  {
    var pv := Wanted(b.parse(purls[i]).value);
    assert Asked(b, purls, pv);
    WaitersGrow(b, pending, purlsByKey, purls[i]);
    forall k | 0 <= k < i + 1
      ensures Accounted(b, purls[k], out, purlsByKey[CacheKey(pv) := WaitersOf(purlsByKey, CacheKey(pv)) + [purls[i]]])
    {
      AccountedStays(b, out, purlsByKey, CacheKey(pv), purls[i], purls[k]);
    }
  }

  /** What was found for the key is the answer at the source of its pending version. */
  ghost predicate AtSource(b: Backend, pv: PackageVersion, key: string, resolved: map<string, string>, found: map<string, string>) {
    key in found && SourceKey(b, pv) in resolved && found[key] == resolved[SourceKey(b, pv)]
  }

  /** All but these keys have been answered, each from its source. */
  ghost predicate Answered(b: Backend, pending: map<string, PackageVersion>, resolved: map<string, string>, found: map<string, string>, left: set<string>) {
    && found.Keys !! left
    && forall key :: key in pending && key !in left ==> AtSource(b, pending[key], key, resolved, found)
  }

  lemma AnsweredNext(b: Backend, pending: map<string, PackageVersion>, resolved: map<string, string>, found: map<string, string>,
                     left: set<string>, key: string, value: string)
    requires Answered(b, pending, resolved, found, left) && key in left && key in pending
    requires SourceKey(b, pending[key]) in resolved && value == resolved[SourceKey(b, pending[key])]
    ensures Answered(b, pending, resolved, found[key := value], left - {key})
  {
    forall k | k in pending && k !in left - {key} ensures AtSource(b, pending[k], k, resolved, found[key := value]) {
      if k != key { assert AtSource(b, pending[k], k, resolved, found); }
    }
  }

  lemma SourcedFrom(b: Backend, scope: Versions, purls: seq<string>, cached: map<string, string>, pending: map<string, PackageVersion>,
                    resolved: map<string, string>, found: map<string, string>)
    requires PendingOk(scope, cached, pending) && found.Keys <= pending.Keys
    requires forall key :: key in pending ==> AtSource(b, pending[key], key, resolved, found) && Asked(b, purls, pending[key])
    ensures Sourced(b, purls, pending, resolved, found)
  {
    forall key | key in found ensures AtSource(b, pending[key], key, resolved, found) {}
  }

  /** Every answer is that of the purl's key. */
  ghost predicate Keyed(b: Backend, found: map<string, string>, out: map<string, string>) {
    forall purl :: purl in out ==>
      && b.parse(purl).Some? && CacheKey(Wanted(b.parse(purl).value)) in found
      && out[purl] == License(found[CacheKey(Wanted(b.parse(purl).value))])
  }

  /** Items are fetched as the versions they are. */
  ghost predicate ItemsOk(b: Backend, scope: Versions, items: seq<PackageVersion>) {
    forall i :: 0 <= i < |items| ==> items[i] in scope && Value(b, items[i]) == b.fetch(items[i])
  }

  lemma FetchedIsKnown(b: Backend, scope: Versions, same: Sameness, found: map<string, string>, items: seq<PackageVersion>, i: nat)
    requires Consistent(b, scope, same) && ItemsOk(b, scope, items) && i < |items| && Known(b, scope, same, found)
    ensures Known(b, scope, same, found[CacheKey(items[i]) := b.fetch(items[i])])
  {
    assert same(Value(b, items[i]), Value(b, items[i]));
    StoreKeepsCoherent(b, scope, same, found, items[i], b.fetch(items[i]));
  }

  /** queued holds the keys of the items. */
  ghost predicate Queued(items: seq<PackageVersion>, queued: set<string>) {
    forall key :: key in queued <==> exists i :: 0 <= i < |items| && CacheKey(items[i]) == key
  }

  lemma QueueOne(items: seq<PackageVersion>, queued: set<string>, pv: PackageVersion)
    requires Queued(items, queued)
    ensures Queued(items + [pv], queued + {CacheKey(pv)})
  {
    var more := items + [pv];
    assert more[|items|] == pv && forall i :: 0 <= i < |items| ==> more[i] == items[i];
  }

  /** A versionless purl's license is known, or to be had from a queued version. */
  ghost predicate Borrows(b: Backend, pv: PackageVersion, key: string, resolved: map<string, string>,
                          defaultOf: map<string, string>, queued: set<string>) {
    if DefaultOf(b, pv).version == "" then key !in defaultOf && key in resolved
    else
      var ck := CacheKey(DefaultOf(b, pv));
      key in defaultOf && defaultOf[key] == ck && (ck in resolved || ck in queued)
  }

  lemma BorrowsGrows(b: Backend, pv: PackageVersion, key: string,
                     resolved: map<string, string>, defaultOf: map<string, string>, queued: set<string>,
                     resolvedNow: map<string, string>, defaultNow: map<string, string>, queuedNow: set<string>)
    requires Borrows(b, pv, key, resolved, defaultOf, queued)
    requires resolved.Keys <= resolvedNow.Keys && queued <= queuedNow
    requires (key in defaultOf <==> key in defaultNow) && (key in defaultOf ==> defaultNow[key] == defaultOf[key])
    ensures Borrows(b, pv, key, resolvedNow, defaultNow, queuedNow)
  {
  }

  /** Where the license of a pending version is to be found. */
  ghost predicate Determined(b: Backend, pv: PackageVersion, key: string, resolved: map<string, string>, defaultOf: map<string, string>) {
    if pv.version == AnyVersion && DefaultOf(b, pv).version != ""
    then key in defaultOf && defaultOf[key] == CacheKey(DefaultOf(b, pv)) && defaultOf[key] in resolved
    else key !in defaultOf && key == CacheKey(pv) && key in resolved
  }

  lemma DeterminedIsValue(b: Backend, scope: Versions, same: Sameness, pv: PackageVersion, key: string,
                          resolved: map<string, string>, defaultOf: map<string, string>)
    requires Closed(b, scope) && pv in scope && Known(b, scope, same, resolved) && Determined(b, pv, key, resolved, defaultOf)
    ensures SourceKey(b, pv) in resolved
    ensures (if key in defaultOf then resolved[defaultOf[key]] else resolved[key]) == resolved[SourceKey(b, pv)]
    ensures same(resolved[SourceKey(b, pv)], Value(b, pv))
  {
    if pv.version == AnyVersion && DefaultOf(b, pv).version != "" {
      assert DefaultOf(b, pv) in scope && Value(b, DefaultOf(b, pv)) == Value(b, pv);
    }
  }

  lemma FetchedDetermines(b: Backend, pending: map<string, PackageVersion>, key: string, items: seq<PackageVersion>, queued: set<string>,
                          before: map<string, string>, resolved: map<string, string>, defaultOf: map<string, string>)
    requires key in pending && CacheKey(pending[key]) == key && Queued(items, queued)
    requires before.Keys <= resolved.Keys && forall i :: 0 <= i < |items| ==> CacheKey(items[i]) in resolved
    requires pending[key].version != AnyVersion ==> key in queued && key !in defaultOf
    requires pending[key].version == AnyVersion ==> Borrows(b, pending[key], key, before, defaultOf, queued)
    ensures Determined(b, pending[key], key, resolved, defaultOf)
  {
    assert forall k :: k in queued ==> k in resolved;
  }

  // ---------------------------------------------------------------------
  // Batch against alone
  // ---------------------------------------------------------------------

  function AnswerFor(out: map<string, string>, purl: string): string {
    if purl in out then out[purl] else ""
  }

  function AnswersFor(out: map<string, string>, purls: seq<string>): (answers: seq<string>)
    ensures |answers| == |purls|
    ensures forall i :: 0 <= i < |purls| ==> answers[i] == AnswerFor(out, purls[i])
  {
    seq(|purls|, i requires 0 <= i < |purls| => AnswerFor(out, purls[i]))
  }

  /** From a coherent cache, a batch gives every purl what Resolve would give it,
      as long as versions that share a key have one license. */
  method BatchAnswers(r: Resolver, purls: seq<string>, fails: nat -> bool, ghost scope: Versions) returns (answers: seq<string>)
    requires Closed(r.backend, scope) && Consistent(r.backend, scope, OneLicense()) && Coherent(r.backend, scope, OneLicense(), r.cache.m)
    requires forall i :: 0 <= i < |purls| ==> Covers(r.backend, scope, purls[i])
    modifies r.cache
    ensures |answers| == |purls| && forall i :: 0 <= i < |purls| ==> answers[i] == LicenseOf(r.backend, purls[i])
    ensures Coherent(r.backend, scope, OneLicense(), r.cache.m)
  {
    var out;
    ghost var found, asked, sources;
    out, found, asked, sources := r.ResolveBatch(purls, fails, scope, OneLicense());
    answers := AnswersFor(out, purls);
    KnownIsRight(r.backend, scope, purls, found, out);
  }

  /** What is known to be of one license with the backend's answer is right. */
  lemma KnownIsRight(b: Backend, scope: Versions, purls: seq<string>, found: map<string, string>, out: map<string, string>)
    requires Keyed(b, found, out) && Known(b, scope, OneLicense(), found)
    requires forall i :: 0 <= i < |purls| ==> Covers(b, scope, purls[i]) && (purls[i] in out || b.parse(purls[i]).None?)
    ensures forall i :: 0 <= i < |purls| ==> AnswerFor(out, purls[i]) == LicenseOf(b, purls[i])
  {
    forall i | 0 <= i < |purls| ensures AnswerFor(out, purls[i]) == LicenseOf(b, purls[i]) {
      assert Covers(b, scope, purls[i]);
    }
  }

  lemma OneLicenseTransitive(b: Backend, scope: Versions)
    requires forall p, q :: p in scope && q in scope && CacheKey(p) == CacheKey(q) ==> License(Value(b, p)) == License(Value(b, q))
    ensures Consistent(b, scope, OneLicense())
  {
  }

  /** "pkg:npm/a@1%402" and "pkg:npm/a@1@2" are different versions under one key. */
  lemma AtSignSharesKey()
    ensures CacheKey(PackageVersion("NPM", "a", "1@2")) == CacheKey(PackageVersion("NPM", "a@1", "2"))
  {
    calc {
      CacheKey(PackageVersion("NPM", "a", "1@2"));
      "NPM:a@1@2";
      CacheKey(PackageVersion("NPM", "a@1", "2"));
    }
  }

  ghost predicate Concrete(b: Backend, purl: string) {
    b.parse(purl).Some? ==> b.parse(purl).value.version != "" && b.parse(purl).value.version != AnyVersion
  }

  /** Two purls that want versions of one key. */
  ghost predicate SharesKey(b: Backend, purl: string, other: string) {
    && b.parse(purl).Some? && b.parse(other).Some?
    && CacheKey(Wanted(b.parse(purl).value)) == CacheKey(Wanted(b.parse(other).value))
  }

  /** The versions that purls want, and those that the versionless ones borrow from. */
  ghost function Touched(b: Backend, purls: seq<string>): Versions {
    (iset pv | Asked(b, purls, pv))
    + (iset pv | Asked(b, purls, pv) && pv.version == AnyVersion && DefaultOf(b, pv).version != "" :: DefaultOf(b, pv))
  }

  /** No wildcard shares its key with another version. */
  ghost predicate WildcardsApart(b: Backend, purls: seq<string>) {
    forall p, q :: p in Touched(b, purls) && q in Touched(b, purls) && CacheKey(p) == CacheKey(q) && p.version == AnyVersion ==> p == q
  }

  /** Two purls whose answers come from one key. */
  ghost predicate SharesSource(b: Backend, purl: string, other: string) {
    && b.parse(purl).Some? && b.parse(other).Some?
    && SourceKey(b, Wanted(b.parse(purl).value)) == SourceKey(b, Wanted(b.parse(other).value))
  }

  /** No two purls whose answers come from one key have different licenses. */
  ghost predicate Alike(b: Backend, purls: seq<string>) {
    forall purl, other :: purl in purls && other in purls && SharesSource(b, purl, other) ==> LicenseOf(b, purl) == LicenseOf(b, other)
  }

  lemma TouchedCovers(b: Backend, purls: seq<string>)
    ensures Closed(b, Touched(b, purls)) && Consistent(b, Touched(b, purls), Anything())
    ensures forall purl :: purl in purls ==> Covers(b, Touched(b, purls), purl)
  {
    forall pv | pv in Touched(b, purls) && pv.version == AnyVersion && DefaultOf(b, pv).version != ""
      ensures DefaultOf(b, pv) in Touched(b, purls)
    {
      forall w: PackageVersion | w.version == AnyVersion && DefaultOf(b, w) == pv ensures w == pv {}
    }
    forall purl | purl in purls && b.parse(purl).Some? ensures Wanted(b.parse(purl).value) in Touched(b, purls) {
      assert Asked(b, purls, Wanted(b.parse(purl).value));
    }
  }

  /** A concrete version that is touched is the source of a purl. */
  lemma SourceOfPurl(b: Backend, purls: seq<string>, pv: PackageVersion) returns (purl: string)
    requires pv in Touched(b, purls) && pv.version != AnyVersion
    ensures purl in purls && b.parse(purl).Some? && SourceKey(b, Wanted(b.parse(purl).value)) == CacheKey(pv)
    ensures LicenseOf(b, purl) == License(Value(b, pv))
  {
    if Asked(b, purls, pv) {
      purl :| purl in purls && b.parse(purl).Some? && Wanted(b.parse(purl).value) == pv;
    } else {
      var w :| Asked(b, purls, w) && w.version == AnyVersion && DefaultOf(b, w).version != "" && DefaultOf(b, w) == pv;
      purl :| purl in purls && b.parse(purl).Some? && Wanted(b.parse(purl).value) == w;
    }
  }

  lemma AlikeIsConsistent(b: Backend, purls: seq<string>)
    requires WildcardsApart(b, purls) && Alike(b, purls)
    ensures Consistent(b, Touched(b, purls), OneLicense())
  {
    forall p, q | p in Touched(b, purls) && q in Touched(b, purls) && CacheKey(p) == CacheKey(q)
      ensures License(Value(b, p)) == License(Value(b, q))
    {
      if p.version != AnyVersion && q.version != AnyVersion {
        var purl := SourceOfPurl(b, purls, p);
        var other := SourceOfPurl(b, purls, q);
        assert SharesSource(b, purl, other);
      }
    }
    OneLicenseTransitive(b, Touched(b, purls));
  }

  ghost function SameFor(b: Backend, purls: seq<string>): Sameness {
    if Alike(b, purls) then OneLicense() else Anything()
  }

  lemma TouchedReady(b: Backend, purls: seq<string>)
    requires WildcardsApart(b, purls)
    ensures Closed(b, Touched(b, purls)) && Consistent(b, Touched(b, purls), SameFor(b, purls))
    ensures Coherent(b, Touched(b, purls), SameFor(b, purls), map[])
    ensures forall i :: 0 <= i < |purls| ==> Covers(b, Touched(b, purls), purls[i])
  {
    TouchedCovers(b, purls);
    if Alike(b, purls) { AlikeIsConsistent(b, purls); }
  }

  /** A purl gets the answer at its source. */
  lemma AnswerAtSource(b: Backend, purls: seq<string>, asked: map<string, PackageVersion>, sources: map<string, string>,
                       found: map<string, string>, out: map<string, string>, purl: string)
    requires WildcardsApart(b, purls) && Sourced(b, purls, asked, sources, found) && Keyed(b, found, out)
    requires purl in purls && purl in out
    ensures b.parse(purl).Some? && SourceKey(b, Wanted(b.parse(purl).value)) in sources
    ensures out[purl] == License(sources[SourceKey(b, Wanted(b.parse(purl).value))])
  {
    var pv := Wanted(b.parse(purl).value);
    var rep := asked[CacheKey(pv)];
    assert Asked(b, purls, pv) && Asked(b, purls, rep) && pv in Touched(b, purls) && rep in Touched(b, purls);
  }

  /** A batch in which no wildcard shares its key with another version, nothing
      cached: every purl gets its own license if and only if no two purls whose
      answers come from one key have different licenses. */
  method SourcedBatch(b: Backend, purls: seq<string>, fails: nat -> bool) returns (answers: seq<string>)
    requires WildcardsApart(b, purls)
    ensures |answers| == |purls|
    ensures (forall i :: 0 <= i < |purls| ==> answers[i] == LicenseOf(b, purls[i])) <==> Alike(b, purls)
  {
    ghost var scope, same := Touched(b, purls), SameFor(b, purls);
    TouchedReady(b, purls);
    var cache := new ResolverCache();
    var r := new Resolver(b, cache);
    var out;
    ghost var found, asked, sources;
    out, found, asked, sources := r.ResolveBatch(purls, fails, scope, same);
    answers := AnswersFor(out, purls);
    RightIffAlike(b, purls, asked, sources, found, out);
  }

  ghost predicate AllRight(b: Backend, purls: seq<string>, out: map<string, string>) {
    forall i :: 0 <= i < |purls| ==> AnswersFor(out, purls)[i] == LicenseOf(b, purls[i])
  }

  lemma RightIffAlike(b: Backend, purls: seq<string>, asked: map<string, PackageVersion>, sources: map<string, string>,
                      found: map<string, string>, out: map<string, string>)
    requires WildcardsApart(b, purls) && Sourced(b, purls, asked, sources, found) && Keyed(b, found, out)
    requires Known(b, Touched(b, purls), SameFor(b, purls), found)
    requires forall i :: 0 <= i < |purls| ==> purls[i] in out || b.parse(purls[i]).None?
    ensures AllRight(b, purls, out) <==> Alike(b, purls)
  {
    if Alike(b, purls) {
      TouchedCovers(b, purls);
      KnownIsRight(b, Touched(b, purls), purls, found, out);
    }
    if AllRight(b, purls, out) { RightAreAlike(b, purls, asked, sources, found, out); }
  }

  lemma RightAnswer(b: Backend, purls: seq<string>, out: map<string, string>, i: nat)
    requires AllRight(b, purls, out) && i < |purls| && purls[i] in out
    ensures out[purls[i]] == LicenseOf(b, purls[i])
  {
    assert AnswersFor(out, purls)[i] == AnswerFor(out, purls[i]);
  }

  lemma RightAtSource(b: Backend, purls: seq<string>, asked: map<string, PackageVersion>, sources: map<string, string>,
                      found: map<string, string>, out: map<string, string>, purl: string)
    requires WildcardsApart(b, purls) && Sourced(b, purls, asked, sources, found) && Keyed(b, found, out)
    requires AllRight(b, purls, out) && purl in purls && purl in out
    ensures b.parse(purl).Some? && SourceKey(b, Wanted(b.parse(purl).value)) in sources
    ensures LicenseOf(b, purl) == License(sources[SourceKey(b, Wanted(b.parse(purl).value))])
  {
    var i :| 0 <= i < |purls| && purls[i] == purl;
    AnswerAtSource(b, purls, asked, sources, found, out, purl);
    RightAnswer(b, purls, out, i);
  }

  lemma RightAreAlike(b: Backend, purls: seq<string>, asked: map<string, PackageVersion>, sources: map<string, string>,
                      found: map<string, string>, out: map<string, string>)
    requires WildcardsApart(b, purls) && Sourced(b, purls, asked, sources, found) && Keyed(b, found, out)
    requires forall i :: 0 <= i < |purls| ==> purls[i] in out || b.parse(purls[i]).None?
    requires AllRight(b, purls, out)
    ensures Alike(b, purls)
  {
    forall purl, other | purl in purls && other in purls && SharesSource(b, purl, other) ensures LicenseOf(b, purl) == LicenseOf(b, other) {
      RightAtSource(b, purls, asked, sources, found, out, purl);
      RightAtSource(b, purls, asked, sources, found, out, other);
    }
  }

  /** For concrete versions the condition is on shared keys alone. */
  method ConcreteBatch(b: Backend, purls: seq<string>, fails: nat -> bool) returns (answers: seq<string>)
    requires forall purl :: purl in purls ==> Concrete(b, purl)
    ensures |answers| == |purls|
    ensures (forall i :: 0 <= i < |purls| ==> answers[i] == LicenseOf(b, purls[i])) <==>
            (forall purl, other :: purl in purls && other in purls && SharesKey(b, purl, other) ==>
               LicenseOf(b, purl) == LicenseOf(b, other))
  {
    ConcreteApart(b, purls);
    answers := SourcedBatch(b, purls, fails);
  }

  lemma ConcreteApart(b: Backend, purls: seq<string>)
    requires forall purl :: purl in purls ==> Concrete(b, purl)
    ensures WildcardsApart(b, purls)
    ensures forall purl, other :: purl in purls && other in purls ==> (SharesKey(b, purl, other) <==> SharesSource(b, purl, other))
  {
  }

  /** One purl, nothing cached: alone and in a batch it gets the same license,
      unless its version is literally "*". Then it does if and only if the backend
      has one license for that version and for the default one it stands for. */
  method LiteralWildcard(b: Backend, purl: string, fails: nat -> bool) returns (alone: string, batched: string)
    requires b.parse(purl).Some?
    ensures b.parse(purl).value.version != "*" ==> alone == batched
    ensures b.parse(purl).value.version == "*" ==>
              (alone == batched <==>
               License(b.fetch(b.parse(purl).value)) ==
                 if DefaultOf(b, b.parse(purl).value).version == "" then "" else License(b.fetch(DefaultOf(b, b.parse(purl).value))))
  {
    var pv := b.parse(purl).value;
    ghost var scope := iset{Wanted(pv), DefaultOf(b, pv)};
    SameNameConsistent(b, pv);
    CacheValueRoundTrip(b.defaultVersion(pv.system, pv.name).1, "");
    var cache := new ResolverCache();
    var r := new Resolver(b, cache);
    ghost var value;
    alone, value := r.Resolve(purl, scope, Anything());
    var another := new ResolverCache();
    var q := new Resolver(b, another);
    var out;
    ghost var found, asked, sources;
    out, found, asked, sources := q.ResolveBatch([purl], fails, scope, Equal());
    batched := AnswerFor(out, purl);
    assert [purl][0] == purl;
    assert batched == LicenseOf(b, purl);
  }

  lemma SameNameConsistent(b: Backend, pv: PackageVersion)
    ensures Consistent(b, iset{Wanted(pv), DefaultOf(b, pv)}, Equal()) && Closed(b, iset{Wanted(pv), DefaultOf(b, pv)})
  {
    var p, q := Wanted(pv), DefaultOf(b, pv);
    var n := |pv.system + ":" + pv.name + "@"|;
    assert CacheKey(p)[n..] == p.version && CacheKey(q)[n..] == q.version;
    assert DefaultOf(b, q) == q == DefaultOf(b, p);
  }
}
