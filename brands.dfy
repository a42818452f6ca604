/** Brands, the catalog store the loaders write to, and `get_brand`, which
    resolves a brand name to a brand id through a caller-owned cache and
    creates the brand on first sight. */
module Brands {
  import opened Wrappers
  import opened Values
  import opened Catalog

  /** A brand row; `id` is None until the store has assigned a key. */
  datatype Brand = Brand(
    id: Option<int>, name: string, country: Option<string>,
    yearFounded: Option<int>, active: bool, slacklineFocused: bool,
    website: Option<string>, socials: Option<string>,
    description: Option<string>, notes: Option<string>)

  /** `Brand.model_validate(BrandCreate(name=...))`: only the name is given,
      every other attribute takes its declared default. */
  function NewBrand(name: string, id: Option<int>): Brand
  {
    Brand(id, name, None, None, true, true, None, None, None, None)
  }

  /** The declared defaults: active and slackline-focused, nothing else known. */
  predicate HasDefaults(b: Brand)
  {
    b.country.None? && b.yearFounded.None? && b.active && b.slacklineFocused
    && b.website.None? && b.socials.None? && b.description.None? && b.notes.None?
  }

  /** The store as the loaders see it through their session: the brand
      rows, the next key the store hands out, whether it hands out keys at
      all (a store that does not is the "could not be determined" case),
      the equipment records added but not committed, and those committed. */
  datatype StoreState = StoreState(
    brands: seq<Brand>, nextId: int, assignsIds: bool,
    pending: seq<Item>, committed: seq<Item>)

  /** Every equipment record the session holds, committed or not. */
  function Items(s: StoreState): seq<Item>
  {
    s.committed + s.pending
  }

  /** `session.commit()`: everything pending becomes committed. */
  function Commit(s: StoreState): (r: StoreState)
    ensures Items(r) == Items(s) && r.pending == []
  {
    s.(pending := [], committed := s.committed + s.pending)
  }

  /** `session.add(item)` for an equipment record. */
  function Stage(s: StoreState, item: Item): (r: StoreState)
    ensures Items(r) == Items(s) + [item]
  {
    s.(pending := s.pending + [item])
  }

  /** `select(Brand.id).where(Brand.name == name).first()`: the id of the
      first row with exactly that name, or None. */
  function FindBrandId(brands: seq<Brand>, name: string): Option<int>
  {
    if brands == [] then None
    else if brands[0].name == name then brands[0].id
    else FindBrandId(brands[1..], name)
  }

  /** The lookup answers the id of the first row with the name: an id only
      when some row has the name, None when no row has it, and whatever id
      the first row with the name holds. */
  lemma {:induction false} FindBrandIdFirst(brands: seq<Brand>, name: string)
    ensures var r := FindBrandId(brands, name);
            && (r.Some? ==> exists i | 0 <= i < |brands| :: brands[i].name == name && brands[i].id == r
                             && forall j | 0 <= j < i :: brands[j].name != name)
            && ((forall i | 0 <= i < |brands| :: brands[i].name != name) ==> r.None?)
            && (forall i | 0 <= i < |brands| && brands[i].name == name
                           && (forall j | 0 <= j < i :: brands[j].name != name) :: r == brands[i].id)
    decreases |brands|
  {
    FindBrandIdAtFirst(brands, name);
    if brands != [] && brands[0].name != name {
      FindBrandIdFirst(brands[1..], name);
      var r := FindBrandId(brands, name);
      if r.Some? {
        var k :| 0 <= k < |brands[1..]| && brands[1..][k].name == name && brands[1..][k].id == r
                 && forall j | 0 <= j < k :: brands[1..][j].name != name;
        assert brands[k + 1].name == name && brands[k + 1].id == r;
        forall j | 0 <= j < k + 1
          ensures brands[j].name != name
        {
          if j > 0 {
            assert brands[j] == brands[1..][j - 1];
          }
        }
      }
      forall i | 1 <= i < |brands|
        ensures brands[i] == brands[1..][i - 1]
      {
      }
    }
  }

  /** The first row with the name decides the lookup. */
  lemma {:induction false} FindBrandIdAtFirst(brands: seq<Brand>, name: string)
    ensures forall i | 0 <= i < |brands| && brands[i].name == name
                       && (forall j | 0 <= j < i :: brands[j].name != name) :: FindBrandId(brands, name) == brands[i].id
    decreases |brands|
  {
    if brands != [] && brands[0].name != name {
      FindBrandIdAtFirst(brands[1..], name);
      forall i | 0 <= i < |brands| && brands[i].name == name && (forall j | 0 <= j < i :: brands[j].name != name)
        ensures FindBrandId(brands, name) == brands[i].id
      {
        assert i > 0;
        assert brands[1..][i - 1] == brands[i];
        forall j | 0 <= j < i - 1
          ensures brands[1..][j].name != name
        {
          assert brands[1..][j] == brands[j + 1];
        }
      }
    }
  }

  /** The key the store gives the next brand it inserts. */
  function NewId(s: StoreState): Option<int>
  {
    if s.assignsIds then Some(s.nextId) else None
  }

  /** Adding a brand with only its name, committing (which also commits
      every pending equipment record) and refreshing it. */
  function InsertBrand(s: StoreState, name: string): StoreState
  {
    StoreState(s.brands + [NewBrand(name, NewId(s))],
               if s.assignsIds then s.nextId + 1 else s.nextId,
               s.assignsIds, [], s.committed + s.pending)
  }

  /** `str(item.get("brand"))`: a record without a brand is named "None". */
  function BrandName(item: map<string, Value>): string
  {
    ToStr(Get(item, "brand", VNull))
  }

  datatype Resolution = Resolution(outcome: Result<int, LoadError>, store: StoreState, cache: map<string, int>)

  /** What one call of `get_brand` does to the store and the cache. */
  function ResolveBrand(s: StoreState, cache: map<string, int>, name: string): Resolution
  {
    if name in cache then Resolution(Success(cache[name]), s, cache)
    else
      var found := FindBrandId(s.brands, name);
      var store := if found.None? then InsertBrand(s, name) else s;
      var brandId := if found.None? then NewId(s) else found;
      if brandId.None? then Resolution(Failure(BrandIdUndetermined(name)), store, cache)
      else Resolution(Success(brandId.value), store, cache[name := brandId.value])
  }

  /** The session: brand rows, key counter and equipment records. */
  class Session {
    var brands: seq<Brand>
    var nextId: int
    const assignsIds: bool
    var pending: seq<Item>
    var committed: seq<Item>

    function State(): StoreState
      reads this
    {
      StoreState(brands, nextId, assignsIds, pending, committed)
    }

    constructor (brands: seq<Brand>, nextId: int, assignsIds: bool)
      ensures State() == StoreState(brands, nextId, assignsIds, [], [])
    {
      this.brands := brands;
      this.nextId := nextId;
      this.assignsIds := assignsIds;
      pending := [];
      committed := [];
    }

    /** Add a brand with only its name, commit, refresh; answer its key. */
    method CreateBrand(name: string) returns (id: Option<int>)
      modifies this
      ensures State() == InsertBrand(old(State()), name)
      ensures id == NewId(old(State()))
    {
      id := if assignsIds then Some(nextId) else None;
      brands := brands + [NewBrand(name, id)];
      if assignsIds {
        nextId := nextId + 1;
      }
      committed := committed + pending;
      pending := [];
    }

    /** `session.add(item)`. */
    method Add(item: Item)
      modifies this
      ensures State() == Stage(old(State()), item)
    {
      pending := pending + [item];
    }

    /** `session.commit()`. */
    method CommitAll()
      modifies this
      ensures State() == Commit(old(State()))
    {
      committed := committed + pending;
      pending := [];
    }
  }

  /** The name-to-id dict a batch creates empty and threads through every
      call of `get_brand`. */
  class BrandCache {
    var entries: map<string, int>

    constructor ()
      ensures entries == map[]
    {
      entries := map[];
    }
  }

  /** `get_brand`: answers the id for the record's brand name and the very
      cache it was given, updated. */
  method GetBrand(session: Session, brandCache: BrandCache, item: map<string, Value>)
    returns (brandId: Result<int, LoadError>, cacheOut: BrandCache)
    modifies session, brandCache
    ensures cacheOut == brandCache
    ensures var res := ResolveBrand(old(session.State()), old(brandCache.entries), BrandName(item));
            brandId == res.outcome && session.State() == res.store && brandCache.entries == res.cache
  {
    cacheOut := brandCache;
    var brandName := ToStr(Get(item, "brand", VNull));
    if brandName !in brandCache.entries {
      var result := FindBrandId(session.brands, brandName);
      var id: Option<int>;
      if result.None? {
        id := session.CreateBrand(brandName);
      } else {
        id := result;
      }
      if id.None? {
        brandId := Failure(BrandIdUndetermined(brandName));
        return;
      }
      brandCache.entries := brandCache.entries[brandName := id.value];
    }
    brandId := Success(brandCache.entries[brandName]);
  }

  // ---------------------------------------------------------------------
  // What a resolution promises.

  /** A cache hit answers the cached id and touches neither cache nor store. */
  lemma ResolveOnHit(s: StoreState, cache: map<string, int>, name: string)
    requires name in cache
    ensures ResolveBrand(s, cache, name) == Resolution(Success(cache[name]), s, cache)
  {
  }

  /** A miss on a stored name answers the stored id, creates nothing and
      caches the id. */
  lemma ResolveOnStoredName(s: StoreState, cache: map<string, int>, name: string, id: int)
    requires name !in cache && FindBrandId(s.brands, name) == Some(id)
    ensures ResolveBrand(s, cache, name) == Resolution(Success(id), s, cache[name := id])
  {
  }

  /** A miss on a name whose first stored row has an id answers that id,
      leaves the store as it is, and caches the id. */
  lemma ResolveOnFirstStoredRow(s: StoreState, cache: map<string, int>, name: string, i: int, id: int)
    requires name !in cache && 0 <= i < |s.brands| && s.brands[i].name == name && s.brands[i].id == Some(id)
    requires forall j | 0 <= j < i :: s.brands[j].name != name
    ensures ResolveBrand(s, cache, name) == Resolution(Success(id), s, cache[name := id])
  {
    FindBrandIdFirst(s.brands, name);
  }

  /** A miss on an unknown name adds exactly one brand with that name and
      the default attributes, commits, and caches and answers its new key;
      a store that assigns no key makes the call fail with the cache as it
      was. */
  lemma ResolveOnUnknownName(s: StoreState, cache: map<string, int>, name: string)
    requires name !in cache && FindBrandId(s.brands, name).None?
    ensures var r := ResolveBrand(s, cache, name);
            && |r.store.brands| == |s.brands| + 1
            && r.store.brands[..|s.brands|] == s.brands
            && r.store.brands[|s.brands|].name == name
            && HasDefaults(r.store.brands[|s.brands|])
            && r.store.pending == [] && Items(r.store) == Items(s)
            && (s.assignsIds ==> r.outcome == Success(s.nextId) && r.cache == cache[name := s.nextId])
            && (!s.assignsIds ==> r.outcome == Failure(BrandIdUndetermined(name)) && r.cache == cache)
  {
    var r := ResolveBrand(s, cache, name);
    assert r.store.brands == s.brands + [NewBrand(name, NewId(s))];
  }

  /** A successful call leaves `cache[name]` equal to the answer and every
      other entry as it was; a failed call leaves the whole cache alone. */
  lemma ResolveCacheUpdate(s: StoreState, cache: map<string, int>, name: string)
    ensures var r := ResolveBrand(s, cache, name);
            (r.outcome.Success? ==> r.cache == cache[name := r.outcome.value])
            && (r.outcome.Failure? ==> r.cache == cache && name !in cache)
  {
  }

  /** Asking again with the cache the first call left is a hit with the same
      answer, so repeated names never create a second brand. */
  lemma ResolveTwice(s: StoreState, cache: map<string, int>, name: string)
    ensures var r1 := ResolveBrand(s, cache, name);
            r1.outcome.Success? ==>
              ResolveBrand(r1.store, r1.cache, name) == Resolution(r1.outcome, r1.store, r1.cache)
  {
  }

  /** A resolution never removes or rewrites brand rows and never loses
      equipment records. */
  lemma ResolveOnlyAppends(s: StoreState, cache: map<string, int>, name: string)
    ensures var r := ResolveBrand(s, cache, name);
            && |s.brands| <= |r.store.brands| && r.store.brands[..|s.brands|] == s.brands
            && Items(r.store) == Items(s) && r.store.assignsIds == s.assignsIds
  {
  }

  /** Some row with exactly this name has this key. */
  ghost predicate NamedBrandHasId(brands: seq<Brand>, name: string, id: int)
  {
    exists i | 0 <= i < |brands| :: brands[i].name == name && brands[i].id == Some(id)
  }

  /** Every cached id belongs to a stored brand of that name. */
  ghost predicate CacheBacked(brands: seq<Brand>, cache: map<string, int>)
  {
    forall n | n in cache :: NamedBrandHasId(brands, n, cache[n])
  }

  lemma NamedBrandHasIdGrows(brands: seq<Brand>, more: seq<Brand>, name: string, id: int)
    requires NamedBrandHasId(brands, name, id)
    ensures NamedBrandHasId(brands + more, name, id)
  {
    var i :| 0 <= i < |brands| && brands[i].name == name && brands[i].id == Some(id);
    assert (brands + more)[i] == brands[i];
  }

  /** A resolution keeps every cache entry backed by a stored brand, and the
      id it answers is the key of a stored brand with the asked name. */
  lemma ResolveKeepsCacheBacked(s: StoreState, cache: map<string, int>, name: string)
    requires CacheBacked(s.brands, cache)
    ensures var r := ResolveBrand(s, cache, name);
            && CacheBacked(r.store.brands, r.cache)
            && (r.outcome.Success? ==> NamedBrandHasId(r.store.brands, name, r.outcome.value))
  {
    var r := ResolveBrand(s, cache, name);
    var more := r.store.brands[|s.brands|..];
    assert r.store.brands == s.brands + more;
    forall n | n in cache
      ensures NamedBrandHasId(r.store.brands, n, cache[n])
    {
      NamedBrandHasIdGrows(s.brands, more, n, cache[n]);
    }
    if r.outcome.Success? && name !in cache {
      var found := FindBrandId(s.brands, name);
      if found.None? {
        var last := |s.brands|;
        assert r.store.brands[last].name == name && r.store.brands[last].id == Some(r.outcome.value);
      } else {
        FindBrandIdFirst(s.brands, name);
        NamedBrandHasIdGrows(s.brands, more, name, r.outcome.value);
      }
    }
  }

  /** Every assigned key lies below the counter. */
  ghost predicate KeysBelowCounter(s: StoreState)
  {
    forall i | 0 <= i < |s.brands| :: s.brands[i].id.Some? ==> s.brands[i].id.value < s.nextId
  }

  /** A resolution keeps the counter ahead of every key, so a created brand's
      key differs from every key stored before. */
  lemma ResolveKeepsKeysFresh(s: StoreState, cache: map<string, int>, name: string)
    requires KeysBelowCounter(s)
    ensures var r := ResolveBrand(s, cache, name);
            && KeysBelowCounter(r.store)
            && s.nextId <= r.store.nextId
            && (|r.store.brands| > |s.brands| && s.assignsIds ==>
                  forall i | 0 <= i < |s.brands| :: s.brands[i].id != Some(s.nextId))
  {
  }

  /** A record without a "brand" key, or with None there, resolves under
      the literal name "None". */
  lemma MissingBrandIsNamedNone(item: map<string, Value>)
    requires "brand" !in item || item["brand"] == VNull
    ensures BrandName(item) == "None"
  {
  }
}
