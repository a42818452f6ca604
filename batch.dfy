/** The batch step every loader shares (`add_*_to_db`): a fresh brand
    cache, then for each record in order its brand is resolved, its
    create-record built and staged; one commit at the end, then a refresh
    of the last record. */
module Batch {
  import opened Wrappers
  import opened Values
  import opened Catalog
  import opened Brands
  import BrandFinder

  /** Where a loader reads the brand name: the record's own "brand" field
      (weblocks, webbings), or its "manufacturer" copied into a one-entry
      dict under "brand" (everything else). */
  datatype BrandSource = BrandKey | ManufacturerKey

  function BrandItem(src: BrandSource, rec: map<string, Value>): map<string, Value>
  {
    match src
    case BrandKey => rec
    case ManufacturerKey => map["brand" := Get(rec, "manufacturer", VNull)]
  }

  /** The brand name a record resolves under. */
  function NameOf(src: BrandSource, rec: map<string, Value>): string
  {
    BrandName(BrandItem(src, rec))
  }

  /** A manufacturer-keyed record resolves under `str(manufacturer)`. */
  lemma ManufacturerName(rec: map<string, Value>)
    ensures NameOf(ManufacturerKey, rec) == ToStr(Get(rec, "manufacturer", VNull))
  {
  }

  /** Builds one create-record from a record and its brand id; a Failure is
      an exception raised while building (a currency lookup). */
  type Builder = (map<string, Value>, int) -> Result<Item, LoadError>

  /** Every record a builder produces carries the brand id it was given. */
  ghost predicate KeepsBrand(build: Builder)
  {
    forall rec, id | build(rec, id).Success? :: BrandIdOf(build(rec, id).value) == id
  }

  /** Which copy of `get_brand` a loader imports: the brand module's, or the
      brand-finding utility's (weblocks). */
  datatype Resolver = BrandModule | BrandFinderUtility

  /** How the post-loop refresh names its record: the loop variable, which
      is unbound after an empty loop, or a `last` variable set to None
      before the loop. Whether the store's `refresh(None)` raises is a
      property of the database library, so it is a parameter. */
  datatype Refresh = RefreshLoopVariable | RefreshLast(noneRaises: bool)

  datatype Outcome = Pass | Fail(error: LoadError)

  datatype BatchRun = BatchRun(outcome: Outcome, store: StoreState, cache: map<string, int>, last: Option<Item>)

  /** What one iteration leaves: the exception it raised, if any, the
      store and the cache, and the record it staged. */
  datatype Step = Step(failure: Option<LoadError>, store: StoreState, cache: map<string, int>, staged: Option<Item>)

  /** One iteration: resolve the brand, build the record, stage it. */
  function StepRecord(src: BrandSource, build: Builder, rec: map<string, Value>,
                      s: StoreState, cache: map<string, int>): Step
  {
    var r := ResolveBrand(s, cache, NameOf(src, rec));
    match r.outcome
    case Failure(e) => Step(Some(e), r.store, r.cache, None)
    case Success(id) =>
      match build(rec, id)
      case Failure(e) => Step(Some(e), r.store, r.cache, None)
      case Success(item) => Step(None, Stage(r.store, item), r.cache, Some(item))
  }

  /** The loop over the records, from a given store, cache and last record. */
  function Run(src: BrandSource, build: Builder, recs: seq<map<string, Value>>,
               s: StoreState, cache: map<string, int>, last: Option<Item>): BatchRun
    decreases |recs|
  {
    if recs == [] then BatchRun(Pass, s, cache, last)
    else
      var st := StepRecord(src, build, recs[0], s, cache);
      if st.failure.Some? then BatchRun(Fail(st.failure.value), st.store, st.cache, last)
      else Run(src, build, recs[1..], st.store, st.cache, st.staged)
  }

  /** The whole batch: the loop from an empty cache; if it finished, the
      commit and then the refresh, which fails for an unbound loop variable.
      An exception inside the loop skips the commit. */
  function Load(src: BrandSource, build: Builder, refresh: Refresh,
                recs: seq<map<string, Value>>, s: StoreState): (Outcome, StoreState)
  {
    var r := Run(src, build, recs, s, map[], None);
    if r.outcome.Fail? then (r.outcome, r.store)
    else if recs == [] && refresh == RefreshLoopVariable then (Fail(UnboundLoopVariable), Commit(r.store))
    else if recs == [] && refresh == RefreshLast(true) then (Fail(RefreshOfNone), Commit(r.store))
    else (Pass, Commit(r.store))
  }

  /** One iteration of `add_*_to_db`: `get_brand`, the create-record,
      `session.add`. */
  method AddRecord(resolver: Resolver, src: BrandSource, build: Builder, rec: map<string, Value>,
                   session: Session, brandCache: BrandCache)
    returns (failure: Option<LoadError>, staged: Option<Item>, cacheOut: BrandCache)
    modifies session, brandCache
    ensures cacheOut == brandCache
    ensures Step(failure, session.State(), brandCache.entries, staged)
         == StepRecord(src, build, rec, old(session.State()), old(brandCache.entries))
  {
    var brandId;
    if resolver == BrandFinderUtility {
      brandId, cacheOut := BrandFinder.GetBrand(session, brandCache, BrandItem(src, rec));
    } else {
      brandId, cacheOut := GetBrand(session, brandCache, BrandItem(src, rec));
    }
    if brandId.Failure? {
      return Some(brandId.error), None, cacheOut;
    }
    var created := build(rec, brandId.value);
    if created.Failure? {
      return Some(created.error), None, cacheOut;
    }
    session.Add(created.value);
    return None, Some(created.value), cacheOut;
  }

  /** The `for` loop of `add_*_to_db`, from a fresh brand cache: brands
      resolved by `resolver` under the name `src` says, records built by
      `build`. It reports whether the loop finished and the loop variable's
      last record. */
  method RunRecords(resolver: Resolver, src: BrandSource, build: Builder,
                    records: seq<map<string, Value>>, session: Session)
    returns (outcome: Outcome, last: Option<Item>)
    modifies session
    ensures var r := Run(src, build, records, old(session.State()), map[], None);
            outcome == r.outcome && session.State() == r.store && last == r.last
    ensures outcome.Pass? ==> (last == None <==> records == [])
  {
    ghost var s0 := session.State();
    var brandCache := new BrandCache();
    last := None;
    var i := 0;
    while i < |records|
      invariant 0 <= i <= |records|
      invariant fresh(brandCache)
      invariant (i == 0) == (last == None)
      invariant Run(src, build, records, s0, map[], None)
             == Run(src, build, records[i..], session.State(), brandCache.entries, last)
    {
      assert records[i..][0] == records[i] && records[i..][1..] == records[i + 1..];
      var failure, staged;
      failure, staged, brandCache := AddRecord(resolver, src, build, records[i], session, brandCache);
      if failure.Some? {
        return Fail(failure.value), last;
      }
      last := staged;
      i := i + 1;
    }
    return Pass, last;
  }

  /** `add_*_to_db`: the loop, then one commit and the refresh of the loop's
      last record. */
  method AddRecords(resolver: Resolver, src: BrandSource, build: Builder, refresh: Refresh,
                    records: seq<map<string, Value>>, session: Session)
    returns (outcome: Outcome)
    modifies session
    ensures (outcome, session.State()) == Load(src, build, refresh, records, old(session.State()))
  {
    var last;
    outcome, last := RunRecords(resolver, src, build, records, session);
    if outcome.Fail? {
      return;
    }
    session.CommitAll();
    if last == None && refresh == RefreshLoopVariable {
      return Fail(UnboundLoopVariable);
    }
    if last == None && refresh == RefreshLast(true) {
      return Fail(RefreshOfNone);
    }
    return Pass;
  }

  // ---------------------------------------------------------------------
  // What a batch promises.

  /** The cache only grows: an entry, once made, keeps its id. */
  lemma {:induction false} RunExtendsCache(src: BrandSource, build: Builder, recs: seq<map<string, Value>>,
                                           s: StoreState, cache: map<string, int>, last: Option<Item>)
    ensures var r := Run(src, build, recs, s, cache, last);
            forall n | n in cache :: n in r.cache && r.cache[n] == cache[n]
    decreases |recs|
  {
    if recs != [] {
      var st := StepRecord(src, build, recs[0], s, cache);
      ResolveCacheUpdate(s, cache, NameOf(src, recs[0]));
      assert forall n | n in cache :: n in st.cache && st.cache[n] == cache[n];
      if st.failure.None? {
        RunExtendsCache(src, build, recs[1..], st.store, st.cache, st.staged);
      }
    }
  }

  /** A batch that finishes has staged exactly one record per input, in
      order, after everything the session already held, each built with the
      id the final cache holds for its brand name. */
  lemma {:induction false} RunStagesEveryRecord(src: BrandSource, build: Builder, recs: seq<map<string, Value>>,
                                                s: StoreState, cache: map<string, int>, last: Option<Item>)
    ensures var r := Run(src, build, recs, s, cache, last);
            r.outcome.Pass? ==>
              && |Items(r.store)| == |Items(s)| + |recs|
              && Items(r.store)[..|Items(s)|] == Items(s)
              && forall j | 0 <= j < |recs| ::
                   NameOf(src, recs[j]) in r.cache
                   && build(recs[j], r.cache[NameOf(src, recs[j])]) == Success(Items(r.store)[|Items(s)| + j])
    decreases |recs|
  {
    if recs != [] {
      var name := NameOf(src, recs[0]);
      var r1 := ResolveBrand(s, cache, name);
      ResolveCacheUpdate(s, cache, name);
      ResolveOnlyAppends(s, cache, name);
      if r1.outcome.Success? && build(recs[0], r1.outcome.value).Success? {
        var item := build(recs[0], r1.outcome.value).value;
        var s1 := Stage(r1.store, item);
        RunStagesEveryRecord(src, build, recs[1..], s1, r1.cache, Some(item));
        RunExtendsCache(src, build, recs[1..], s1, r1.cache, Some(item));
        var r := Run(src, build, recs, s, cache, last);
        assert r == Run(src, build, recs[1..], s1, r1.cache, Some(item));
        if r.outcome.Pass? {
          assert Items(s1) == Items(s) + [item];
          assert Items(r.store)[..|Items(s1)|] == Items(s1);
          assert Items(r.store)[..|Items(s)|] == Items(s1)[..|Items(s)|];
          forall j | 0 <= j < |recs|
            ensures NameOf(src, recs[j]) in r.cache
            ensures build(recs[j], r.cache[NameOf(src, recs[j])]) == Success(Items(r.store)[|Items(s)| + j])
          {
            if j == 0 {
              assert Items(r.store)[|Items(s)|] == Items(s1)[|Items(s)|];
            } else {
              assert recs[j] == recs[1..][j - 1];
            }
          }
        }
      }
    }
  }

  /** The last record is the final one staged, or the one given if nothing
      was staged. */
  lemma {:induction false} RunLastIsFinal(src: BrandSource, build: Builder, recs: seq<map<string, Value>>,
                                          s: StoreState, cache: map<string, int>, last: Option<Item>)
    ensures var r := Run(src, build, recs, s, cache, last);
            r.outcome.Pass? ==>
              (recs == [] ==> r.last == last)
              && (recs != [] ==> r.last.Some? && |Items(r.store)| > 0 && r.last.value == Items(r.store)[|Items(r.store)| - 1])
    decreases |recs|
  {
    if recs != [] {
      var r1 := ResolveBrand(s, cache, NameOf(src, recs[0]));
      if r1.outcome.Success? && build(recs[0], r1.outcome.value).Success? {
        var item := build(recs[0], r1.outcome.value).value;
        var s1 := Stage(r1.store, item);
        RunLastIsFinal(src, build, recs[1..], s1, r1.cache, Some(item));
        if recs[1..] == [] {
          assert Items(s1) == Items(r1.store) + [item];
        }
      }
    }
  }

  /** The rows a batch appends to the brand table have pairwise different
      names, none of them a name the starting cache knew: a name creates at
      most one brand per batch. */
  lemma {:induction false} RunCreatesEachNameOnce(src: BrandSource, build: Builder, recs: seq<map<string, Value>>,
                                                  s: StoreState, cache: map<string, int>, last: Option<Item>)
    ensures var r := Run(src, build, recs, s, cache, last);
            && |s.brands| <= |r.store.brands| && r.store.brands[..|s.brands|] == s.brands
            && (forall i | |s.brands| <= i < |r.store.brands| :: r.store.brands[i].name !in cache)
            && (forall i, j | |s.brands| <= i < j < |r.store.brands| :: r.store.brands[i].name != r.store.brands[j].name)
    decreases |recs|
  {
    var r := Run(src, build, recs, s, cache, last);
    if recs != [] {
      var name := NameOf(src, recs[0]);
      var r1 := ResolveBrand(s, cache, name);
      ResolveOnlyAppends(s, cache, name);
      ResolveCacheUpdate(s, cache, name);
      assert |r1.store.brands| <= |s.brands| + 1;
      assert |r1.store.brands| == |s.brands| + 1 ==> name !in cache && r1.store.brands[|s.brands|].name == name;
      if r1.outcome.Success? && build(recs[0], r1.outcome.value).Success? {
        var item := build(recs[0], r1.outcome.value).value;
        var s1 := Stage(r1.store, item);
        RunCreatesEachNameOnce(src, build, recs[1..], s1, r1.cache, Some(item));
        assert r == Run(src, build, recs[1..], s1, r1.cache, Some(item));
        assert name in r1.cache;
        assert forall n | n in cache :: n in r1.cache;
        forall i | |s.brands| <= i < |r.store.brands|
          ensures r.store.brands[i].name !in cache
        {
          if i >= |s1.brands| {
            assert r.store.brands[i].name !in r1.cache;
          } else {
            assert r.store.brands[i] == r1.store.brands[i];
          }
        }
        forall i, j | |s.brands| <= i < j < |r.store.brands|
          ensures r.store.brands[i].name != r.store.brands[j].name
        {
          if i < |s1.brands| {
            assert r.store.brands[i] == r1.store.brands[i];
            assert r.store.brands[i].name == name;
            assert r.store.brands[j].name !in r1.cache;
          }
        }
      }
    }
  }

  /** Starting from a cache backed by stored brands (the empty cache of a
      fresh batch is), every cache entry stays backed, so every record a
      finished batch staged has a stored brand with its brand id. */
  lemma {:induction false} RunKeepsCacheBacked(src: BrandSource, build: Builder, recs: seq<map<string, Value>>,
                                               s: StoreState, cache: map<string, int>, last: Option<Item>)
    requires CacheBacked(s.brands, cache)
    ensures CacheBacked(Run(src, build, recs, s, cache, last).store.brands, Run(src, build, recs, s, cache, last).cache)
    decreases |recs|
  {
    if recs != [] {
      var r1 := ResolveBrand(s, cache, NameOf(src, recs[0]));
      ResolveKeepsCacheBacked(s, cache, NameOf(src, recs[0]));
      if r1.outcome.Success? && build(recs[0], r1.outcome.value).Success? {
        var item := build(recs[0], r1.outcome.value).value;
        RunKeepsCacheBacked(src, build, recs[1..], Stage(r1.store, item), r1.cache, Some(item));
      }
    }
  }

  /** No orphan records: when the builder keeps the brand id it is given,
      every record a finished batch staged points at a stored brand. */
  lemma NoOrphanRecords(src: BrandSource, build: Builder, recs: seq<map<string, Value>>, s: StoreState)
    requires KeepsBrand(build)
    ensures var r := Run(src, build, recs, s, map[], None);
            r.outcome.Pass? ==>
              forall j | 0 <= j < |recs| ::
                |Items(s)| + j < |Items(r.store)|
                && NamedBrandHasId(r.store.brands, NameOf(src, recs[j]), BrandIdOf(Items(r.store)[|Items(s)| + j]))
  {
    var r := Run(src, build, recs, s, map[], None);
    RunStagesEveryRecord(src, build, recs, s, map[], None);
    RunKeepsCacheBacked(src, build, recs, s, map[], None);
    if r.outcome.Pass? {
      forall j | 0 <= j < |recs|
        ensures |Items(s)| + j < |Items(r.store)|
        ensures NamedBrandHasId(r.store.brands, NameOf(src, recs[j]), BrandIdOf(Items(r.store)[|Items(s)| + j]))
      {
        var n := NameOf(src, recs[j]);
        assert build(recs[j], r.cache[n]) == Success(Items(r.store)[|Items(s)| + j]);
      }
    }
  }

  /** An empty batch commits and then fails on the unbound loop variable;
      the `last` variant commits and then passes or fails as the store's
      `refresh(None)` does. */
  lemma EmptyBatch(src: BrandSource, build: Builder, s: StoreState)
    ensures Load(src, build, RefreshLoopVariable, [], s) == (Fail(UnboundLoopVariable), Commit(s))
    ensures Load(src, build, RefreshLast(false), [], s) == (Pass, Commit(s))
    ensures Load(src, build, RefreshLast(true), [], s) == (Fail(RefreshOfNone), Commit(s))
  {
  }

  /** A batch that finishes commits everything: nothing stays pending. */
  lemma LoadCommitsOnPass(src: BrandSource, build: Builder, refresh: Refresh,
                          recs: seq<map<string, Value>>, s: StoreState)
    ensures var (outcome, s') := Load(src, build, refresh, recs, s);
            outcome.Pass? ==> s'.pending == [] && |Items(s')| == |Items(s)| + |recs|
  {
    RunStagesEveryRecord(src, build, recs, s, map[], None);
  }
}
