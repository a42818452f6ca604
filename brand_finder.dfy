/** The brand-finding utility, a line-for-line copy of the brand module's
    resolver that the weblock loader imports instead. */
module BrandFinder {
  import opened Wrappers
  import opened Values
  import opened Catalog
  import Brands

  /** `get_brand` of the utility: the same resolution as the brand module's. */
  method GetBrand(session: Brands.Session, brandCache: Brands.BrandCache, item: map<string, Value>)
    returns (brandId: Result<int, LoadError>, cacheOut: Brands.BrandCache)
    modifies session, brandCache
    ensures cacheOut == brandCache
    ensures var res := Brands.ResolveBrand(old(session.State()), old(brandCache.entries), Brands.BrandName(item));
            brandId == res.outcome && session.State() == res.store && brandCache.entries == res.cache
  {
    brandId, cacheOut := Brands.GetBrand(session, brandCache, item);
  }
}
