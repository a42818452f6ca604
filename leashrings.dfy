/** The leash-ring loader: its in-place cleaner and its batch step, which
    resolves brands from "manufacturer" and classifies the metal with the
    shared classifier. */
module LeashRings {
  import opened Wrappers
  import opened Values
  import opened Materials
  import opened Catalog
  import opened Brands
  import opened Cleaning
  import opened Batch

  /** Fields whose empty string the leash-ring cleaner keeps: "brand_id"
      where the grip cleaner has "manufacturer". */
  const LeashRingKeepsBlank: set<string> := {"name", "brand_id", "material", "isa_certified"}

  function LeashRingEntry(key: string, value: Value): Value
  {
    CertifiedEntry(LeashRingKeepsBlank, key, value)
  }

  /** `clean_leashring_data`: rewrites every entry in place. */
  method CleanLeashRingData(leashRing: Dict) returns (cleaned: Dict)
    modifies leashRing
    ensures cleaned == leashRing
    ensures leashRing.entries == Rewritten(old(leashRing.entries), LeashRingEntry)
  {
    cleaned := leashRing;
    RewriteEach(leashRing, LeashRingEntry);
  }

  /** An empty manufacturer is blanked to None by leash-ring cleaning, so
      the ring resolves under the brand name "None" (a grip keeps ""). */
  lemma EmptyManufacturerBecomesNone(leashRing: map<string, Value>)
    requires "manufacturer" in leashRing && leashRing["manufacturer"] == VStr("")
    ensures Rewritten(leashRing, LeashRingEntry)["manufacturer"] == VNull
    ensures NameOf(ManufacturerKey, Rewritten(leashRing, LeashRingEntry)) == "None"
  {
  }

  /** The create-record of one leash ring, or the currency lookup's failure. */
  function BuildLeashRing(getCurrency: CurrencyLookup, leashRing: map<string, Value>, brandId: int): Result<Item, LoadError>
  {
    match StrictCurrency(getCurrency, leashRing)
    case Failure(e) => Failure(e)
    case Success(currency) =>
      Success(LeashRingItem(LeashRingCreate(
        ToStr(Get(leashRing, "name", VNull)), brandId,
        GetMetalMaterial(MText(ToStr(Get(leashRing, "material", VStr(""))))),
        Get(leashRing, "inner_diameter", VNull), Get(leashRing, "outer_diameter", VNull),
        Get(leashRing, "weight", VNull), Get(leashRing, "breaking_strength", VNull),
        Get(leashRing, "isa_certified", VBool(false)), Get(leashRing, "price", VNull),
        currency, Get(leashRing, "notes", VNull))))
  }

  function LeashRingBuilder(getCurrency: CurrencyLookup): Builder
  {
    (leashRing, brandId) => BuildLeashRing(getCurrency, leashRing, brandId)
  }

  /** Building keeps the brand id, and fails exactly when a present
      currency is rejected by the lookup. */
  lemma LeashRingBuilderProperties(getCurrency: CurrencyLookup)
    ensures KeepsBrand(LeashRingBuilder(getCurrency))
    ensures forall leashRing, brandId :: LeashRingBuilder(getCurrency)(leashRing, brandId).Failure?
              <==> StrictCurrency(getCurrency, leashRing).Failure?
  {
  }

  /** A record without "isa_certified" is recorded as not certified. */
  lemma MissingCertificationIsFalse(getCurrency: CurrencyLookup, leashRing: map<string, Value>, brandId: int)
    requires "isa_certified" !in leashRing && StrictCurrency(getCurrency, leashRing).Success?
    ensures BuildLeashRing(getCurrency, leashRing, brandId).Success?
    ensures BuildLeashRing(getCurrency, leashRing, brandId).value.leashRing.isaCertified == VBool(false)
  {
  }

  /** `add_leashrings_to_db`. */
  method AddLeashRingsToDb(getCurrency: CurrencyLookup, leashRings: seq<map<string, Value>>, session: Session)
    returns (outcome: Outcome)
    modifies session
    ensures (outcome, session.State())
         == Load(ManufacturerKey, LeashRingBuilder(getCurrency), RefreshLoopVariable, leashRings, old(session.State()))
  {
    outcome := AddRecords(BrandModule, ManufacturerKey, LeashRingBuilder(getCurrency), RefreshLoopVariable, leashRings, session);
  }
}
