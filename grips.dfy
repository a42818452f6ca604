/** The grip loader: its in-place cleaner, its connection classifier and its
    batch step, which resolves brands from "manufacturer". */
module Grips {
  import opened Wrappers
  import opened Text
  import opened Values
  import opened Materials
  import opened Catalog
  import opened Brands
  import opened Cleaning
  import opened Batch

  /** Fields whose empty string the grip cleaner keeps. */
  const GripKeepsBlank: set<string> := {"name", "manufacturer", "material", "isa_certified"}

  function GripEntry(key: string, value: Value): Value
  {
    CertifiedEntry(GripKeepsBlank, key, value)
  }

  /** `clean_grip_data`: rewrites every entry in place. */
  method CleanGripData(grip: Dict) returns (cleaned: Dict)
    modifies grip
    ensures cleaned == grip
    ensures grip.entries == Rewritten(old(grip.entries), GripEntry)
  {
    cleaned := grip;
    RewriteEach(grip, GripEntry);
  }

  /** `get_connection_type`. */
  function ConnectionTypeOf(connectionType: string): ConnectionType
  {
    var c := Lower(connectionType);
    if Contains(c, "dyneema sling loop") then DyneemaSlingLoop
    else if Contains(c, "mounting hole") then MountingHole
    else ConnectionType.Other
  }

  function ConnectionRules(): seq<Rule<ConnectionType>>
  {
    [Rule(["dyneema sling loop"], DyneemaSlingLoop), Rule(["mounting hole"], MountingHole)]
  }

  lemma ConnectionTypeIsFirstMatch(connectionType: string)
    ensures ConnectionTypeOf(connectionType) == FirstMatch(ConnectionRules(), ConnectionType.Other, Lower(connectionType))
  {
    var c, rules := Lower(connectionType), ConnectionRules();
    ContainsAnyOne(c, "dyneema sling loop");
    ContainsAnyOne(c, "mounting hole");
    if Contains(c, "dyneema sling loop") {
      FirstMatchIsFirst(rules, ConnectionType.Other, c, 0);
    } else if Contains(c, "mounting hole") {
      FirstMatchIsFirst(rules, ConnectionType.Other, c, 1);
    } else {
      FirstMatchFallback(rules, ConnectionType.Other, c);
    }
  }

  /** A bare "sling" is not a sling loop: only the whole phrase counts. */
  lemma BareSlingIsOther()
    ensures ConnectionTypeOf("Sling") == ConnectionType.Other
  {
    assert Lower("Sling") == "sling";
    assert !Contains("sling", "dyneema sling loop");
    assert !Contains("sling", "mounting hole");
  }

  /** An empty manufacturer survives grip cleaning, so the grip resolves
      under the empty brand name. */
  lemma EmptyManufacturerStaysEmpty(grip: map<string, Value>)
    requires "manufacturer" in grip && grip["manufacturer"] == VStr("")
    ensures NameOf(ManufacturerKey, Rewritten(grip, GripEntry)) == ""
  {
  }

  /** A list-valued material is turned into the text of the list, and the
      shared classifier then sees every item: one item naming aluminum, in
      any position, makes the grip aluminum. */
  lemma CleanedMaterialListAnyAluminum(xs: seq<Value>, j: int)
    requires 0 <= j < |xs| && xs[j].VStr? && Contains(Lower(xs[j].str), "aluminum")
    ensures GripEntry("material", VList(xs)) == VStr(ToStr(VList(xs)))
    ensures GetMetalMaterial(MText(ToStr(GripEntry("material", VList(xs))))) == Aluminum
  {
    var a, b := StringItemInListText(xs, j);
    var t := ToStr(VList(xs));
    LowerConcat(a + xs[j].str, b);
    LowerConcat(a, xs[j].str);
    ContainsInConcat(Lower(a), Lower(xs[j].str), Lower(b), "aluminum");
    assert Lower(t) == Lower(a) + Lower(xs[j].str) + Lower(b);
    assert t != "" by {
      assert |Lower(t)| == |t|;
      assert |Lower(xs[j].str)| == |xs[j].str|;
      ContainsIffOccurs(Lower(xs[j].str), "aluminum");
    }
  }

  /** So a cleaned grip listing stainless steel before aluminum is aluminum,
      where the classifier's own list handling would pick the first item. */
  lemma GripListIsNotFirstItem()
    ensures GetMetalMaterial(MText(ToStr(GripEntry("material", VList([VStr("Stainless Steel"), VStr("Aluminum")]))))) == Aluminum
    ensures GetMetalMaterial(MList(["Stainless Steel", "Aluminum"])) == StainlessSteel
  {
    var xs := [VStr("Stainless Steel"), VStr("Aluminum")];
    assert Lower("Aluminum") == "aluminum";
    assert Contains("aluminum", "aluminum");
    CleanedMaterialListAnyAluminum(xs, 1);
    FirstListItemWins();
  }

  /** The create-record of one grip, or the currency lookup's failure. */
  function BuildGrip(getCurrency: CurrencyLookup, grip: map<string, Value>, brandId: int): Result<Item, LoadError>
  {
    match StrictCurrency(getCurrency, grip)
    case Failure(e) => Failure(e)
    case Success(currency) =>
      Success(GripItem(GripCreate(
        ToStr(Get(grip, "name", VNull)), brandId,
        Get(grip, "date_introduced", VNull), Get(grip, "product_url", VNull),
        GetMetalMaterial(MText(ToStr(Get(grip, "material", VStr(""))))),
        Get(grip, "width_min", VInt(0)), Get(grip, "width_max", VNull),
        Get(grip, "weight", VNull), Get(grip, "wll", VNull), Get(grip, "mbs", VNull),
        Get(grip, "common_slipping_threshold", VNull),
        ConnectionTypeOf(ToStr(Get(grip, "connection_type", VStr("")))),
        Get(grip, "isa_certified", VBool(false)), Get(grip, "price", VNull), currency)))
  }

  function GripBuilder(getCurrency: CurrencyLookup): Builder
  {
    (grip, brandId) => BuildGrip(getCurrency, grip, brandId)
  }

  /** Building keeps the brand id, and fails exactly when a present
      currency is rejected by the lookup. */
  lemma GripBuilderProperties(getCurrency: CurrencyLookup)
    ensures KeepsBrand(GripBuilder(getCurrency))
    ensures forall grip, brandId :: GripBuilder(getCurrency)(grip, brandId).Failure?
              <==> StrictCurrency(getCurrency, grip).Failure?
  {
  }

  /** `add_grips_to_db`. */
  method AddGripsToDb(getCurrency: CurrencyLookup, grips: seq<map<string, Value>>, session: Session)
    returns (outcome: Outcome)
    modifies session
    ensures (outcome, session.State())
         == Load(ManufacturerKey, GripBuilder(getCurrency), RefreshLoopVariable, grips, old(session.State()))
  {
    outcome := AddRecords(BrandModule, ManufacturerKey, GripBuilder(getCurrency), RefreshLoopVariable, grips, session);
  }
}
