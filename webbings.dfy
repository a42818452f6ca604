/** The webbing loader: its in-place cleaner, its fiber classifier and its
    batch step. */
module Webbings {
  import opened Wrappers
  import opened Text
  import opened Values
  import opened Catalog
  import opened Brands
  import opened Cleaning
  import opened Batch

  /** `clean_webbing_data`: the weblock rule, in place. */
  method CleanWebbingData(webbing: Dict) returns (cleaned: Dict)
    modifies webbing
    ensures cleaned == webbing
    ensures webbing.entries == Rewritten(old(webbing.entries), StringifyEntry)
  {
    cleaned := webbing;
    RewriteEach(webbing, StringifyEntry);
  }

  /** `get_material_type`. */
  function MaterialType(material: string): FiberMaterial
  {
    var m := Lower(material);
    if Contains(m, "pes/polyamid") then Hybrid
    else if Contains(m, "nylon") || Contains(m, "polyamid") then Nylon
    else if Contains(m, "polyester") || Contains(m, "pes") then Polyester
    else if Contains(m, "dyneema") then Dyneema
    else if Contains(m, "vectran") then Vectran
    else FiberMaterial.Other
  }

  function FiberRules(): seq<Rule<FiberMaterial>>
  {
    [Rule(["pes/polyamid"], Hybrid), Rule(["nylon", "polyamid"], Nylon),
     Rule(["polyester", "pes"], Polyester), Rule(["dyneema"], Dyneema),
     Rule(["vectran"], Vectran)]
  }

  lemma MaterialTypeIsFirstMatch(material: string)
    ensures MaterialType(material) == FirstMatch(FiberRules(), FiberMaterial.Other, Lower(material))
  {
    var m, rules := Lower(material), FiberRules();
    ContainsAnyOne(m, "pes/polyamid");
    ContainsAnyTwo(m, "nylon", "polyamid");
    ContainsAnyTwo(m, "polyester", "pes");
    ContainsAnyOne(m, "dyneema");
    ContainsAnyOne(m, "vectran");
    if Contains(m, "pes/polyamid") {
      FirstMatchIsFirst(rules, FiberMaterial.Other, m, 0);
    } else if Contains(m, "nylon") || Contains(m, "polyamid") {
      FirstMatchIsFirst(rules, FiberMaterial.Other, m, 1);
    } else if Contains(m, "polyester") || Contains(m, "pes") {
      FirstMatchIsFirst(rules, FiberMaterial.Other, m, 2);
    } else if Contains(m, "dyneema") {
      FirstMatchIsFirst(rules, FiberMaterial.Other, m, 3);
    } else if Contains(m, "vectran") {
      FirstMatchIsFirst(rules, FiberMaterial.Other, m, 4);
    } else {
      FirstMatchFallback(rules, FiberMaterial.Other, m);
    }
  }

  /** A hybrid text names both of its fibers: the hybrid row must come
      first, since the nylon and polyester rows would also match it. */
  lemma HybridShadowsItsParts(material: string)
    requires Contains(Lower(material), "pes/polyamid")
    ensures MaterialType(material) == Hybrid
    ensures Contains(Lower(material), "pes") && Contains(Lower(material), "polyamid")
  {
    ContainsWindow(Lower(material), "pes/polyamid", 0, 3);
    ContainsWindow(Lower(material), "pes/polyamid", 4, 12);
    assert "pes/polyamid"[0..3] == "pes";
    assert "pes/polyamid"[4..12] == "polyamid";
  }

  /** "polyamid" alone is nylon. */
  lemma PolyamidIsNylon()
    ensures MaterialType("Polyamid") == Nylon
  {
    assert Lower("Polyamid") == "polyamid";
    assert !Contains("polyamid", "pes/polyamid");
    assert Contains("polyamid", "polyamid");
  }

  /** Cleaning leaves the text of `materialType` as it was, so a cleaned
      webbing is classified like the raw one. */
  lemma CleaningKeepsMaterialText(webbing: map<string, Value>)
    ensures ToStr(Get(Rewritten(webbing, StringifyEntry), "materialType", VStr("")))
         == ToStr(Get(webbing, "materialType", VStr("")))
  {
  }

  /** The create-record of one webbing. */
  function WebbingCreateOf(webbing: map<string, Value>, brandId: int): WebbingCreate
  {
    WebbingCreate(
      ToStr(Get(webbing, "name", VNull)), brandId,
      MaterialType(ToStr(Get(webbing, "materialType", VStr("")))),
      Get(webbing, "width", VInt(0)), Get(webbing, "weight", VInt(0)),
      Get(webbing, "breakingStrength", VNull), Get(webbing, "stretch", VNull))
  }

  function BuildWebbing(webbing: map<string, Value>, brandId: int): Result<Item, LoadError>
  {
    Success(WebbingItem(WebbingCreateOf(webbing, brandId)))
  }

  /** Building never fails and keeps the brand id it is given. */
  lemma WebbingBuilderKeepsBrand()
    ensures KeepsBrand(BuildWebbing)
    ensures forall rec, id :: BuildWebbing(rec, id).Success?
  {
  }

  /** `add_webbings_to_db`: brands from the record's "brand" field. */
  method AddWebbingsToDb(webbings: seq<map<string, Value>>, session: Session) returns (outcome: Outcome)
    modifies session
    ensures (outcome, session.State()) == Load(BrandKey, BuildWebbing, RefreshLoopVariable, webbings, old(session.State()))
  {
    outcome := AddRecords(BrandModule, BrandKey, BuildWebbing, RefreshLoopVariable, webbings, session);
  }
}
