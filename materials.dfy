/** The metal-material enumeration and its free-text classifier, shared by
    the grip and leash-ring loaders. */
module Materials {
  import opened Text

  datatype MetalMaterial = Aluminum | Steel | StainlessSteel | Titanium | Other

  /** The annotation `str | list[str] | None` of the classifier's argument. */
  datatype MaterialInput = MText(text: string) | MList(items: seq<string>) | MNone

  /** Python's truth value of the argument: `None`, `""` and `[]` are false. */
  predicate MaterialGiven(material: MaterialInput)
  {
    match material
    case MText(s) => s != ""
    case MList(xs) => xs != []
    case MNone => false
  }

  /** `get_metal_material`: empty inputs give Other, a list is judged by its
      first item, and a text by its lower-cased keywords. */
  function GetMetalMaterial(material: MaterialInput): MetalMaterial
  {
    if !MaterialGiven(material) then Other
    else
      var materialStr := if material.MList? then material.items[0] else material.text;
      MetalOfText(materialStr)
  }

  /** The keyword chain applied to one material text. */
  function MetalOfText(materialStr: string): MetalMaterial
  {
    var m := Lower(materialStr);
    if Contains(m, "aluminum") then Aluminum
    else if Contains(m, "stainless") then StainlessSteel
    else if Contains(m, "steel") then Steel
    else if Contains(m, "titanium") then Titanium
    else Other
  }

  /** The classifier's keyword table, row by row in the order it tests them. */
  function MetalRules(): seq<Rule<MetalMaterial>>
  {
    [Rule(["aluminum"], Aluminum), Rule(["stainless"], StainlessSteel),
     Rule(["steel"], Steel), Rule(["titanium"], Titanium)]
  }

  /** The if/elif chain is the first-match walk of its keyword table. */
  lemma MetalOfTextIsFirstMatch(materialStr: string)
    ensures MetalOfText(materialStr) == FirstMatch(MetalRules(), Other, Lower(materialStr))
  {
    var m, rules := Lower(materialStr), MetalRules();
    ContainsAnyOne(m, "aluminum");
    ContainsAnyOne(m, "stainless");
    ContainsAnyOne(m, "steel");
    ContainsAnyOne(m, "titanium");
    if Contains(m, "aluminum") {
      FirstMatchIsFirst(rules, Other, m, 0);
    } else if Contains(m, "stainless") {
      FirstMatchIsFirst(rules, Other, m, 1);
    } else if Contains(m, "steel") {
      FirstMatchIsFirst(rules, Other, m, 2);
    } else if Contains(m, "titanium") {
      FirstMatchIsFirst(rules, Other, m, 3);
    } else {
      FirstMatchFallback(rules, Other, m);
    }
  }

  /** None, the empty string and the empty list all give Other. */
  lemma EmptyMaterialIsOther()
    ensures GetMetalMaterial(MNone) == Other
    ensures GetMetalMaterial(MText("")) == Other
    ensures GetMetalMaterial(MList([])) == Other
  {
  }

  /** Only the first item of a non-empty list decides; the rest is ignored. */
  lemma ListUsesFirstItem(xs: seq<string>, rest: seq<string>)
    requires xs != []
    ensures GetMetalMaterial(MList(xs)) == GetMetalMaterial(MText(xs[0]))
    ensures GetMetalMaterial(MList(xs)) == GetMetalMaterial(MList([xs[0]] + rest))
  {
  }

  /** The classifier ignores letter case. */
  lemma MetalIgnoresCase(s: string)
    ensures GetMetalMaterial(MText(s)) == GetMetalMaterial(MText(Lower(s)))
    ensures GetMetalMaterial(MText(s)) == GetMetalMaterial(MText(Upper(s)))
  {
    LowerIdempotent(s);
    LowerOfUpper(s);
  }

  /** The order of the tests decides: aluminum beats everything, stainless
      needs no "steel", steel and titanium only count when nothing earlier
      matched, and Other means no keyword at all. */
  lemma MetalPriority(s: string)
    ensures Contains(Lower(s), "aluminum") ==> GetMetalMaterial(MText(s)) == Aluminum
    ensures !Contains(Lower(s), "aluminum") && Contains(Lower(s), "stainless")
            ==> GetMetalMaterial(MText(s)) == StainlessSteel
    ensures GetMetalMaterial(MText(s)) == Steel <==>
            !Contains(Lower(s), "aluminum") && !Contains(Lower(s), "stainless") && Contains(Lower(s), "steel")
    ensures GetMetalMaterial(MText(s)) == Titanium <==>
            !Contains(Lower(s), "aluminum") && !Contains(Lower(s), "stainless")
            && !Contains(Lower(s), "steel") && Contains(Lower(s), "titanium")
    ensures GetMetalMaterial(MText(s)) == Other <==>
            !Contains(Lower(s), "aluminum") && !Contains(Lower(s), "stainless")
            && !Contains(Lower(s), "steel") && !Contains(Lower(s), "titanium")
  {
  }

  /** "aluminum/steel" is aluminum, though it also names steel. */
  lemma AluminumSteelIsAluminum()
    ensures GetMetalMaterial(MText("Aluminum/Steel")) == Aluminum
  {
    assert Lower("Aluminum/Steel") == "aluminum/steel";
    assert Contains("aluminum/steel", "aluminum");
  }

  /** A bare "stainless" is stainless steel. */
  lemma BareStainlessIsStainlessSteel()
    ensures GetMetalMaterial(MText("stainless")) == StainlessSteel
  {
    assert Lower("stainless") == "stainless";
    assert !Contains("stainless", "aluminum");
    assert Contains("stainless", "stainless");
  }

  /** The first item of a list wins even when a later one names aluminum. */
  lemma FirstListItemWins()
    ensures GetMetalMaterial(MList(["Stainless Steel", "Aluminum"])) == StainlessSteel
  {
    assert Lower("Stainless Steel") == "stainless steel";
    assert !Contains("stainless steel", "aluminum");
    assert Contains("stainless steel", "stainless");
  }

  /** An unknown alloy falls back to Other. */
  lemma UnknownAlloyIsOther()
    ensures GetMetalMaterial(MText("unknown-alloy")) == Other
  {
    assert Lower("unknown-alloy") == "unknown-alloy";
    assert !Contains("unknown-alloy", "aluminum");
    assert !Contains("unknown-alloy", "stainless");
    assert !Contains("unknown-alloy", "steel");
    assert !Contains("unknown-alloy", "titanium");
  }
}
