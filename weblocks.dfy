/** The weblock loader: its in-place cleaner, its own metal classifier and
    the front-pin and attachment-point classifiers, and its batch step. */
module Weblocks {
  import opened Wrappers
  import opened Text
  import opened Values
  import opened Materials
  import opened Catalog
  import opened Brands
  import opened Cleaning
  import opened Batch

  /** `clean_weblock_data`: rewrites every entry of the dict it is given
      and answers that same dict. */
  method CleanWeblockData(weblock: Dict) returns (cleaned: Dict)
    modifies weblock
    ensures cleaned == weblock
    ensures weblock.entries == Rewritten(old(weblock.entries), StringifyEntry)
  {
    cleaned := weblock;
    RewriteEach(weblock, StringifyEntry);
  }

  /** The loader's own metal classifier, which asks for "stainless steel"
      where the shared one asks for "stainless". */
  function WeblockMetal(material: string): MetalMaterial
  {
    var m := Lower(material);
    if Contains(m, "aluminum") then Aluminum
    else if Contains(m, "stainless steel") then StainlessSteel
    else if Contains(m, "steel") then Steel
    else if Contains(m, "titanium") then Titanium
    else MetalMaterial.Other
  }

  function WeblockMetalRules(): seq<Rule<MetalMaterial>>
  {
    [Rule(["aluminum"], Aluminum), Rule(["stainless steel"], StainlessSteel),
     Rule(["steel"], Steel), Rule(["titanium"], Titanium)]
  }

  lemma WeblockMetalIsFirstMatch(material: string)
    ensures WeblockMetal(material) == FirstMatch(WeblockMetalRules(), MetalMaterial.Other, Lower(material))
  {
    var m, rules := Lower(material), WeblockMetalRules();
    ContainsAnyOne(m, "aluminum");
    ContainsAnyOne(m, "stainless steel");
    ContainsAnyOne(m, "steel");
    ContainsAnyOne(m, "titanium");
    if Contains(m, "aluminum") {
      FirstMatchIsFirst(rules, MetalMaterial.Other, m, 0);
    } else if Contains(m, "stainless steel") {
      FirstMatchIsFirst(rules, MetalMaterial.Other, m, 1);
    } else if Contains(m, "steel") {
      FirstMatchIsFirst(rules, MetalMaterial.Other, m, 2);
    } else if Contains(m, "titanium") {
      FirstMatchIsFirst(rules, MetalMaterial.Other, m, 3);
    } else {
      FirstMatchFallback(rules, MetalMaterial.Other, m);
    }
  }

  /** The two metal classifiers disagree exactly on texts that name
      "stainless" without "stainless steel" and without "aluminum"; there
      the shared one says stainless steel. */
  lemma WeblockMetalVersusShared(material: string)
    ensures WeblockMetal(material) == MetalOfText(material) <==>
            Contains(Lower(material), "aluminum") || !Contains(Lower(material), "stainless")
            || Contains(Lower(material), "stainless steel")
    ensures WeblockMetal(material) != MetalOfText(material) ==> MetalOfText(material) == StainlessSteel
  {
    var m := Lower(material);
    if Contains(m, "stainless steel") {
      ContainsWindow(m, "stainless steel", 0, 9);
      assert "stainless steel"[0..9] == "stainless";
    }
  }

  /** A bare "Stainless" is Other here, stainless steel for the shared one. */
  lemma BareStainlessDiffers()
    ensures WeblockMetal("Stainless") == MetalMaterial.Other
    ensures MetalOfText("Stainless") == StainlessSteel
  {
    assert Lower("Stainless") == "stainless";
    assert !Contains("stainless", "aluminum");
    assert !Contains("stainless", "steel");
    assert !Contains("stainless", "titanium");
    assert Contains("stainless", "stainless");
  }

  /** `get_front_pin_type`. */
  function FrontPinType(pinType: string): FrontPin
  {
    var p := Lower(pinType);
    if Contains(p, "push") then PushPin
    else if Contains(p, "pull") then PullPin
    else if Contains(p, "captive") then CaptivePin
    else if Contains(p, "fixed") then FixedBolt
    else FrontPin.Other
  }

  function FrontPinRules(): seq<Rule<FrontPin>>
  {
    [Rule(["push"], PushPin), Rule(["pull"], PullPin),
     Rule(["captive"], CaptivePin), Rule(["fixed"], FixedBolt)]
  }

  lemma FrontPinIsFirstMatch(pinType: string)
    ensures FrontPinType(pinType) == FirstMatch(FrontPinRules(), FrontPin.Other, Lower(pinType))
  {
    var p, rules := Lower(pinType), FrontPinRules();
    ContainsAnyOne(p, "push");
    ContainsAnyOne(p, "pull");
    ContainsAnyOne(p, "captive");
    ContainsAnyOne(p, "fixed");
    if Contains(p, "push") {
      FirstMatchIsFirst(rules, FrontPin.Other, p, 0);
    } else if Contains(p, "pull") {
      FirstMatchIsFirst(rules, FrontPin.Other, p, 1);
    } else if Contains(p, "captive") {
      FirstMatchIsFirst(rules, FrontPin.Other, p, 2);
    } else if Contains(p, "fixed") {
      FirstMatchIsFirst(rules, FrontPin.Other, p, 3);
    } else {
      FirstMatchFallback(rules, FrontPin.Other, p);
    }
  }

  /** "push" wins over "pull" when a text names both. */
  lemma PushBeatsPull()
    ensures FrontPinType("Push/Pull") == PushPin
  {
    assert Lower("Push/Pull") == "push/pull";
    assert Contains("push/pull", "push");
  }

  /** `get_attachment_point`. */
  function AttachmentPointOf(attachmentType: string): AttachmentPoint
  {
    var a := Lower(attachmentType);
    if Contains(a, "universal") then Universal
    else if Contains(a, "pin") then Pin
    else if Contains(a, "bolt") then Bolt
    else if Contains(a, "bent") then BentPlate
    else if Contains(a, "sling") then Sling
    else if Contains(a, "hole") then Hole
    else AttachmentPoint.Other
  }

  function AttachmentRules(): seq<Rule<AttachmentPoint>>
  {
    [Rule(["universal"], Universal), Rule(["pin"], Pin), Rule(["bolt"], Bolt),
     Rule(["bent"], BentPlate), Rule(["sling"], Sling), Rule(["hole"], Hole)]
  }

  lemma AttachmentPointIsFirstMatch(attachmentType: string)
    ensures AttachmentPointOf(attachmentType) == FirstMatch(AttachmentRules(), AttachmentPoint.Other, Lower(attachmentType))
  {
    var a, rules := Lower(attachmentType), AttachmentRules();
    ContainsAnyOne(a, "universal");
    ContainsAnyOne(a, "pin");
    ContainsAnyOne(a, "bolt");
    ContainsAnyOne(a, "bent");
    ContainsAnyOne(a, "sling");
    ContainsAnyOne(a, "hole");
    if Contains(a, "universal") {
      FirstMatchIsFirst(rules, AttachmentPoint.Other, a, 0);
    } else if Contains(a, "pin") {
      FirstMatchIsFirst(rules, AttachmentPoint.Other, a, 1);
    } else if Contains(a, "bolt") {
      FirstMatchIsFirst(rules, AttachmentPoint.Other, a, 2);
    } else if Contains(a, "bent") {
      FirstMatchIsFirst(rules, AttachmentPoint.Other, a, 3);
    } else if Contains(a, "sling") {
      FirstMatchIsFirst(rules, AttachmentPoint.Other, a, 4);
    } else if Contains(a, "hole") {
      FirstMatchIsFirst(rules, AttachmentPoint.Other, a, 5);
    } else {
      FirstMatchFallback(rules, AttachmentPoint.Other, a);
    }
  }

  /** "pin or bolt" is a pin: the earlier row wins. */
  lemma PinOrBoltIsPin()
    ensures AttachmentPointOf("Pin or Bolt") == Pin
  {
    assert Lower("Pin or Bolt") == "pin or bolt";
    assert !Contains("pin or bolt", "universal");
    assert Contains("pin or bolt", "pin");
  }

  /** The create-record of one weblock. */
  function WeblockCreateOf(weblock: map<string, Value>, brandId: int): WeblockCreate
  {
    WeblockCreate(
      ToStr(Get(weblock, "name", VNull)), brandId,
      WeblockMetal(ToStr(Get(weblock, "material", VStr("")))),
      Get(weblock, "width", VInt(0)), Get(weblock, "weight", VInt(0)),
      Get(weblock, "breakingStrength", VNull),
      FrontPinType(ToStr(Get(weblock, "front_pin", VStr("")))),
      AttachmentPointOf(ToStr(Get(weblock, "attachment_point", VStr("")))))
  }

  function BuildWeblock(weblock: map<string, Value>, brandId: int): Result<Item, LoadError>
  {
    Success(WeblockItem(WeblockCreateOf(weblock, brandId)))
  }

  /** Building never fails and keeps the brand id it is given. */
  lemma WeblockBuilderKeepsBrand()
    ensures KeepsBrand(BuildWeblock)
    ensures forall rec, id :: BuildWeblock(rec, id).Success?
  {
  }

  /** A record without a front pin or attachment point gets Other for both. */
  lemma MissingPinIsOther(weblock: map<string, Value>, brandId: int)
    requires "front_pin" !in weblock && "attachment_point" !in weblock
    ensures WeblockCreateOf(weblock, brandId).frontPin == FrontPin.Other
    ensures WeblockCreateOf(weblock, brandId).attachmentPoint == AttachmentPoint.Other
  {
  }

  /** `add_weblocks_to_db`, resolving brands with the utility copy of
      `get_brand`. */
  method AddWeblocksToDb(weblocks: seq<map<string, Value>>, session: Session) returns (outcome: Outcome)
    modifies session
    ensures (outcome, session.State()) == Load(BrandKey, BuildWeblock, RefreshLoopVariable, weblocks, old(session.State()))
  {
    outcome := AddRecords(BrandFinderUtility, BrandKey, BuildWeblock, RefreshLoopVariable, weblocks, session);
  }
}
