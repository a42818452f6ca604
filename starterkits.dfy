/** The starter-kit loader: its copying cleaner, which also normalises the
    tensioning system to one of the enumeration's labels, and its batch
    step. */
module StarterKits {
  import opened Wrappers
  import opened Text
  import opened Values
  import opened Catalog
  import opened Brands
  import opened Cleaning
  import opened Batch

  /** The tensioning chain of the starter-kit cleaner, on upper-cased text. */
  function StarterTensioning(rt: string): TensioningType
  {
    if Contains(rt, "RAT2") || Contains(rt, "DOUBLE") then DoubleRatchet
    else if Contains(rt, "RAT1") || (Contains(rt, "RAT") && !Contains(rt, "RAT2")) || Contains(rt, "SINGLE") then SingleRatchet
    else if Contains(rt, "PRIM") || Contains(rt, "PRIMITIVE") then Primitive
    else TensioningType.Other
  }

  /** None is Other; anything else is judged by its upper-cased `str`. */
  function StarterTensioningOf(raw: Value): TensioningType
  {
    if raw == VNull then TensioningType.Other else StarterTensioning(Upper(ToStr(raw)))
  }

  /** The chain as a keyword table: "RAT1" and "PRIMITIVE" add nothing,
      since they contain "RAT" and "PRIM", and "RAT2" is already excluded
      when the second test runs. */
  function StarterRules(): seq<Rule<TensioningType>>
  {
    [Rule(["RAT2", "DOUBLE"], DoubleRatchet), Rule(["RAT", "SINGLE"], SingleRatchet),
     Rule(["PRIM"], Primitive)]
  }

  lemma StarterTensioningIsFirstMatch(rt: string)
    ensures StarterTensioning(rt) == FirstMatch(StarterRules(), TensioningType.Other, rt)
  {
    var rules := StarterRules();
    ContainsAnyTwo(rt, "RAT2", "DOUBLE");
    ContainsAnyTwo(rt, "RAT", "SINGLE");
    ContainsAnyOne(rt, "PRIM");
    if Contains(rt, "RAT1") {
      ContainsWindow(rt, "RAT1", 0, 3);
      assert "RAT1"[0..3] == "RAT";
    }
    if Contains(rt, "PRIMITIVE") {
      ContainsWindow(rt, "PRIMITIVE", 0, 4);
      assert "PRIMITIVE"[0..4] == "PRIM";
    }
    if Contains(rt, "RAT2") || Contains(rt, "DOUBLE") {
      FirstMatchIsFirst(rules, TensioningType.Other, rt, 0);
    } else if Contains(rt, "RAT") || Contains(rt, "SINGLE") {
      FirstMatchIsFirst(rules, TensioningType.Other, rt, 1);
    } else if Contains(rt, "PRIM") {
      FirstMatchIsFirst(rules, TensioningType.Other, rt, 2);
    } else {
      FirstMatchFallback(rules, TensioningType.Other, rt);
    }
  }

  lemma SingleLabelIsSingle()
    ensures StarterTensioningOf(VStr("Single Ratchet")) == SingleRatchet
  {
    UpperSingleLabel();
    MissingCharNotContained("SINGLE RATCHET", "RAT2", '2');
    MissingCharNotContained("SINGLE RATCHET", "DOUBLE", 'D');
    assert Contains("SINGLE RATCHET", "SINGLE");
  }

  lemma DoubleLabelIsDouble()
    ensures StarterTensioningOf(VStr("Double Ratchet")) == DoubleRatchet
  {
    UpperDoubleLabel();
    assert Contains("DOUBLE RATCHET", "DOUBLE");
  }

  lemma PrimitiveLabelIsPrimitive()
    ensures StarterTensioningOf(VStr("Primitive")) == Primitive
  {
    assert Upper("Primitive") == "PRIMITIVE";
    assert !Contains("PRIMITIVE", "RAT2");
    assert !Contains("PRIMITIVE", "DOUBLE");
    assert !Contains("PRIMITIVE", "RAT1");
    assert !Contains("PRIMITIVE", "RAT");
    assert !Contains("PRIMITIVE", "SINGLE");
    assert Contains("PRIMITIVE", "PRIM");
  }

  lemma OtherLabelIsOther()
    ensures StarterTensioningOf(VStr("Other")) == TensioningType.Other
  {
    assert Upper("Other") == "OTHER";
    assert !Contains("OTHER", "RAT2");
    assert !Contains("OTHER", "DOUBLE");
    assert !Contains("OTHER", "RAT1");
    assert !Contains("OTHER", "RAT");
    assert !Contains("OTHER", "SINGLE");
    assert !Contains("OTHER", "PRIM");
    assert !Contains("OTHER", "PRIMITIVE");
  }

  /** The chain gives every label back its own type, so normalised values
      survive a second normalisation. */
  lemma StarterLabelRoundTrip(t: TensioningType)
    ensures StarterTensioningOf(VStr(TensioningLabel(t))) == t
  {
    match t
    case SingleRatchet => SingleLabelIsSingle();
    case DoubleRatchet => DoubleLabelIsDouble();
    case Primitive => PrimitiveLabelIsPrimitive();
    case Other => OtherLabelIsOther();
  }

  /** The shorthand codes of the kit data, in any letter case. */
  lemma StarterCodes()
    ensures StarterTensioningOf(VStr("rat1")) == SingleRatchet
    ensures StarterTensioningOf(VStr("RAT2")) == DoubleRatchet
    ensures StarterTensioningOf(VNull) == TensioningType.Other
  {
    assert Upper("rat1") == "RAT1";
    assert !Contains("RAT1", "RAT2");
    assert !Contains("RAT1", "DOUBLE");
    assert Contains("RAT1", "RAT1");
    assert Upper("RAT2") == "RAT2";
    assert Contains("RAT2", "RAT2");
  }

  /** The flags and the tensioning label written over the blanked copy. */
  function PatchKit(c: map<string, Value>, tension: Value -> TensioningType): map<string, Value>
  {
    var flagged := PatchFlag(PatchFlag(c, "includes_treepro"), "isa_certified");
    flagged["tensioning_type" := VStr(TensioningLabel(tension(Get(flagged, "tensioning_type", VNull))))]
  }

  /** The dict `clean_starterkit_data` answers. */
  function CleanedStarterKit(starterKit: map<string, Value>): map<string, Value>
  {
    PatchKit(Blanked(starterKit), StarterTensioningOf)
  }

  /** `clean_starterkit_data`: copy with empty strings as None, coerce the
      two flags when present, and always set `tensioning_type` to a label. */
  method CleanStarterKitData(starterKit: map<string, Value>) returns (cleanedKits: map<string, Value>)
    ensures cleanedKits == CleanedStarterKit(starterKit)
  {
    cleanedKits := CopyBlanked(starterKit);
    if "includes_treepro" in cleanedKits {
      var v := cleanedKits["includes_treepro"];
      cleanedKits := cleanedKits["includes_treepro" := CoerceFlag(v)];
    }
    if "isa_certified" in cleanedKits {
      var v := cleanedKits["isa_certified"];
      cleanedKits := cleanedKits["isa_certified" := CoerceFlag(v)];
    }
    var rawT := if "tensioning_type" in cleanedKits then cleanedKits["tensioning_type"] else VNull;
    var tension := if rawT == VNull then TensioningType.Other else StarterTensioning(Upper(ToStr(rawT)));
    cleanedKits := cleanedKits["tensioning_type" := VStr(TensioningLabel(tension))];
  }

  /** A cleaned kit has every original field plus `tensioning_type`, which
      holds the label of its type; the flags are bools where present; and
      no field holds an empty string. */
  lemma PatchKitProperties(c: map<string, Value>, tension: Value -> TensioningType)
    ensures var r := PatchKit(c, tension);
            && r.Keys == c.Keys + {"tensioning_type"}
            && r["tensioning_type"] == VStr(TensioningLabel(tension(Get(c, "tensioning_type", VNull))))
            && ("includes_treepro" in c ==> r["includes_treepro"].VBool?)
            && ("isa_certified" in c ==> r["isa_certified"].VBool?)
            && (forall k | k in c && k !in {"includes_treepro", "isa_certified", "tensioning_type"} :: r[k] == c[k])
  {
  }

  lemma CleanedStarterKitProperties(starterKit: map<string, Value>)
    ensures var r := CleanedStarterKit(starterKit);
            && r.Keys == starterKit.Keys + {"tensioning_type"}
            && r["tensioning_type"] == VStr(TensioningLabel(StarterTensioningOf(Get(Blanked(starterKit), "tensioning_type", VNull))))
            && (forall k | k in r :: r[k] != VStr(""))
  {
    BlankedProperties(starterKit);
    PatchKitProperties(Blanked(starterKit), StarterTensioningOf);
  }

  /** Cleaning a cleaned starter kit changes nothing. */
  lemma CleanStarterKitIdempotent(starterKit: map<string, Value>)
    ensures CleanedStarterKit(CleanedStarterKit(starterKit)) == CleanedStarterKit(starterKit)
  {
    var b := Blanked(starterKit);
    var c := CleanedStarterKit(starterKit);
    BlankedProperties(starterKit);
    CleanedStarterKitProperties(starterKit);
    BlankedProperties(c);
    assert Blanked(c) == c;
    var t := StarterTensioningOf(Get(b, "tensioning_type", VNull));
    StarterLabelRoundTrip(t);
    var f := PatchFlag(PatchFlag(b, "includes_treepro"), "isa_certified");
    if "includes_treepro" in b {
      CoerceFlagIdempotent(b["includes_treepro"]);
    }
    if "isa_certified" in b {
      CoerceFlagIdempotent(b["isa_certified"]);
    }
    assert PatchKit(c, StarterTensioningOf) == c;
  }

  function StarterKitBuilder(getCurrency: CurrencyLookup): Builder
  {
    (kit, brandId) => Success(StarterKitItem(KitCreateOf(getCurrency, kit, brandId)))
  }

  /** Building never fails (a failing currency lookup is caught) and keeps
      the brand id. */
  lemma StarterKitBuilderProperties(getCurrency: CurrencyLookup)
    ensures KeepsBrand(StarterKitBuilder(getCurrency))
    ensures forall kit, brandId :: StarterKitBuilder(getCurrency)(kit, brandId).Success?
  {
  }

  /** `add_starterkits_to_db`. */
  method AddStarterKitsToDb(getCurrency: CurrencyLookup, starterKits: seq<map<string, Value>>, session: Session)
    returns (outcome: Outcome)
    modifies session
    ensures (outcome, session.State())
         == Load(ManufacturerKey, StarterKitBuilder(getCurrency), RefreshLoopVariable, starterKits, old(session.State()))
  {
    outcome := AddRecords(BrandModule, ManufacturerKey, StarterKitBuilder(getCurrency), RefreshLoopVariable, starterKits, session);
  }
}
