/** The trickline-kit loader: its copying cleaner with a shorter tensioning
    chain than the starter kits', and its batch step, which refreshes a
    `last` variable instead of the loop variable. */
module TricklineKits {
  import opened Wrappers
  import opened Text
  import opened Values
  import opened Catalog
  import opened Brands
  import opened Cleaning
  import opened Batch
  import StarterKits

  /** The tensioning chain of the trickline-kit cleaner, on upper-cased text. */
  function TricklineTensioning(rt: string): TensioningType
  {
    if Contains(rt, "RAT2") || Contains(rt, "DOUBLE") then DoubleRatchet
    else if Contains(rt, "RAT1") then SingleRatchet
    else TensioningType.Other
  }

  function TricklineTensioningOf(raw: Value): TensioningType
  {
    if raw == VNull then TensioningType.Other else TricklineTensioning(Upper(ToStr(raw)))
  }

  function TricklineRules(): seq<Rule<TensioningType>>
  {
    [Rule(["RAT2", "DOUBLE"], DoubleRatchet), Rule(["RAT1"], SingleRatchet)]
  }

  lemma TricklineTensioningIsFirstMatch(rt: string)
    ensures TricklineTensioning(rt) == FirstMatch(TricklineRules(), TensioningType.Other, rt)
  {
    var rules := TricklineRules();
    ContainsAnyTwo(rt, "RAT2", "DOUBLE");
    ContainsAnyOne(rt, "RAT1");
    if Contains(rt, "RAT2") || Contains(rt, "DOUBLE") {
      FirstMatchIsFirst(rules, TensioningType.Other, rt, 0);
    } else if Contains(rt, "RAT1") {
      FirstMatchIsFirst(rules, TensioningType.Other, rt, 1);
    } else {
      FirstMatchFallback(rules, TensioningType.Other, rt);
    }
  }

  /** The trickline chain never says Primitive, and whenever it says a
      ratchet the starter chain says the same; they agree on double
      ratchets exactly. */
  lemma TricklineRefinesStarter(rt: string)
    ensures TricklineTensioning(rt) != Primitive
    ensures TricklineTensioning(rt) != TensioningType.Other ==> StarterKits.StarterTensioning(rt) == TricklineTensioning(rt)
    ensures TricklineTensioning(rt) == DoubleRatchet <==> StarterKits.StarterTensioning(rt) == DoubleRatchet
  {
  }

  /** The label "Single Ratchet" itself has no "RAT1", so this chain maps
      it to Other. */
  lemma SingleLabelIsOther()
    ensures TricklineTensioningOf(VStr("Single Ratchet")) == TensioningType.Other
  {
    UpperSingleLabel();
    MissingCharNotContained("SINGLE RATCHET", "RAT2", '2');
    MissingCharNotContained("SINGLE RATCHET", "DOUBLE", 'D');
    MissingCharNotContained("SINGLE RATCHET", "RAT1", '1');
  }

  /** The double-ratchet and other labels map to themselves. */
  lemma OtherLabelsRoundTrip()
    ensures TricklineTensioningOf(VStr("Double Ratchet")) == DoubleRatchet
    ensures TricklineTensioningOf(VStr("Other")) == TensioningType.Other
  {
    UpperDoubleLabel();
    assert Contains("DOUBLE RATCHET", "DOUBLE");
    assert Upper("Other") == "OTHER";
    MissingCharNotContained("OTHER", "RAT2", '2');
    MissingCharNotContained("OTHER", "DOUBLE", 'D');
    MissingCharNotContained("OTHER", "RAT1", '1');
  }

  /** The dict `clean_tricklinekit_data` answers. */
  function CleanedTricklineKit(trick: map<string, Value>): map<string, Value>
  {
    StarterKits.PatchKit(Blanked(trick), TricklineTensioningOf)
  }

  /** `clean_tricklinekit_data`: copy with empty strings as None, coerce the
      two flags when present, and always set `tensioning_type` to a label. */
  method CleanTricklineKitData(trick: map<string, Value>) returns (cleaned: map<string, Value>)
    ensures cleaned == CleanedTricklineKit(trick)
  {
    cleaned := CopyBlanked(trick);
    if "includes_treepro" in cleaned {
      var v := cleaned["includes_treepro"];
      cleaned := cleaned["includes_treepro" := CoerceFlag(v)];
    }
    if "isa_certified" in cleaned {
      var v := cleaned["isa_certified"];
      cleaned := cleaned["isa_certified" := CoerceFlag(v)];
    }
    var raw := if "tensioning_type" in cleaned then cleaned["tensioning_type"] else VNull;
    var tension := if raw == VNull then TensioningType.Other else TricklineTensioning(Upper(ToStr(raw)));
    cleaned := cleaned["tensioning_type" := VStr(TensioningLabel(tension))];
  }

  /** A cleaned trickline kit holds one of three labels, never Primitive's. */
  lemma CleanedTricklineKitProperties(trick: map<string, Value>)
    ensures var r := CleanedTricklineKit(trick);
            && r.Keys == trick.Keys + {"tensioning_type"}
            && r["tensioning_type"] in {VStr("Single Ratchet"), VStr("Double Ratchet"), VStr("Other")}
            && (forall k | k in r :: r[k] != VStr(""))
  {
    BlankedProperties(trick);
    StarterKits.PatchKitProperties(Blanked(trick), TricklineTensioningOf);
  }

  /** Unlike the starter-kit cleaner, cleaning twice is not cleaning once: a
      single ratchet written as "RAT1" is labelled "Single Ratchet", and that
      label cleans to "Other". */
  lemma RecleaningLosesSingleRatchet()
    ensures CleanedTricklineKit(map["tensioning_type" := VStr("RAT1")])["tensioning_type"] == VStr("Single Ratchet")
    ensures CleanedTricklineKit(CleanedTricklineKit(map["tensioning_type" := VStr("RAT1")]))["tensioning_type"] == VStr("Other")
  {
    var m := map["tensioning_type" := VStr("RAT1")];
    assert Blanked(m) == m;
    assert Upper("RAT1") == "RAT1";
    MissingCharNotContained("RAT1", "RAT2", '2');
    MissingCharNotContained("RAT1", "DOUBLE", 'D');
    assert Contains("RAT1", "RAT1");
    var c := CleanedTricklineKit(m);
    assert c == map["tensioning_type" := VStr("Single Ratchet")];
    assert Blanked(c) == c;
    SingleLabelIsOther();
  }

  function TricklineKitBuilder(getCurrency: CurrencyLookup): Builder
  {
    (kit, brandId) => Success(TricklineKitItem(KitCreateOf(getCurrency, kit, brandId)))
  }

  /** Building never fails (a failing currency lookup is caught) and keeps
      the brand id. */
  lemma TricklineKitBuilderProperties(getCurrency: CurrencyLookup)
    ensures KeepsBrand(TricklineKitBuilder(getCurrency))
    ensures forall kit, brandId :: TricklineKitBuilder(getCurrency)(kit, brandId).Success?
  {
  }

  /** `add_tricklinekits_to_db`: an empty batch refreshes `last`, which is
      None, rather than an unbound loop variable; `refreshNoneRaises` says
      whether the store rejects that. */
  method AddTricklineKitsToDb(getCurrency: CurrencyLookup, refreshNoneRaises: bool,
                              tricks: seq<map<string, Value>>, session: Session)
    returns (outcome: Outcome)
    modifies session
    ensures (outcome, session.State())
         == Load(ManufacturerKey, TricklineKitBuilder(getCurrency), RefreshLast(refreshNoneRaises), tricks, old(session.State()))
  {
    outcome := AddRecords(BrandModule, ManufacturerKey, TricklineKitBuilder(getCurrency), RefreshLast(refreshNoneRaises), tricks, session);
  }
}
