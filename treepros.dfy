/** The tree-pro loader: its copying cleaner and its batch step. */
module TreePros {
  import opened Wrappers
  import opened Values
  import opened Catalog
  import opened Brands
  import opened Cleaning
  import opened Batch

  /** The dict `clean_treepro_data` answers. */
  function CleanedTreePro(treePro: map<string, Value>): map<string, Value>
  {
    PatchFlag(Blanked(treePro), "has_sling_attachment")
  }

  /** `clean_treepro_data`: copy with empty strings as None, then coerce
      `has_sling_attachment` when present. */
  method CleanTreeProData(treePro: map<string, Value>) returns (cleaned: map<string, Value>)
    ensures cleaned == CleanedTreePro(treePro)
  {
    cleaned := CopyBlanked(treePro);
    if "has_sling_attachment" in cleaned {
      var v := cleaned["has_sling_attachment"];
      cleaned := cleaned["has_sling_attachment" := CoerceFlag(v)];
    }
  }

  /** The cleaned tree pro has the same fields, no empty string anywhere,
      a bool for `has_sling_attachment` when it is there, and every other
      field as it was unless it was empty. */
  lemma CleanedTreeProProperties(treePro: map<string, Value>)
    ensures var c := CleanedTreePro(treePro);
            && c.Keys == treePro.Keys
            && (forall k | k in c :: c[k] != VStr(""))
            && ("has_sling_attachment" in c ==> c["has_sling_attachment"].VBool?)
            && (forall k | k in treePro && k != "has_sling_attachment" :: c[k] == BlankToNull(treePro[k]))
  {
    BlankedProperties(treePro);
  }

  /** Cleaning a cleaned tree pro changes nothing. */
  lemma CleanTreeProIdempotent(treePro: map<string, Value>)
    ensures CleanedTreePro(CleanedTreePro(treePro)) == CleanedTreePro(treePro)
  {
    var c := CleanedTreePro(treePro);
    BlankedProperties(treePro);
    BlankedProperties(c);
    assert Blanked(c) == c;
    if "has_sling_attachment" in c {
      CoerceFlagIdempotent(Blanked(treePro)["has_sling_attachment"]);
    }
  }

  /** The create-record of one tree pro, or the currency lookup's failure. */
  function BuildTreePro(getCurrency: CurrencyLookup, treePro: map<string, Value>, brandId: int): Result<Item, LoadError>
  {
    match StrictCurrency(getCurrency, treePro)
    case Failure(e) => Failure(e)
    case Success(currency) =>
      Success(TreeProItem(TreeProCreate(
        ToStr(Get(treePro, "name", VNull)), brandId,
        Get(treePro, "release_date", VNull), Get(treePro, "product_url", VNull),
        Get(treePro, "weight", VNull), Get(treePro, "width", VNull),
        Get(treePro, "length", VNull), Get(treePro, "thickness", VNull),
        Get(treePro, "has_sling_attachment", VBool(false)),
        Get(treePro, "price", VNull), Get(treePro, "price_unit", VNull), currency,
        Get(treePro, "description", VNull), Get(treePro, "version", VNull),
        Get(treePro, "notes", VNull))))
  }

  function TreeProBuilder(getCurrency: CurrencyLookup): Builder
  {
    (treePro, brandId) => BuildTreePro(getCurrency, treePro, brandId)
  }

  /** Building keeps the brand id, and fails exactly when a present
      currency is rejected by the lookup. */
  lemma TreeProBuilderProperties(getCurrency: CurrencyLookup)
    ensures KeepsBrand(TreeProBuilder(getCurrency))
    ensures forall treePro, brandId :: TreeProBuilder(getCurrency)(treePro, brandId).Failure?
              <==> StrictCurrency(getCurrency, treePro).Failure?
  {
  }

  /** Through cleaning and building, the sling attachment is always a bool:
      False when the record has none, else the coerced value. */
  lemma SlingAttachmentIsBool(getCurrency: CurrencyLookup, treePro: map<string, Value>, brandId: int)
    requires BuildTreePro(getCurrency, CleanedTreePro(treePro), brandId).Success?
    ensures BuildTreePro(getCurrency, CleanedTreePro(treePro), brandId).value.treePro.hasSlingAttachment.VBool?
    ensures "has_sling_attachment" !in treePro ==>
              BuildTreePro(getCurrency, CleanedTreePro(treePro), brandId).value.treePro.hasSlingAttachment == VBool(false)
    ensures "has_sling_attachment" in treePro ==>
              BuildTreePro(getCurrency, CleanedTreePro(treePro), brandId).value.treePro.hasSlingAttachment
              == CoerceFlag(BlankToNull(treePro["has_sling_attachment"]))
  {
  }

  /** `add_treepros_to_db`. */
  method AddTreeProsToDb(getCurrency: CurrencyLookup, treePros: seq<map<string, Value>>, session: Session)
    returns (outcome: Outcome)
    modifies session
    ensures (outcome, session.State())
         == Load(ManufacturerKey, TreeProBuilder(getCurrency), RefreshLoopVariable, treePros, old(session.State()))
  {
    outcome := AddRecords(BrandModule, ManufacturerKey, TreeProBuilder(getCurrency), RefreshLoopVariable, treePros, session);
  }
}
