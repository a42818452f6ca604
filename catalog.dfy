/** The schema side of the catalog that the loaders fill: the enumerations
    the classifiers produce, the create-records the loaders stage (one shape
    per equipment category), and the errors a load can end with. Fields the
    loaders pass through `int(...)`, `float(...)` or unchanged are kept as
    JSON values. */
module Catalog {
  import opened Wrappers
  import opened Values
  import opened Materials
  import opened Text

  datatype FrontPin = PushPin | PullPin | CaptivePin | FixedBolt | Other

  datatype AttachmentPoint = Universal | Pin | Bolt | BentPlate | Sling | Hole | Other

  datatype FiberMaterial = Hybrid | Nylon | Polyester | Dyneema | Vectran | Other

  datatype ConnectionType = DyneemaSlingLoop | MountingHole | Other

  datatype TensioningType = SingleRatchet | DoubleRatchet | Primitive | Other

  /** The enumeration's value strings, which the kit cleaners store. */
  function TensioningLabel(t: TensioningType): string
  {
    match t
    case SingleRatchet => "Single Ratchet"
    case DoubleRatchet => "Double Ratchet"
    case Primitive => "Primitive"
    case Other => "Other"
  }

  /** The upper-cased labels, as the kit cleaners test them. */
  lemma UpperSingleLabel()
    ensures Upper(TensioningLabel(SingleRatchet)) == "SINGLE RATCHET"
  {
    UpperConcat("Single", " Ratchet");
    assert "Single Ratchet" == "Single" + " Ratchet";
    assert Upper("Single") == "SINGLE" && Upper(" Ratchet") == " RATCHET";
    assert "SINGLE" + " RATCHET" == "SINGLE RATCHET";
  }

  lemma UpperDoubleLabel()
    ensures Upper(TensioningLabel(DoubleRatchet)) == "DOUBLE RATCHET"
  {
    UpperConcat("Double", " Ratchet");
    assert "Double Ratchet" == "Double" + " Ratchet";
    assert Upper("Double") == "DOUBLE" && Upper(" Ratchet") == " RATCHET";
    assert "DOUBLE" + " RATCHET" == "DOUBLE RATCHET";
  }

  /** What the currency lookup returns; the currency table itself is not
      part of this model. */
  datatype Currency = Currency(code: string)

  datatype WeblockCreate = WeblockCreate(
    name: string, brandId: int, material: MetalMaterial,
    width: Value, weight: Value, breakingStrength: Value,
    frontPin: FrontPin, attachmentPoint: AttachmentPoint)

  datatype WebbingCreate = WebbingCreate(
    name: string, brandId: int, material: FiberMaterial,
    width: Value, weight: Value, breakingStrength: Value, stretch: Value)

  datatype GripCreate = GripCreate(
    name: string, brandId: int, releaseDate: Value, productUrl: Value,
    material: MetalMaterial, widthMin: Value, widthMax: Value, weight: Value,
    wll: Value, mbs: Value, commonSlippingThreshold: Value,
    connectionType: ConnectionType, isaCertified: Value, price: Value,
    currency: Option<Currency>)

  datatype LeashRingCreate = LeashRingCreate(
    name: string, brandId: int, material: MetalMaterial,
    innerDiameter: Value, outerDiameter: Value, weight: Value,
    breakingStrength: Value, isaCertified: Value, price: Value,
    currency: Option<Currency>, notes: Value)

  datatype TreeProCreate = TreeProCreate(
    name: string, brandId: int, releaseDate: Value, productUrl: Value,
    weight: Value, width: Value, length: Value, thickness: Value,
    hasSlingAttachment: Value, price: Value, priceUnit: Value,
    currency: Option<Currency>, description: Value, version: Value, notes: Value)

  /** Starter kits and trickline kits share this shape. */
  datatype KitCreate = KitCreate(
    name: string, brandId: int, releaseDate: Value, productUrl: Value,
    webbingLength: Value, webbingWidth: Value, weight: Value,
    tensioningType: Value, includesTreepro: Value, isaCertified: Value,
    price: Value, currency: Option<Currency>, description: Value,
    version: Value, notes: Value)

  /** The create-record of a starter or trickline kit: a falsy webbing
      length or width becomes 0, a failing currency lookup None. */
  function KitCreateOf(getCurrency: CurrencyLookup, kit: map<string, Value>, brandId: int): KitCreate
  {
    KitCreate(
      ToStr(Get(kit, "name", VNull)), brandId,
      Get(kit, "release_date", VNull), Get(kit, "product_url", VNull),
      OrElse(Get(kit, "webbing_length", VNull), VInt(0)),
      OrElse(Get(kit, "webbing_width", VNull), VInt(0)),
      Get(kit, "weight", VNull), Get(kit, "tensioning_type", VNull),
      Get(kit, "includes_treepro", VBool(false)), Get(kit, "isa_certified", VBool(false)),
      Get(kit, "price", VNull), LenientCurrency(getCurrency, kit),
      Get(kit, "description", VNull), Get(kit, "version", VNull), Get(kit, "notes", VNull))
  }

  /** A kit's webbing length and width are truthy or 0: a truthy value is
      kept, and a missing or falsy one (None, "", 0, False, []) becomes 0. */
  lemma KitLengthsDefaultToZero(getCurrency: CurrencyLookup, kit: map<string, Value>, brandId: int)
    ensures var k := KitCreateOf(getCurrency, kit, brandId);
            && (Truthy(k.webbingLength) || k.webbingLength == VInt(0))
            && (Truthy(k.webbingWidth) || k.webbingWidth == VInt(0))
            && ("webbing_length" in kit && Truthy(kit["webbing_length"]) ==> k.webbingLength == kit["webbing_length"])
            && (("webbing_length" !in kit || !Truthy(kit["webbing_length"])) ==> k.webbingLength == VInt(0))
            && ("webbing_width" in kit && Truthy(kit["webbing_width"]) ==> k.webbingWidth == kit["webbing_width"])
            && (("webbing_width" !in kit || !Truthy(kit["webbing_width"])) ==> k.webbingWidth == VInt(0))
  {
  }

  /** A record staged in the session, tagged with its table. */
  datatype Item =
    | WeblockItem(weblock: WeblockCreate)
    | WebbingItem(webbing: WebbingCreate)
    | GripItem(grip: GripCreate)
    | LeashRingItem(leashRing: LeashRingCreate)
    | TreeProItem(treePro: TreeProCreate)
    | StarterKitItem(starterKit: KitCreate)
    | TricklineKitItem(tricklineKit: KitCreate)

  /** The brand foreign key every equipment record carries. */
  function BrandIdOf(item: Item): int
  {
    match item
    case WeblockItem(w) => w.brandId
    case WebbingItem(w) => w.brandId
    case GripItem(g) => g.brandId
    case LeashRingItem(l) => l.brandId
    case TreeProItem(t) => t.brandId
    case StarterKitItem(k) => k.brandId
    case TricklineKitItem(k) => k.brandId
  }

  /** `get_currency`, whose table is not part of this model: None stands for
      a lookup that raises. */
  type CurrencyLookup = Value -> Option<Currency>

  /** The currency of a grip, leash ring or tree pro: None when the record
      has none, else the lookup's answer, and a lookup that raises aborts
      the load. */
  function StrictCurrency(getCurrency: CurrencyLookup, rec: map<string, Value>): Result<Option<Currency>, LoadError>
  {
    var c := Get(rec, "currency", VNull);
    if c == VNull then Success(None)
    else match getCurrency(c)
      case None => Failure(CurrencyLookupFailed(c))
      case Some(x) => Success(Some(x))
  }

  /** The currency of a starter or trickline kit: a lookup that raises is
      caught and gives None. */
  function LenientCurrency(getCurrency: CurrencyLookup, rec: map<string, Value>): Option<Currency>
  {
    var c := Get(rec, "currency", VNull);
    if c == VNull then None
    else getCurrency(c)
  }

  /** Both policies agree whenever the lookup succeeds; where the strict one
      aborts, on a present currency the lookup rejects, the lenient one
      answers None. */
  lemma CurrencyPolicies(getCurrency: CurrencyLookup, rec: map<string, Value>)
    ensures StrictCurrency(getCurrency, rec).Success? ==>
              LenientCurrency(getCurrency, rec) == StrictCurrency(getCurrency, rec).value
    ensures StrictCurrency(getCurrency, rec).Failure? <==>
              Get(rec, "currency", VNull) != VNull && getCurrency(Get(rec, "currency", VNull)).None?
    ensures StrictCurrency(getCurrency, rec).Failure? ==>
              LenientCurrency(getCurrency, rec) == None
              && StrictCurrency(getCurrency, rec).error == CurrencyLookupFailed(rec["currency"])
  {
  }

  /** The exceptions that end a load. */
  datatype LoadError =
    | BrandIdUndetermined(brandName: string)  // the ValueError of get_brand
    | CurrencyLookupFailed(currency: Value)   // an exception out of get_currency
    | UnboundLoopVariable                     // refreshing the loop variable after an empty loop
    | RefreshOfNone                           // a store that rejects `refresh(None)`
}
