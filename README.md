# SlackData ingestion, modelled in Dafny

SlackData keeps a catalog of slackline equipment: brands, webbings, weblocks,
grips, leash rings, tree pros, starter kits and trickline kits. Its loaders
read JSON records and clean each one. They classify free-text fields with
keyword tests, resolve each record's brand to a brand id, and stage one
create-record per input in a database session. The session is committed
whenever a new brand is created (which also commits every record staged so
far) and once more at the end.

This project models that ingestion core:

- `Text`: ASCII `lower`/`upper` and the `needle in text` test. It also holds
  the ordered keyword table (`Rule`, `FirstMatch`) that every if/elif
  classifier walks.
- `Values`: the JSON values a record holds, with Python's `str(v)`, `bool(v)`,
  `v or d` and `d.get(k, default)`.
- `Materials`: the metal enumeration and the shared `get_metal_material`. It
  takes a text, a list or None.
- `Catalog`: the enumerations and per-category create-records, the currency
  policies, and the errors a load can end with.
- `Brands`: the brand rows, the store (a `Session` class), the name→id cache
  (a `BrandCache` class), and `get_brand`. `get_brand` is specified by
  `ResolveBrand` and implemented by a method proved against it.
- `BrandFinder`: the utility copy of `get_brand`, which the weblock loader
  uses.
- `Cleaning`: the building blocks of the `clean_*_data` functions.
  - The in-place rules: a function applied to every entry of a `Dict` object.
  - The copy loop, for the cleaners that build a fresh dict.
  - The flag coercion.
- `Batch`: the loop shared by the `add_*_to_db` functions. It is specified by
  `StepRecord` (one iteration), `Run` (the loop) and `Load` (loop, commit,
  refresh); `AddRecord`, `RunRecords` and `AddRecords` are proved against
  them. A `Resolver` value says which copy of `get_brand` a loader calls. It
  comes with lemmas on what a batch does to the store and the cache.
- `Weblocks`, `Webbings`, `Grips`, `LeashRings`, `TreePros`, `StarterKits`,
  `TricklineKits`: one module per loader file. Each holds that loader's
  cleaner, its classifiers (each proved equal to its keyword table), its
  record builder and its batch method.

Some things are parameters of the model:

- The currency table (`get_currency`) is a parameter `Value -> Option<Currency>`.
  None stands for a lookup that raises.
- Whether the store hands out keys is a flag of the session. The "brand id
  could not be determined" error path happens when it does not.

## Model

| member | source | states |
|---|---|---|
| `Text.ContainsIffOccurs` | slack_data/utilities/materials.py:35-44 | the substring test `needle in text` holds exactly when `needle` occurs at some index |
| `Text.ContainsWindow` | slack_data/load_data/load_weblocks.py:78-81 | a text containing a phrase contains every piece of it (e.g. "stainless steel" ⇒ "stainless") |
| `Text.MissingCharNotContained` | slack_data/load_data/load_tricklinekits.py:54-60 | a text lacking a character of the keyword does not contain the keyword |
| `Text.FirstMatchIsFirst` | slack_data/utilities/materials.py:35-44 | an if/elif keyword chain answers the result of the first row whose keywords occur |
| `Text.FirstMatchFallback` | slack_data/utilities/materials.py:43-44 | with no row matching, the chain answers its fallback |
| `Values.StringItemInListText` | slack_data/load_data/load_grips.py:39 | `str` of a list shows each string item verbatim inside the text |
| `Materials.GetMetalMaterial` | slack_data/utilities/materials.py:18-44 | definition of the shared classifier over text, list or None; properties in `EmptyMaterialIsOther`, `ListUsesFirstItem`, `MetalPriority` |
| `Materials.MetalOfText` | slack_data/utilities/materials.py:34-44 | definition of the keyword chain on one text; equal to its table by `MetalOfTextIsFirstMatch` |
| `Materials.MetalOfTextIsFirstMatch` | slack_data/utilities/materials.py:34-44 | the metal chain is the first match of the table aluminum, stainless, steel, titanium on the lower-cased text |
| `Materials.EmptyMaterialIsOther` | slack_data/utilities/materials.py:23-29 | None, "" and [] classify as Other |
| `Materials.ListUsesFirstItem` | slack_data/utilities/materials.py:27-32 | a non-empty list is classified by its first item alone |
| `Materials.MetalIgnoresCase` | slack_data/utilities/materials.py:34 | the classification does not depend on letter case |
| `Materials.MetalPriority` | slack_data/utilities/materials.py:35-44 | each result holds exactly when its keyword occurs and no earlier keyword does |
| `Materials.AluminumSteelIsAluminum` | slack_data/utilities/materials.py:35-36 | "Aluminum/Steel" is aluminum |
| `Materials.BareStainlessIsStainlessSteel` | slack_data/utilities/materials.py:37-38 | a bare "stainless" is stainless steel |
| `Materials.FirstListItemWins` | slack_data/utilities/materials.py:27-30 | ["Stainless Steel", "Aluminum"] is stainless steel |
| `Materials.UnknownAlloyIsOther` | slack_data/utilities/materials.py:43-44 | a text with no keyword is Other |
| `Catalog.StrictCurrency` | slack_data/load_data/load_grips.py:53-54 | definition of the raising currency lookup; compared with the lenient one in `CurrencyPolicies` |
| `Catalog.LenientCurrency` | slack_data/load_data/load_starterkits.py:84-89 | definition of the currency lookup whose exception is caught; properties in `CurrencyPolicies` |
| `Catalog.KitCreateOf` | slack_data/load_data/load_starterkits.py:91-107 | definition of the kit create-record; properties in `KitLengthsDefaultToZero` |
| `Catalog.CurrencyPolicies` | slack_data/load_data/load_grips.py:53-54 | the strict lookup (grips, leash rings, tree pros) fails exactly on a present currency the lookup rejects; the kits' lenient lookup then gives None, and otherwise agrees |
| `Catalog.KitLengthsDefaultToZero` | slack_data/load_data/load_starterkits.py:96-97 | a kit's webbing length and width are truthy or 0: for each, a truthy value is kept and a missing or falsy one becomes 0 |
| `Catalog.UpperSingleLabel` | slack_data/models/starterkits.py:8 | the single-ratchet label upper-cases to "SINGLE RATCHET" |
| `Catalog.UpperDoubleLabel` | slack_data/models/starterkits.py:9 | the double-ratchet label upper-cases to "DOUBLE RATCHET" |
| `Brands.BrandName` | slack_data/models/brands.py:90 | definition of `str(item.get("brand"))`; properties in `MissingBrandIsNamedNone` |
| `Brands.FindBrandId` | slack_data/models/brands.py:93-94 | definition of the name query; properties in `FindBrandIdFirst` |
| `Brands.InsertBrand` | slack_data/models/brands.py:96-103 | definition of add, commit and refresh of a new brand; properties in `ResolveOnUnknownName` |
| `Brands.ResolveBrand` | slack_data/models/brands.py:89-112 | definition of one `get_brand` call; properties in the `Resolve*` lemmas, and `GetBrand` is proved against it |
| `Brands.Items` | slack_data/load_data/load_grips.py:77-79 | the records a session holds, committed then pending |
| `Brands.Commit` | slack_data/models/brands.py:101 | a commit keeps every record and leaves nothing pending |
| `Brands.Stage` | slack_data/load_data/load_grips.py:77 | adding a record appends it to what the session holds |
| `Brands.FindBrandIdFirst` | slack_data/models/brands.py:93-94 | the lookup answers exactly the id of the first row with that name: a found id is that row's, the first named row's id is the answer, and no row with that name gives None |
| `Brands.Session.constructor` | slack_data/models/brands.py:21-22 | a session over given brand rows with nothing staged |
| `Brands.Session.CreateBrand` | slack_data/models/brands.py:97-103 | appends a brand with the name and the defaults, commits everything pending and answers the new key |
| `Brands.Session.Add` | slack_data/load_data/load_grips.py:77 | stages one record |
| `Brands.Session.CommitAll` | slack_data/load_data/load_grips.py:79 | commits every staged record |
| `Brands.BrandCache.constructor` | slack_data/load_data/load_grips.py:46 | each batch starts with an empty cache |
| `Brands.GetBrand` | slack_data/models/brands.py:89-112 | answers, stores and caches exactly what `ResolveBrand` says, and returns the same cache object |
| `Brands.ResolveOnHit` | slack_data/models/brands.py:91 | a cached name answers the cached id and touches neither store nor cache |
| `Brands.ResolveOnFirstStoredRow` | slack_data/models/brands.py:91-111 | an uncached name whose first stored row has an id answers that id, leaves the store as it is and caches the id |
| `Brands.ResolveOnStoredName` | slack_data/models/brands.py:93-94 | an uncached stored name answers the stored id, creates nothing, and caches the id |
| `Brands.ResolveOnUnknownName` | slack_data/models/brands.py:95-108 | an unknown name appends exactly one brand with that name and the defaults of slack_data/models/brands.py:11-19, and commits; it answers and caches the new key, or fails with the cache unchanged when no key is assigned |
| `Brands.ResolveCacheUpdate` | slack_data/models/brands.py:107-111 | success sets `cache[name]` to the answer and leaves the other entries; failure leaves the whole cache |
| `Brands.ResolveTwice` | slack_data/models/brands.py:91-112 | resolving a name again with the updated cache is a hit with the same answer |
| `Brands.ResolveOnlyAppends` | slack_data/models/brands.py:95-103 | brand rows are only appended, and no equipment record is lost |
| `Brands.ResolveKeepsCacheBacked` | slack_data/models/brands.py:93-112 | every cached id stays the key of a stored brand with that name, and so does the answer |
| `Brands.ResolveKeepsKeysFresh` | slack_data/models/brands.py:100-103 | the key counter stays ahead of every key, so a new brand's key is unused |
| `Brands.MissingBrandIsNamedNone` | slack_data/models/brands.py:90 | a record with no brand, or None, resolves under the name "None" |
| `BrandFinder.GetBrand` | slack_data/utilities/brand_finder.py:7-30 | the utility copy resolves exactly as `ResolveBrand` says |
| `Cleaning.StringifyEntry` | slack_data/load_data/load_weblocks.py:29-37 | definition of the weblock/webbing rule; properties in `StringifiedShape`, `StringifyKeepsText`, `StringifyTwiceChangesEmptyWidth`, `StringifyBlankCertified` |
| `Cleaning.CertifiedEntry` | slack_data/load_data/load_grips.py:31-39 | definition of the grip/leash-ring rule; properties in `CertifiedFlag`, `CertifiedShape`, `CertifiedListIsText` |
| `Cleaning.BlankToNull` | slack_data/load_data/load_treepros.py:34-37 | definition of `None if value == "" else value`; properties in `BlankedProperties` |
| `Cleaning.RewriteEach` | slack_data/load_data/load_weblocks.py:28-38 | the in-place loop leaves every entry rewritten from its original value, whatever the key order |
| `Cleaning.StringifiedShape` | slack_data/load_data/load_weblocks.py:29-37 | after the weblock/webbing rule a field is None or text, except an emptied width/weight (0) and `isa_certified`; an empty width or weight becomes 0, an empty name, brand or materialType stays "", any other empty field becomes None, and a non-string `isa_certified` is kept |
| `Cleaning.StringifyKeepsText` | slack_data/load_data/load_weblocks.py:37 | a non-empty field other than `isa_certified` shows the same `str` text after the rule |
| `Cleaning.StringifyTwiceChangesEmptyWidth` | slack_data/load_data/load_weblocks.py:30-37 | the rule is not idempotent: an empty width becomes 0, then the text "0" |
| `Cleaning.StringifyBlankCertified` | slack_data/load_data/load_weblocks.py:32-35 | an empty `isa_certified` becomes None, and every other string, "false" included, becomes True |
| `Cleaning.CertifiedFlag` | slack_data/load_data/load_grips.py:34-37 | the grip/leash-ring rule gives `isa_certified` the truth value of a string, False for None, and keeps other values |
| `Cleaning.CertifiedShape` | slack_data/load_data/load_grips.py:32-39 | every other field ends as None or text, and as None exactly when it was None or a blankable empty string |
| `Cleaning.CertifiedListIsText` | slack_data/load_data/load_grips.py:38-39 | a list field becomes the text of the list |
| `Cleaning.Blanked` | slack_data/load_data/load_treepros.py:32-37 | the copy has the record's keys |
| `Cleaning.CopyBlanked` | slack_data/load_data/load_treepros.py:32-37 | the copy loop builds exactly the blanked copy |
| `Cleaning.BlankedProperties` | slack_data/load_data/load_treepros.py:33-37 | the copy holds no empty string, changes only empty strings (to None), and is idempotent |
| `Cleaning.CoerceFlag` | slack_data/load_data/load_treepros.py:41-45 | the coerced flag is always a bool |
| `Cleaning.CoerceFlagIdempotent` | slack_data/load_data/load_treepros.py:41-45 | coercing a coerced flag changes nothing |
| `Cleaning.CoerceFlagWords` | slack_data/load_data/load_treepros.py:42-43 | a string coerces to True exactly when lower-cased it is "true", "1" or "yes", so letter case never matters; "no" and "Y" are False |
| `Cleaning.PatchFlag` | slack_data/load_data/load_treepros.py:40-45 | keys kept, the flag a bool where present, nothing else changed |
| `Batch.BrandItem` | slack_data/load_data/load_grips.py:50 | definition of the dict `get_brand` is given; properties in `ManufacturerName` |
| `Batch.StepRecord` | slack_data/load_data/load_grips.py:50-77 | definition of one loop iteration; `AddRecord` is proved against it |
| `Batch.Run` | slack_data/load_data/load_grips.py:46-77 | definition of the loop; properties in `RunStagesEveryRecord`, `RunCreatesEachNameOnce`, `RunKeepsCacheBacked`, `NoOrphanRecords`, and `RunRecords` is proved against it |
| `Batch.Load` | slack_data/load_data/load_grips.py:42-80 | definition of loop, commit and refresh; properties in `EmptyBatch`, `LoadCommitsOnPass`, and `AddRecords` is proved against it |
| `Batch.ManufacturerName` | slack_data/load_data/load_grips.py:50-51 | a manufacturer-keyed record resolves under `str(manufacturer)` |
| `Batch.AddRecord` | slack_data/load_data/load_grips.py:50-77 | one iteration resolves, builds and stages exactly as `StepRecord` says, through either copy of `get_brand` |
| `Batch.RunRecords` | slack_data/load_data/load_grips.py:46-77 | the loop from a fresh cache ends in exactly the outcome, store and last record that `Run` gives; a finished loop has a last record exactly when there were records |
| `Batch.AddRecords` | slack_data/load_data/load_grips.py:42-80 | the loop, the commit and the refresh end in exactly the outcome and store that `Load` gives |
| `Batch.RunExtendsCache` | slack_data/load_data/load_grips.py:46-51 | the cache only grows and never changes an entry |
| `Batch.RunStagesEveryRecord` | slack_data/load_data/load_grips.py:48-77 | a finished batch stages one record per input, in order, after the existing ones, each built from the final cache's id for its brand |
| `Batch.RunLastIsFinal` | slack_data/load_data/load_tricklinekits.py:69-103 | `last` is the final staged record, or None when nothing was staged |
| `Batch.RunCreatesEachNameOnce` | slack_data/load_data/load_grips.py:46-51 | the brands a batch creates have pairwise different names, none already cached |
| `Batch.RunKeepsCacheBacked` | slack_data/load_data/load_grips.py:46-51 | every cache entry stays backed by a stored brand of that name |
| `Batch.NoOrphanRecords` | slack_data/load_data/load_grips.py:73-76 | every record a finished batch staged carries the key of a stored brand with its brand name |
| `Batch.EmptyBatch` | slack_data/load_data/load_grips.py:79-80 | an empty batch commits and then fails on the unbound loop variable; the `last` variant commits and then passes, or fails with `RefreshOfNone` when the store rejects `refresh(None)` |
| `Batch.LoadCommitsOnPass` | slack_data/load_data/load_grips.py:79 | a batch that passes leaves nothing pending and adds one record per input |
| `Weblocks.WeblockMetal` | slack_data/load_data/load_weblocks.py:71-85 | definition of the local metal chain; equal to its table by `WeblockMetalIsFirstMatch` |
| `Weblocks.FrontPinType` | slack_data/load_data/load_weblocks.py:87-101 | definition of the front-pin chain; equal to its table by `FrontPinIsFirstMatch` |
| `Weblocks.AttachmentPointOf` | slack_data/load_data/load_weblocks.py:103-121 | definition of the attachment chain; equal to its table by `AttachmentPointIsFirstMatch` |
| `Weblocks.WeblockCreateOf` | slack_data/load_data/load_weblocks.py:49-62 | definition of the weblock create-record; properties in `MissingPinIsOther` |
| `Weblocks.BuildWeblock` | slack_data/load_data/load_weblocks.py:49-63 | definition of the weblock builder; properties in `WeblockBuilderKeepsBrand` |
| `Weblocks.CleanWeblockData` | slack_data/load_data/load_weblocks.py:24-38 | rewrites the given dict in place by the weblock rule and returns that dict |
| `Weblocks.WeblockMetalIsFirstMatch` | slack_data/load_data/load_weblocks.py:71-85 | the local metal chain is the first match of aluminum, "stainless steel", steel, titanium |
| `Weblocks.WeblockMetalVersusShared` | slack_data/load_data/load_weblocks.py:78-79 | the local and shared metal classifiers differ exactly on texts naming "stainless" without "stainless steel" or "aluminum" |
| `Weblocks.BareStainlessDiffers` | slack_data/load_data/load_weblocks.py:78-85 | "Stainless" is Other locally, stainless steel for the shared classifier |
| `Weblocks.FrontPinIsFirstMatch` | slack_data/load_data/load_weblocks.py:87-101 | the front-pin chain is the first match of push, pull, captive, fixed |
| `Weblocks.PushBeatsPull` | slack_data/load_data/load_weblocks.py:92-93 | "Push/Pull" is a push pin |
| `Weblocks.AttachmentPointIsFirstMatch` | slack_data/load_data/load_weblocks.py:103-121 | the attachment chain is the first match of universal, pin, bolt, bent, sling, hole |
| `Weblocks.PinOrBoltIsPin` | slack_data/load_data/load_weblocks.py:110-111 | "Pin or Bolt" is a pin |
| `Weblocks.WeblockBuilderKeepsBrand` | slack_data/load_data/load_weblocks.py:53-62 | building a weblock never fails and keeps the brand id |
| `Weblocks.MissingPinIsOther` | slack_data/load_data/load_weblocks.py:50-51 | a record without front pin or attachment point gets Other for both |
| `Weblocks.AddWeblocksToDb` | slack_data/load_data/load_weblocks.py:40-69 | the loop, with the utility `get_brand`, ends exactly as `Load` says |
| `Webbings.MaterialType` | slack_data/load_data/load_webbings.py:69-85 | definition of the fiber chain; equal to its table by `MaterialTypeIsFirstMatch` |
| `Webbings.WebbingCreateOf` | slack_data/load_data/load_webbings.py:50-60 | definition of the webbing create-record; its material text survives cleaning by `CleaningKeepsMaterialText`, and it keeps the brand id by `WebbingBuilderKeepsBrand` |
| `Webbings.BuildWebbing` | slack_data/load_data/load_webbings.py:50-61 | definition of the webbing builder; properties in `WebbingBuilderKeepsBrand` |
| `Webbings.CleanWebbingData` | slack_data/load_data/load_webbings.py:25-39 | rewrites the given dict in place by the weblock rule and returns that dict |
| `Webbings.MaterialTypeIsFirstMatch` | slack_data/load_data/load_webbings.py:69-85 | the fiber chain is the first match of its table, with two-keyword rows |
| `Webbings.HybridShadowsItsParts` | slack_data/load_data/load_webbings.py:74-79 | a hybrid text also names "pes" and "polyamid", so the hybrid row must come first |
| `Webbings.PolyamidIsNylon` | slack_data/load_data/load_webbings.py:76-77 | "Polyamid" alone is nylon |
| `Webbings.CleaningKeepsMaterialText` | slack_data/load_data/load_webbings.py:33-50 | cleaning leaves the text of `materialType` as it was |
| `Webbings.WebbingBuilderKeepsBrand` | slack_data/load_data/load_webbings.py:52-60 | building a webbing never fails and keeps the brand id |
| `Webbings.AddWebbingsToDb` | slack_data/load_data/load_webbings.py:41-67 | the loop ends exactly as `Load` says |
| `Grips.GripEntry` | slack_data/load_data/load_grips.py:31-39 | definition of the grip rule (blanks kept for name, manufacturer, material, `isa_certified`); properties in `EmptyManufacturerStaysEmpty`, `CleanedMaterialListAnyAluminum` |
| `Grips.ConnectionTypeOf` | slack_data/load_data/load_grips.py:82-92 | definition of the connection chain; equal to its table by `ConnectionTypeIsFirstMatch` |
| `Grips.BuildGrip` | slack_data/load_data/load_grips.py:53-70 | definition of the grip create-record with the strict currency lookup; properties in `GripBuilderProperties` |
| `Grips.GripBuilder` | slack_data/load_data/load_grips.py:53-70 | the grip builder for a given currency lookup; properties in `GripBuilderProperties` |
| `Grips.CleanGripData` | slack_data/load_data/load_grips.py:26-40 | rewrites the given dict in place by the grip rule and returns that dict |
| `Grips.ConnectionTypeIsFirstMatch` | slack_data/load_data/load_grips.py:82-92 | the connection chain is the first match of its two phrases |
| `Grips.BareSlingIsOther` | slack_data/load_data/load_grips.py:87-92 | "Sling" alone is Other |
| `Grips.EmptyManufacturerStaysEmpty` | slack_data/load_data/load_grips.py:32-51 | an empty manufacturer survives cleaning, so the brand name is "" |
| `Grips.CleanedMaterialListAnyAluminum` | slack_data/load_data/load_grips.py:38-61 | a cleaned list material is its text, and one aluminum item anywhere makes the grip aluminum |
| `Grips.GripListIsNotFirstItem` | slack_data/load_data/load_grips.py:61 | a cleaned grip listing stainless steel then aluminum is aluminum, against the classifier's own rule that the first list item decides |
| `Grips.GripBuilderProperties` | slack_data/load_data/load_grips.py:53-72 | building keeps the brand id and fails exactly on a rejected present currency |
| `Grips.AddGripsToDb` | slack_data/load_data/load_grips.py:42-80 | the loop ends exactly as `Load` says |
| `LeashRings.LeashRingEntry` | slack_data/load_data/load_leashrings.py:31-39 | definition of the leash-ring rule (blanks kept for name, `brand_id`, material, `isa_certified`); properties in `EmptyManufacturerBecomesNone` |
| `LeashRings.BuildLeashRing` | slack_data/load_data/load_leashrings.py:53-68 | definition of the leash-ring create-record; properties in `LeashRingBuilderProperties`, `MissingCertificationIsFalse` |
| `LeashRings.LeashRingBuilder` | slack_data/load_data/load_leashrings.py:53-68 | the leash-ring builder for a given currency lookup; properties in `LeashRingBuilderProperties` |
| `LeashRings.CleanLeashRingData` | slack_data/load_data/load_leashrings.py:26-40 | rewrites the given dict in place by the leash-ring rule and returns that dict |
| `LeashRings.EmptyManufacturerBecomesNone` | slack_data/load_data/load_leashrings.py:32-51 | an empty manufacturer becomes None, so the ring resolves under "None" |
| `LeashRings.LeashRingBuilderProperties` | slack_data/load_data/load_leashrings.py:53-68 | building keeps the brand id and fails exactly on a rejected present currency |
| `LeashRings.MissingCertificationIsFalse` | slack_data/load_data/load_leashrings.py:64 | a ring without `isa_certified` is recorded as not certified |
| `LeashRings.AddLeashRingsToDb` | slack_data/load_data/load_leashrings.py:42-75 | the loop ends exactly as `Load` says |
| `TreePros.CleanedTreePro` | slack_data/load_data/load_treepros.py:32-47 | definition of the cleaned copy; properties in `CleanedTreeProProperties`, `CleanTreeProIdempotent` |
| `TreePros.BuildTreePro` | slack_data/load_data/load_treepros.py:61-81 | definition of the tree-pro create-record; properties in `TreeProBuilderProperties`, `SlingAttachmentIsBool` |
| `TreePros.TreeProBuilder` | slack_data/load_data/load_treepros.py:61-81 | the tree-pro builder for a given currency lookup; properties in `TreeProBuilderProperties` |
| `TreePros.CleanTreeProData` | slack_data/load_data/load_treepros.py:27-47 | answers the blanked copy with `has_sling_attachment` coerced |
| `TreePros.CleanedTreeProProperties` | slack_data/load_data/load_treepros.py:32-45 | same keys, no empty string, the flag a bool, and every other field blanked only if empty |
| `TreePros.CleanTreeProIdempotent` | slack_data/load_data/load_treepros.py:27-47 | cleaning a cleaned tree pro changes nothing |
| `TreePros.TreeProBuilderProperties` | slack_data/load_data/load_treepros.py:61-81 | building keeps the brand id and fails exactly on a rejected present currency |
| `TreePros.SlingAttachmentIsBool` | slack_data/load_data/load_treepros.py:74 | through cleaning and building, the sling attachment is a bool: False when the record has none, else the coerced value |
| `TreePros.AddTreeProsToDb` | slack_data/load_data/load_treepros.py:50-89 | the loop ends exactly as `Load` says |
| `StarterKits.StarterTensioning` | slack_data/load_data/load_starterkits.py:61-69 | definition of the starter-kit chain on the upper-cased text; equal to its table by `StarterTensioningIsFirstMatch` |
| `StarterKits.StarterTensioningOf` | slack_data/load_data/load_starterkits.py:57-69 | definition of the normalisation of a raw value, None giving Other; properties in `StarterCodes`, `StarterLabelRoundTrip` |
| `StarterKits.PatchKit` | slack_data/load_data/load_starterkits.py:41-69 | definition of the flag and label patch; properties in `PatchKitProperties` |
| `StarterKits.CleanedStarterKit` | slack_data/load_data/load_starterkits.py:34-71 | definition of the cleaned copy; properties in `CleanedStarterKitProperties`, `CleanStarterKitIdempotent` |
| `StarterKits.StarterKitBuilder` | slack_data/load_data/load_starterkits.py:84-107 | the starter-kit builder for a given currency lookup; properties in `StarterKitBuilderProperties` |
| `StarterKits.StarterTensioningIsFirstMatch` | slack_data/load_data/load_starterkits.py:61-69 | the tensioning chain equals the table RAT2/DOUBLE, RAT/SINGLE, PRIM: its "RAT1", "RAT2 not in" and "PRIMITIVE" tests add nothing |
| `StarterKits.SingleLabelIsSingle` | slack_data/load_data/load_starterkits.py:64-65 | "Single Ratchet" normalises to single ratchet |
| `StarterKits.DoubleLabelIsDouble` | slack_data/load_data/load_starterkits.py:62-63 | "Double Ratchet" normalises to double ratchet |
| `StarterKits.PrimitiveLabelIsPrimitive` | slack_data/load_data/load_starterkits.py:66-67 | "Primitive" normalises to primitive |
| `StarterKits.OtherLabelIsOther` | slack_data/load_data/load_starterkits.py:68-69 | "Other" normalises to Other |
| `StarterKits.StarterLabelRoundTrip` | slack_data/load_data/load_starterkits.py:56-69 | every enumeration label normalises back to its own type |
| `StarterKits.StarterCodes` | slack_data/load_data/load_starterkits.py:58-65 | "rat1" is single, "RAT2" double, None Other |
| `StarterKits.CleanStarterKitData` | slack_data/load_data/load_starterkits.py:29-71 | answers the blanked copy with both flags coerced and the tensioning label set |
| `StarterKits.PatchKitProperties` | slack_data/load_data/load_starterkits.py:42-69 | the patch adds only `tensioning_type`, sets it to a label, makes present flags bools and keeps every other field |
| `StarterKits.CleanedStarterKitProperties` | slack_data/load_data/load_starterkits.py:34-69 | a cleaned kit has the original keys plus `tensioning_type`, and no empty string |
| `StarterKits.CleanStarterKitIdempotent` | slack_data/load_data/load_starterkits.py:29-71 | cleaning a cleaned starter kit changes nothing |
| `StarterKits.StarterKitBuilderProperties` | slack_data/load_data/load_starterkits.py:84-107 | building never fails and keeps the brand id |
| `StarterKits.AddStarterKitsToDb` | slack_data/load_data/load_starterkits.py:74-115 | the loop ends exactly as `Load` says |
| `TricklineKits.TricklineTensioning` | slack_data/load_data/load_tricklinekits.py:54-60 | definition of the trickline chain on the upper-cased text; equal to its table by `TricklineTensioningIsFirstMatch` |
| `TricklineKits.TricklineTensioningOf` | slack_data/load_data/load_tricklinekits.py:50-60 | definition of the normalisation of a raw value, None giving Other; properties in `SingleLabelIsOther`, `OtherLabelsRoundTrip` |
| `TricklineKits.CleanedTricklineKit` | slack_data/load_data/load_tricklinekits.py:31-61 | definition of the cleaned copy; properties in `CleanedTricklineKitProperties`, `RecleaningLosesSingleRatchet` |
| `TricklineKits.TricklineKitBuilder` | slack_data/load_data/load_tricklinekits.py:74-97 | the trickline-kit builder for a given currency lookup; properties in `TricklineKitBuilderProperties` |
| `TricklineKits.TricklineTensioningIsFirstMatch` | slack_data/load_data/load_tricklinekits.py:54-60 | the tensioning chain is the table RAT2/DOUBLE, RAT1 |
| `TricklineKits.TricklineRefinesStarter` | slack_data/load_data/load_tricklinekits.py:54-60 | the trickline chain never says Primitive, says a ratchet only where the starter chain says the same, and agrees with it on double ratchets exactly |
| `TricklineKits.SingleLabelIsOther` | slack_data/load_data/load_tricklinekits.py:57-60 | the label "Single Ratchet" normalises to Other |
| `TricklineKits.OtherLabelsRoundTrip` | slack_data/load_data/load_tricklinekits.py:55-60 | "Double Ratchet" and "Other" normalise to themselves |
| `TricklineKits.CleanTricklineKitData` | slack_data/load_data/load_tricklinekits.py:26-61 | answers the blanked copy with both flags coerced and the tensioning label set |
| `TricklineKits.CleanedTricklineKitProperties` | slack_data/load_data/load_tricklinekits.py:31-61 | the original keys plus `tensioning_type`, which holds one of three labels, and no empty string |
| `TricklineKits.RecleaningLosesSingleRatchet` | slack_data/load_data/load_tricklinekits.py:50-60 | "RAT1" cleans to "Single Ratchet", which cleans again to "Other" |
| `TricklineKits.TricklineKitBuilderProperties` | slack_data/load_data/load_tricklinekits.py:74-97 | building never fails and keeps the brand id |
| `TricklineKits.AddTricklineKitsToDb` | slack_data/load_data/load_tricklinekits.py:64-106 | the loop, commit and `refresh(last)` end exactly as `Load` says; an empty batch passes unless the store rejects `refresh(None)`, which is a parameter |

## Left out

- The routers, `main.py`, `run_loader.py` and the `load_*` wrappers that read JSON and call cleaner then batch: file I/O and application wiring.
- `print` logging.
- `session.get(Brand, brand_id)`, which sets the record's brand relationship. `Batch.NoOrphanRecords` shows the brand it fetches exists.
- Reading versus flushing: `session.exec` may autoflush pending records. The model only distinguishes pending from committed, so a flush counts as neither.
- `get_currency`: its currency table is not part of this model. It is a parameter.
- Pydantic validation in `model_validate`: the enum and number types of the create-records. Fields the loaders pass through unchanged are kept as JSON values.
- The Country and Currency enumerations, and `RollerMaterial`, which no core function uses.
- Non-ASCII letters: `lower`/`upper` change only ASCII letters.
- `Values.ToStr`: floats, dicts and other objects carry their own `str` text (`VOther`). Inside a list, only strings are quoted in their `repr`, with no escaping of quotes inside the string.
- Weblocks.AddWeblocksToDb: does not model any exception that `int(...)` or `float(...)` raise on width or weight: the ValueError on a width that is not an integer literal (such as the text "25.5") or a weight that is not a float literal, and the TypeError on None (a JSON null width or weight). Width and weight are kept as the raw values.
- Webbings.AddWebbingsToDb: does not model any exception of `int(...)`/`float(...)` on width or weight: the ValueError on a width that is not an integer literal (the cleaner turns a float width 25.5 into the text "25.5", which `int(...)` rejects) or a weight that is not a float literal, and the TypeError on None (a JSON null width or weight).
- Grips.AddGripsToDb: does not model any exception of `int(...)` on `width_min`: the ValueError on text that is not an integer literal (such as "25.5"), and the TypeError on None. The grip cleaner turns an empty `width_min` into None (it is not among the fields that keep their blank), so every grip whose `width_min` is "" or null raises there in the source, and the model builds it instead.
- `session.refresh(None)` after an empty trickline batch is a library call: whether it raises is the parameter `refreshNoneRaises` of `TricklineKits.AddTricklineKitsToDb` (an error `RefreshOfNone` when it does).
- The iteration order of `dict.items()`: it does not matter. Each cleaner step reads and writes only its own key (`Cleaning.RewriteEach`).
- Concurrency: the loaders run in a single thread with one session.
