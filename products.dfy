/**
 * Product shapes the cart prices against, and the projection of a
 * product's integration settings to the data that may be shown publicly.
 */
module Products {
  import opened Wrappers

  /** One level of a product's option tree. */
  datatype ProductVariant = ProductVariant(name: string, options: seq<VariantOption>)

  /** An option: it may set its own price and discount, and may open a
      further level of options. */
  datatype VariantOption = VariantOption(
    name: string,
    price: Option<int>,
    discount: Option<int>,
    child: Option<ProductVariant>)

  /** The fields of a product that the cart reads. */
  datatype Product = Product(
    id: string,
    price: int,
    discount: Option<int>,
    variant: Option<ProductVariant>)

  // ---------------------------------------------------------------------
  // Integration settings and their public projection

  datatype MetaPixelEvent =
    MetaNone | MetaLead | MetaPurchase | MetaViewContent | MetaAddToCart | MetaInitiateCheckout

  datatype TiktokPixelEvent =
    | TiktokNone | TiktokViewContent | TiktokAddToWishlist | TiktokSearch | TiktokAddPaymentInfo
    | TiktokAddToCart | TiktokInitiateCheckout | TiktokPlaceAnOrder | TiktokCompleteRegistration
    | TiktokPurchase

  /** Stored settings. `extra` stands for any further properties a stored
      record carries at run time; the interfaces declare none, and the
      projections never copy them. */
  datatype MetaPixelData = MetaPixelData(
    ids: Option<seq<string>>,
    objective: Option<MetaPixelEvent>,
    draftObjective: Option<MetaPixelEvent>,
    extra: map<string, string>)

  datatype TiktokPixelData = TiktokPixelData(
    ids: Option<seq<string>>,
    objective: Option<TiktokPixelEvent>,
    draftObjective: Option<TiktokPixelEvent>,
    extra: map<string, string>)

  datatype GoogleAnalyticsData = GoogleAnalyticsData(extra: map<string, string>)

  datatype GoogleTagData = GoogleTagData(extra: map<string, string>)

  datatype GoogleSheetsData = GoogleSheetsData(
    enabled: bool,
    sheetId: Option<string>,
    sheetName: Option<string>,
    spreadsheetId: Option<string>,
    nextRow: Option<int>,
    extra: map<string, string>)

  datatype IntegrationsData = IntegrationsData(
    metaPixelData: Nullish<MetaPixelData>,
    tiktokPixelData: Nullish<TiktokPixelData>,
    googleAnalyticsData: Nullish<GoogleAnalyticsData>,
    googleTagsData: Nullish<GoogleTagData>,
    googleSheetsData: Nullish<GoogleSheetsData>)

  datatype PublicMetaPixelData = PublicMetaPixelData(
    ids: Option<seq<string>>,
    objective: Option<MetaPixelEvent>,
    draftObjective: Option<MetaPixelEvent>)

  datatype PublicTiktokPixelData = PublicTiktokPixelData(
    ids: Option<seq<string>>,
    objective: Option<TiktokPixelEvent>,
    draftObjective: Option<TiktokPixelEvent>)

  /** The object literal `{}`. */
  datatype EmptyRecord = EmptyRecord

  /** The public integration data: exactly these four properties. */
  datatype PublicIntegrationsData = PublicIntegrationsData(
    metaPixelData: Nullish<PublicMetaPixelData>,
    tiktokPixelData: Nullish<PublicTiktokPixelData>,
    googleAnalyticsData: Nullish<EmptyRecord>,
    googleTagsData: Nullish<EmptyRecord>)

  /** Both absent in the same way (undefined or null), or both present. */
  predicate SameNullness<A, B>(x: Nullish<A>, y: Nullish<B>) {
    (x.Undefined? <==> y.Undefined?) && (x.Null? <==> y.Null?)
  }

  function GeneratePublicIntegrationsDataMetaPixel(data: Nullish<MetaPixelData>): (r: Nullish<PublicMetaPixelData>)
    ensures SameNullness(data, r)
    ensures r.Defined? ==> && r.value.ids == data.value.ids
                           && r.value.objective == data.value.objective
                           && r.value.draftObjective == data.value.draftObjective
  {
    match data
    case Undefined => Undefined
    case Null => Null
    case Defined(d) => Defined(PublicMetaPixelData(d.ids, d.objective, d.draftObjective))
  }

  function GeneratePublicIntegrationsDataTiktokPixel(data: Nullish<TiktokPixelData>): (r: Nullish<PublicTiktokPixelData>)
    ensures SameNullness(data, r)
    ensures r.Defined? ==> && r.value.ids == data.value.ids
                           && r.value.objective == data.value.objective
                           && r.value.draftObjective == data.value.draftObjective
  {
    match data
    case Undefined => Undefined
    case Null => Null
    case Defined(d) => Defined(PublicTiktokPixelData(d.ids, d.objective, d.draftObjective))
  }

  function GeneratePublicIntegrationsDataGoogleAnalytics(data: Nullish<GoogleAnalyticsData>): (r: Nullish<EmptyRecord>)
    ensures SameNullness(data, r)
  {
    match data
    case Undefined => Undefined
    case Null => Null
    case Defined(_) => Defined(EmptyRecord)
  }

  function GeneratePublicIntegrationsDataGoogleTag(data: Nullish<GoogleTagData>): (r: Nullish<EmptyRecord>)
    ensures SameNullness(data, r)
  {
    match data
    case Undefined => Undefined
    case Null => Null
    case Defined(_) => Defined(EmptyRecord)
  }

  function GeneratePublicIntegrationsDataGoogleSheets(data: Nullish<GoogleSheetsData>): (r: Nullish<EmptyRecord>)
    ensures SameNullness(data, r)
  {
    match data
    case Undefined => Undefined
    case Null => Null
    case Defined(_) => Defined(EmptyRecord)
  }

  /** The public view of a product's integration settings. */
  function GeneratePublicIntegrationsData(data: Nullish<IntegrationsData>): (r: Nullish<PublicIntegrationsData>)
    ensures SameNullness(data, r)
    ensures r.Defined? ==>
      && r.value.metaPixelData == GeneratePublicIntegrationsDataMetaPixel(data.value.metaPixelData)
      && r.value.tiktokPixelData == GeneratePublicIntegrationsDataTiktokPixel(data.value.tiktokPixelData)
      && r.value.googleAnalyticsData == GeneratePublicIntegrationsDataGoogleAnalytics(data.value.googleAnalyticsData)
      && r.value.googleTagsData == GeneratePublicIntegrationsDataGoogleTag(data.value.googleTagsData)
  {
    match data
    case Undefined => Undefined
    case Null => Null
    case Defined(d) =>
      Defined(PublicIntegrationsData(
        GeneratePublicIntegrationsDataMetaPixel(d.metaPixelData),
        GeneratePublicIntegrationsDataTiktokPixel(d.tiktokPixelData),
        GeneratePublicIntegrationsDataGoogleAnalytics(d.googleAnalyticsData),
        GeneratePublicIntegrationsDataGoogleTag(d.googleTagsData)))
  }

  /** Two stored settings that agree on everything the public may see. */
  predicate PubliclyEqual(a: IntegrationsData, b: IntegrationsData) {
    && SameNullness(a.metaPixelData, b.metaPixelData)
    && (a.metaPixelData.Defined? ==>
          && a.metaPixelData.value.ids == b.metaPixelData.value.ids
          && a.metaPixelData.value.objective == b.metaPixelData.value.objective
          && a.metaPixelData.value.draftObjective == b.metaPixelData.value.draftObjective)
    && SameNullness(a.tiktokPixelData, b.tiktokPixelData)
    && (a.tiktokPixelData.Defined? ==>
          && a.tiktokPixelData.value.ids == b.tiktokPixelData.value.ids
          && a.tiktokPixelData.value.objective == b.tiktokPixelData.value.objective
          && a.tiktokPixelData.value.draftObjective == b.tiktokPixelData.value.draftObjective)
    && SameNullness(a.googleAnalyticsData, b.googleAnalyticsData)
    && SameNullness(a.googleTagsData, b.googleTagsData)
  }

  /** The public view depends on nothing else: not on the Google Sheets
      settings, not on the analytics or tag contents, not on any further
      stored property. */
  lemma PublicDataRevealsOnlyPublicFields(a: IntegrationsData, b: IntegrationsData)
    ensures PubliclyEqual(a, b) <==>
              GeneratePublicIntegrationsData(Defined(a)) == GeneratePublicIntegrationsData(Defined(b))
  {
    var ra := GeneratePublicIntegrationsData(Defined(a));
    var rb := GeneratePublicIntegrationsData(Defined(b));
    if ra == rb {
      assert ra.value.metaPixelData == rb.value.metaPixelData;
      assert ra.value.tiktokPixelData == rb.value.tiktokPixelData;
      assert ra.value.googleAnalyticsData == rb.value.googleAnalyticsData;
      assert ra.value.googleTagsData == rb.value.googleTagsData;
    }
  }
}
