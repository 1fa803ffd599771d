/** CloudinaryUrlGenerator.kt: from a request (product id, modifiers, size class, SEO
    slug, output format) to one of: not found, a redirect to the canonical SEO path, or
    a Cloudinary image built as a chain of transformation steps that composites the
    product's designs onto the product-type photo. The catalog is what the two caches
    would deliver; the Cloudinary URL is kept as a value, the chain it describes. */
module UrlGenerator {
  import opened Wrappers
  import opened Text
  import opened Doubles
  import opened Model
  import opened Modifiers

  // ---------------------------------------------------------------------------
  // Constants (CloudinaryUrlGenerator.kt:28-40, 84)

  /** The width every product photo is first scaled to; overlay positions refer to it. */
  const DEFAULT_IMAGE_SIZE := 600
  const SIZE_SMALL := 150
  const SIZE_MEDIUM := 300
  const SIZE_LARGE := 600
  const NORTH_WEST := "north_west"
  const AUTO := "auto"
  const DESIGN_LAYER_PREFIX := "designs:"

  /** The size class of a request path. */
  datatype ImageSize = Small | Medium | Large {
    /** The enum constant's name, as it appears in request and redirect paths. */
    function Name(): string {
      match this
      case Small => "small"
      case Medium => "medium"
      case Large => "large"
    }
  }

  /** translateImageSizeToValue: the target pixel width of a size class. */
  function TranslateImageSizeToValue(size: ImageSize): (w: int)
    ensures size == Small <==> w == SIZE_SMALL
    ensures size == Medium <==> w == SIZE_MEDIUM
    ensures size == Large <==> w == SIZE_LARGE
    ensures 0 < w <= DEFAULT_IMAGE_SIZE
  {
    match size
    case Small => SIZE_SMALL
    case Medium => SIZE_MEDIUM
    case _ => SIZE_LARGE
  }

  // ---------------------------------------------------------------------------
  // Catalog access (CloudinaryUrlGenerator.kt:52-80, 152-168)

  /** What the two caches can deliver: an id maps to an entity when the upstream
      catalog answers with it; an id that is absent stands for a fetch that failed. */
  datatype Catalog = Catalog(products: map<string, Product>, productTypes: map<string, ProductType>)

  /** loadSpreadshirtProduct: any failure of the cache or the fetch becomes null. */
  function LoadProduct(catalog: Catalog, productId: string): (r: Option<Product>)
    ensures r.Some? <==> productId in catalog.products
    ensures r.Some? ==> r.value == catalog.products[productId]
  {
    if productId in catalog.products then Some(catalog.products[productId]) else None
  }

  /** loadSpreadshirtProductType, likewise. */
  function LoadProductType(catalog: Catalog, productTypeId: string): (r: Option<ProductType>)
    ensures r.Some? <==> productTypeId in catalog.productTypes
    ensures r.Some? ==> r.value == catalog.productTypes[productTypeId]
  {
    if productTypeId in catalog.productTypes then Some(catalog.productTypes[productTypeId]) else None
  }

  // ---------------------------------------------------------------------------
  // SEO slug (CloudinaryUrlGenerator.kt:95-98)

  /** The canonical slug of a product-type name: lower-cased, every space a hyphen. */
  function Slug(name: string): (slug: string)
    ensures |slug| == |name|
    ensures forall i :: 0 <= i < |name| ==> slug[i] == if name[i] == ' ' then '-' else LowerAscii(name[i])
  {
    if name == [] then [] else [if name[0] == ' ' then '-' else LowerAscii(name[0])] + Slug(name[1..])
  }

  /** A slug has no spaces and no ASCII capitals, so it is its own slug: a canonical path
      never redirects to itself. */
  lemma SlugIsCanonical(name: string)
    ensures forall i :: 0 <= i < |Slug(name)| ==> Slug(name)[i] != ' ' && !IsUpperAscii(Slug(name)[i])
    ensures Slug(Slug(name)) == Slug(name)
  {
    var s := Slug(name);
    assert forall i :: 0 <= i < |s| ==> s[i] != ' ' && !IsUpperAscii(s[i]);
    assert forall i :: 0 <= i < |s| ==> Slug(s)[i] == s[i];
  }

  /** Slugging works character by character: the slug of a concatenation is the
      concatenation of the slugs. */
  lemma {:induction false} SlugAppend(a: string, b: string)
    ensures Slug(a + b) == Slug(a) + Slug(b)
  {
    if a == [] {
      assert a + b == b;
    } else {
      assert (a + b)[0] == a[0];
      assert (a + b)[1..] == a[1..] + b;
      SlugAppend(a[1..], b);
    }
  }

  /** REDIRECT_URL_PRODUCT: `/products/<size>/<productId>/<mods>/<slug>.jpg`. */
  function RedirectUrl(sizeName: string, productId: string, modsToken: string, encodedSlug: string): (url: string)
    ensures |url| == |"/products/"| + |sizeName| + 1 + |productId| + 1 + |modsToken| + 1 + |encodedSlug| + |".jpg"|
    ensures url[..|"/products/"|] == "/products/"
    ensures url[|url| - |".jpg"|..] == ".jpg"
    ensures url[|"/products/"|..|"/products/"| + |sizeName|] == sizeName
    ensures url[|url| - |".jpg"| - |encodedSlug|..|url| - |".jpg"|] == encodedSlug
    ensures var p := |"/products/"| + |sizeName|;
            url[p] == '/' && url[p + 1..p + 1 + |productId|] == productId
    ensures var p := |"/products/"| + |sizeName| + 1 + |productId|;
            url[p] == '/' && url[p + 1..p + 1 + |modsToken|] == modsToken
    ensures url[|url| - |".jpg"| - |encodedSlug| - 1] == '/'
  {
    "/products/" + sizeName + "/" + productId + "/" + modsToken + "/" + encodedSlug + ".jpg"
  }

  /** The redirect path is routed back to the request it names: between the leading
      `/` and the `.jpg`, its segments are `products`, the size name, the product id,
      the modifier token and the encoded slug, whenever none of those holds a `/`. */
  lemma RedirectUrlRoutesBack(sizeName: string, productId: string, modsToken: string, encodedSlug: string)
    requires '/' !in sizeName && '/' !in productId && '/' !in modsToken && '/' !in encodedSlug
    ensures var url := RedirectUrl(sizeName, productId, modsToken, encodedSlug);
            url[0] == '/' && url[|url| - |".jpg"|..] == ".jpg" &&
            Segments(url[1..|url| - |".jpg"|]) == ["products", sizeName, productId, modsToken, encodedSlug]
  {
    RedirectUrlPath(sizeName, productId, modsToken, encodedSlug);
    RouteSegments(sizeName, productId, modsToken, encodedSlug);
  }

  /** Between its leading `/` and its `.jpg`, the redirect path is the route's five
      segments joined by `/`. */
  lemma RedirectUrlPath(sizeName: string, productId: string, modsToken: string, encodedSlug: string)
    ensures var url := RedirectUrl(sizeName, productId, modsToken, encodedSlug);
            url[0] == '/' && url[|url| - |".jpg"|..] == ".jpg" &&
            url[1..|url| - |".jpg"|] == "products" + "/" + (sizeName + "/" + (productId + "/" + (modsToken + "/" + encodedSlug)))
  {
    var url := RedirectUrl(sizeName, productId, modsToken, encodedSlug);
    var t2 := sizeName + "/" + (productId + "/" + (modsToken + "/" + encodedSlug));
    assert url == "/products/" + t2 + ".jpg";
    UnframeJpgPath(url, t2);
  }

  /** `/products/` + rest + `.jpg` has `products/` + rest between its leading `/` and
      its `.jpg`. */
  lemma UnframeJpgPath(url: string, rest: string)
    requires url == "/products/" + rest + ".jpg"
    ensures url[0] == '/' && url[|url| - |".jpg"|..] == ".jpg" && url[1..|url| - |".jpg"|] == "products" + "/" + rest
  {
    assert "/products/" == ['/'] + ("products" + "/");
  }

  /** Five separator-free segments joined by `/` split back into themselves. */
  lemma RouteSegments(sizeName: string, productId: string, modsToken: string, encodedSlug: string)
    requires '/' !in sizeName && '/' !in productId && '/' !in modsToken && '/' !in encodedSlug
    ensures Segments("products" + "/" + (sizeName + "/" + (productId + "/" + (modsToken + "/" + encodedSlug)))) ==
            ["products", sizeName, productId, modsToken, encodedSlug]
  {
    var t4 := modsToken + "/" + encodedSlug;
    var t3 := productId + "/" + t4;
    var t2 := sizeName + "/" + t3;
    SegmentsOfPlain(encodedSlug);
    SegmentsSplit(modsToken, encodedSlug);
    SegmentsSplit(productId, t4);
    SegmentsSplit(sizeName, t3);
    assert '/' !in "products";
    SegmentsSplit("products", t2);
  }

  /** IMAGE_URL_PRODUCT_TYPE: the product-type photo the designs are composited onto,
      uploaded at 1200x1200. */
  function ProductTypeImageUrl(productTypeId: string, viewId: string, appearanceId: string): (path: string)
    ensures |path| == |"/productTypes/"| + |productTypeId| + |"/views/"| + |viewId| + |"/appearances/"| +
                      |appearanceId| + |",width=1200,height=1200,mediaType=png"|
    ensures path[..|"/productTypes/"|] == "/productTypes/"
    ensures path[|path| - |",width=1200,height=1200,mediaType=png"|..] == ",width=1200,height=1200,mediaType=png"
    ensures var p := |"/productTypes/"|;
            path[p..p + |productTypeId|] == productTypeId
    ensures var p := |"/productTypes/"| + |productTypeId|;
            path[p..p + |"/views/"|] == "/views/" && path[p + |"/views/"|..p + |"/views/"| + |viewId|] == viewId
    ensures var p := |"/productTypes/"| + |productTypeId| + |"/views/"| + |viewId|;
            path[p..p + |"/appearances/"|] == "/appearances/" &&
            path[p + |"/appearances/"|..p + |"/appearances/"| + |appearanceId|] == appearanceId
  {
    "/productTypes/" + productTypeId + "/views/" + viewId + "/appearances/" + appearanceId +
    ",width=1200,height=1200,mediaType=png"
  }

  // ---------------------------------------------------------------------------
  // Design selection (CloudinaryUrlGenerator.kt:101-104)

  function IsDesign(c: ProductConfiguration): bool {
    c.kind == TYPE_DESIGN
  }

  /** The configurations drawn on the requested view: designs whose print area has
      that view as its default view, in the product's order. */
  function VisibleDesigns(product: Product, pt: ProductType, viewId: string): (visible: seq<ProductConfiguration>)
    ensures |visible| <= |product.configurations|
    ensures forall k :: 0 <= k < |visible| ==>
              visible[k].kind == TYPE_DESIGN && IsPrintAreaOnView(pt, visible[k].printArea, viewId)
  {
    var designs := Filter(product.configurations, IsDesign);
    var visible := Filter(designs, (c: ProductConfiguration) => IsPrintAreaOnView(pt, c.printArea, viewId));
    forall k | 0 <= k < |visible| ensures visible[k].kind == TYPE_DESIGN {
      FilterMembers(designs, (c: ProductConfiguration) => IsPrintAreaOnView(pt, c.printArea, viewId), visible[k]);
      FilterMembers(product.configurations, IsDesign, visible[k]);
    }
    visible
  }

  /** Exactly the design configurations whose print area is on the view are kept, and
      never more entries than the product has. */
  lemma VisibleDesignsMembers(product: Product, pt: ProductType, viewId: string, c: ProductConfiguration)
    ensures c in VisibleDesigns(product, pt, viewId) <==>
            c in product.configurations && c.kind == TYPE_DESIGN && IsPrintAreaOnView(pt, c.printArea, viewId)
    ensures |VisibleDesigns(product, pt, viewId)| <= |product.configurations|
  {
    var designs := Filter(product.configurations, IsDesign);
    FilterMembers(product.configurations, IsDesign, c);
    FilterMembers(designs, (c: ProductConfiguration) => IsPrintAreaOnView(pt, c.printArea, viewId), c);
  }

  /** The selection keeps the stacking order: it distributes over a split of the
      configuration list. */
  lemma VisibleDesignsKeepOrder(product: Product, pt: ProductType, viewId: string, front: seq<ProductConfiguration>, back: seq<ProductConfiguration>)
    requires product.configurations == front + back
    ensures VisibleDesigns(product, pt, viewId) ==
            VisibleDesigns(product.(configurations := front), pt, viewId) + VisibleDesigns(product.(configurations := back), pt, viewId)
  {
    FilterAppend(front, back, IsDesign);
    FilterAppend(Filter(front, IsDesign), Filter(back, IsDesign), (c: ProductConfiguration) => IsPrintAreaOnView(pt, c.printArea, viewId));
  }

  // ---------------------------------------------------------------------------
  // Overlay geometry (CloudinaryUrlGenerator.kt:105-128)

  /** What goes wrong in the source's unchecked `.get(0)` lookups. */
  datatype Fault = MissingView(viewId: string) | MissingViewMap(viewId: string, printAreaId: string)

  /** The factor from catalog units to canvas pixels for a non-zero view dimension. */
  function CanvasScale(size: real): real
    requires size != 0.0
  {
    DEFAULT_IMAGE_SIZE as real / size
  }

  /** `defaultImageSize.toDouble() / size`: +Infinity for a zero size. */
  function ScaleFactor(size: real): (f: Double)
    ensures size != 0.0 ==> f == Finite(CanvasScale(size))
    ensures size == 0.0 ==> f == PosInf
  {
    Divide(DEFAULT_IMAGE_SIZE as real, size)
  }

  /** A position on the canvas along an axis of catalog size `size`: the view map's
      anchor and the configuration's offset, each multiplied by the scale factor,
      summed, then `toInt()`. On a zero-size axis both products are infinite, or NaN
      for a zero term. */
  function Coordinate(anchor: real, offset: real, size: real): (n: int)
    ensures size != 0.0 ==> n == RealToInt((anchor + offset) * CanvasScale(size))
    ensures size == 0.0 && anchor > 0.0 && offset > 0.0 ==> n == INT_MAX
    ensures size == 0.0 && (anchor == 0.0 || offset == 0.0) ==> n == 0
  {
    var scale := ScaleFactor(size);
    var sum := Plus(Times(anchor, scale), Times(offset, scale));
    assert size != 0.0 ==> sum == Finite((anchor + offset) * CanvasScale(size)) by {
      if size != 0.0 {
        var f := CanvasScale(size);
        assert Times(anchor, scale) == Finite(anchor * f);
        assert Times(offset, scale) == Finite(offset * f);
        assert anchor * f + offset * f == (anchor + offset) * f;
      }
    }
    ToInt(sum)
  }

  /** A length on the canvas along an axis of catalog size `size`: the catalog length
      times the scale factor, `toInt()`; a zero-size axis saturates. */
  function Extent(length: real, size: real): (n: int)
    ensures size != 0.0 ==> n == RealToInt(length * CanvasScale(size))
    ensures size == 0.0 ==> n == (if length > 0.0 then INT_MAX else if length < 0.0 then INT_MIN else 0)
  {
    var scale := ScaleFactor(size);
    assert size != 0.0 ==> Times(length, scale) == Finite(length * CanvasScale(size));
    ToInt(Times(length, scale))
  }

  /** The overlay for one configuration, given its view and the view map of its print
      area: the layer is named after the design, horizontal placement is scaled by the
      view's width and vertical placement by its height. */
  function Place(view: View, viewMap: ViewMap, config: ProductConfiguration): (d: Design)
    ensures d.name == DESIGN_LAYER_PREFIX + config.image.designId
    ensures d.x == Coordinate(viewMap.offset.x, config.offset.x, view.size.width)
    ensures d.width == Extent(config.image.width, view.size.width)
    ensures d.y == Coordinate(viewMap.offset.y, config.offset.y, view.size.height)
    ensures d.height == Extent(config.image.height, view.size.height)
  {
    Design(DESIGN_LAYER_PREFIX + config.image.designId,
           Coordinate(viewMap.offset.x, config.offset.x, view.size.width),
           Coordinate(viewMap.offset.y, config.offset.y, view.size.height),
           Extent(config.image.width, view.size.width),
           Extent(config.image.height, view.size.height))
  }

  /** The source's per-configuration lambda: look up the requested view and the view
      map of the configuration's print area, then place the overlay. A missing view or
      view map is a fault (the source throws). */
  function DesignFor(pt: ProductType, viewId: string, config: ProductConfiguration): (r: Result<Design, Fault>)
    ensures GetView(pt, viewId).None? ==> r == Err(MissingView(viewId))
    ensures GetView(pt, viewId).Some? && GetViewMap(GetView(pt, viewId).value, config.printArea).None? ==>
              r == Err(MissingViewMap(viewId, config.printArea))
    ensures r.Ok? <==> GetView(pt, viewId).Some? && GetViewMap(GetView(pt, viewId).value, config.printArea).Some?
    ensures r.Ok? ==>
              r.value == Place(GetView(pt, viewId).value, GetViewMap(GetView(pt, viewId).value, config.printArea).value, config)
  {
    match GetView(pt, viewId)
    case None => Err(MissingView(viewId))
    case Some(view) =>
      match GetViewMap(view, config.printArea)
      case None => Err(MissingViewMap(viewId, config.printArea))
      case Some(viewMap) => Ok(Place(view, viewMap, config))
  }

  /** Kotlin's `map` over the visible configurations: the overlays in order, or the
      fault of the first configuration whose lookup fails. */
  function MapDesigns(pt: ProductType, viewId: string, configs: seq<ProductConfiguration>): (r: Result<seq<Design>, Fault>)
    ensures r.Ok? ==> |r.value| == |configs| &&
                      forall k :: 0 <= k < |configs| ==> DesignFor(pt, viewId, configs[k]) == Ok(r.value[k])
    ensures r.Err? ==> exists i :: 0 <= i < |configs| && DesignFor(pt, viewId, configs[i]) == Err(r.error) &&
                                   forall j :: 0 <= j < i ==> DesignFor(pt, viewId, configs[j]).Ok?
  {
    MapAll(configs, (c: ProductConfiguration) => DesignFor(pt, viewId, c))
  }

  // ---------------------------------------------------------------------------
  // The transformation chain (CloudinaryUrlGenerator.kt:137-149)

  /** One component of a Cloudinary transformation chain. Every component uses the
      `scale` crop mode. */
  datatype Step =
    | Resize(width: int)
      // `l_<layer>`, gravity, position and size of an overlay
    | Overlay(layer: string, gravity: string, x: int, y: int, width: int, height: int)
      // final resize with quality and delivery format
    | Deliver(width: int, quality: string, format: Format)

  /** A Cloudinary image: version stamp, transformation chain, public id of the photo. */
  datatype CdnImage = CdnImage(version: int, transformation: seq<Step>, publicId: string)

  function OverlayOf(d: Design): Step {
    Overlay(d.name, NORTH_WEST, d.x, d.y, d.width, d.height)
  }

  /** The image generateProductImageUrl describes. */
  function ChainImage(productType: string, defaultImageSize: int, targetImageSize: int, designs: seq<Design>,
                      version: int, format: Format): (image: CdnImage)
    ensures |image.transformation| == |designs| + 2
    ensures image.transformation[0] == Resize(defaultImageSize)
    ensures forall k :: 0 <= k < |designs| ==> image.transformation[k + 1] == OverlayOf(designs[k])
    ensures image.transformation[|designs| + 1] == Deliver(targetImageSize, AUTO, format)
    ensures image.version == version && image.publicId == productType
  {
    var overlays := seq(|designs|, k requires 0 <= k < |designs| => OverlayOf(designs[k]));
    CdnImage(version, [Resize(defaultImageSize)] + overlays + [Deliver(targetImageSize, AUTO, format)], productType)
  }

  /** generateProductImageUrl: scale the photo to the base width, chain one overlay per
      design in order, then chain the final resize to the target width with automatic
      quality and the requested format. */
  method GenerateProductImageUrl(productType: string, defaultImageSize: int, targetImageSize: int, designs: seq<Design>,
                                 version: int, format: Format) returns (image: CdnImage)
    ensures |image.transformation| == |designs| + 2
    ensures image.transformation[0] == Resize(defaultImageSize)
    ensures forall k :: 0 <= k < |designs| ==> image.transformation[k + 1] == OverlayOf(designs[k])
    ensures image.transformation[|designs| + 1] == Deliver(targetImageSize, AUTO, format)
    ensures image.version == version && image.publicId == productType
    ensures image == ChainImage(productType, defaultImageSize, targetImageSize, designs, version, format)
  {
    var chain := [Resize(defaultImageSize)];
    var i := 0;
    while i < |designs|
      invariant 0 <= i <= |designs|
      invariant |chain| == i + 1 && chain[0] == Resize(defaultImageSize)
      invariant forall k :: 0 <= k < i ==> chain[k + 1] == OverlayOf(designs[k])
    {
      chain := chain + [OverlayOf(designs[i])];
      i := i + 1;
    }
    chain := chain + [Deliver(targetImageSize, AUTO, format)];
    image := CdnImage(version, chain, productType);
  }

  // ---------------------------------------------------------------------------
  // The whole resolution (CloudinaryUrlGenerator.kt:83-135)

  /** The outcome of createProductImageUrl. `Failed` stands for the exception that
      escapes when a visible design's view or view map is missing. */
  datatype ProductImage =
    | NotFound
    | Redirect(redirectUrl: string)
    | Found(imageUrl: CdnImage)
    | Failed(fault: Fault)

  /** The appearance shown: the request's override if any, unchecked, else the product's. */
  function AppearanceId(product: Product, mods: Mods): (appearance: string)
    ensures mods.appearance.Some? ==> appearance == mods.appearance.value
    ensures mods.appearance.None? ==> appearance == product.appearance
  {
    mods.appearance.GetOr(product.appearance)
  }

  /** The image version: the product type's while no design is drawn on the view,
      otherwise the product's, so that changing a design invalidates cached images. */
  function ImageVersion(product: Product, pt: ProductType, designs: seq<Design>): (version: int)
    ensures designs == [] ==> version == pt.version
    ensures designs != [] ==> version == product.version
  {
    if designs == [] then pt.version else product.version
  }

  /** createProductImageUrl. `urlEncode` is java.net.URLEncoder.encode. */
  function CreateProductImageUrl(catalog: Catalog, productId: string, mods: Mods, imageSize: ImageSize,
                                 seoPart: string, format: Format, urlEncode: string -> string): (r: ProductImage)
    // not found: the product, or its product type, cannot be loaded
    ensures r.NotFound? <==>
              productId !in catalog.products || catalog.products[productId].productType !in catalog.productTypes
    // a stale slug redirects to the canonical path, keeping size, id and modifiers
    ensures r.Redirect? <==>
              productId in catalog.products && catalog.products[productId].productType in catalog.productTypes &&
              seoPart != Slug(catalog.productTypes[catalog.products[productId].productType].name)
    ensures r.Redirect? ==>
              var pt := catalog.productTypes[catalog.products[productId].productType];
              r.redirectUrl == RedirectUrl(imageSize.Name(), productId, Serialize(mods), urlEncode(Slug(pt.name)))
    // otherwise the visible designs are placed, or the first failing lookup is reported
    ensures r.Found? || r.Failed? ==>
              var product := catalog.products[productId];
              var pt := catalog.productTypes[product.productType];
              var visible := VisibleDesigns(product, pt, mods.view);
              seoPart == Slug(pt.name) &&
              (r.Failed? <==> MapDesigns(pt, mods.view, visible).Err?) &&
              (r.Failed? ==> r.fault == MapDesigns(pt, mods.view, visible).error)
    ensures r.Found? ==>
              var product := catalog.products[productId];
              var pt := catalog.productTypes[product.productType];
              var visible := VisibleDesigns(product, pt, mods.view);
              var designs := MapDesigns(pt, mods.view, visible).value;
              r.imageUrl.version == (if visible == [] then pt.version else product.version) &&
              r.imageUrl.publicId == ProductTypeImageUrl(product.productType, mods.view, AppearanceId(product, mods)) &&
              r.imageUrl.transformation ==
                [Resize(DEFAULT_IMAGE_SIZE)] +
                seq(|designs|, k requires 0 <= k < |designs| => OverlayOf(designs[k])) +
                [Deliver(TranslateImageSizeToValue(imageSize), AUTO, format)]
  {
    var targetImageSize := TranslateImageSizeToValue(imageSize);
    match LoadProduct(catalog, productId)
    case None => NotFound
    case Some(product) =>
      var productTypeId := product.productType;
      var appearanceId := AppearanceId(product, mods);
      var viewId := mods.view;
      match LoadProductType(catalog, productTypeId)
      case None => NotFound
      case Some(productType) =>
        var generatedSeoPart := Slug(productType.name);
        if seoPart != generatedSeoPart then
          Redirect(RedirectUrl(imageSize.Name(), productId, Serialize(mods), urlEncode(generatedSeoPart)))
        else
          var productTypeImageUrl := ProductTypeImageUrl(productTypeId, viewId, appearanceId);
          var visible := VisibleDesigns(product, productType, viewId);
          match MapDesigns(productType, viewId, visible)
          case Err(fault) => Failed(fault)
          case Ok(designs) =>
            var imageVersion := ImageVersion(product, productType, designs);
            Found(ChainImage(productTypeImageUrl, DEFAULT_IMAGE_SIZE, targetImageSize, designs, imageVersion, format))
  }

  // ---------------------------------------------------------------------------
  // Properties of the resolution

  /** Following a redirect lands on the canonical path: the request built from the
      redirect's modifier token and slug is not redirected again, and it asks for the
      same view and appearance as the original request. */
  lemma RedirectIsFinal(catalog: Catalog, productId: string, token: string, imageSize: ImageSize,
                        seoPart: string, format: Format, urlEncode: string -> string)
    requires CreateProductImageUrl(catalog, productId, Decode(token), imageSize, seoPart, format, urlEncode).Redirect?
    ensures var pt := catalog.productTypes[catalog.products[productId].productType];
            var again := Decode(Serialize(Decode(token)));
            again == Decode(token) &&
            !CreateProductImageUrl(catalog, productId, again, imageSize, Slug(pt.name), format, urlEncode).Redirect? &&
            !CreateProductImageUrl(catalog, productId, again, imageSize, Slug(pt.name), format, urlEncode).NotFound?
  {
    ParseOfCanonicalToken(token);
  }

  /** The redirect of a parsed request names that request again: routed by
      `/products/{size}/{productId}/{mods}/{seo}.jpg`, it yields the requested size,
      the product id, a modifier token that parses to the same modifiers, and the
      encoded canonical slug. URLEncoder escapes `/`, and a path variable cannot
      hold one. */
  lemma RedirectRoutesBack(catalog: Catalog, productId: string, token: string, imageSize: ImageSize,
                           seoPart: string, format: Format, urlEncode: string -> string)
    requires CreateProductImageUrl(catalog, productId, Decode(token), imageSize, seoPart, format, urlEncode).Redirect?
    requires '/' !in productId
    requires '/' !in urlEncode(Slug(catalog.productTypes[catalog.products[productId].productType].name))
    ensures var url := CreateProductImageUrl(catalog, productId, Decode(token), imageSize, seoPart, format, urlEncode).redirectUrl;
            var pt := catalog.productTypes[catalog.products[productId].productType];
            var parts := Segments(url[1..|url| - |".jpg"|]);
            url[0] == '/' && url[|url| - |".jpg"|..] == ".jpg" &&
            parts == ["products", imageSize.Name(), productId, Serialize(Decode(token)), urlEncode(Slug(pt.name))] &&
            Decode(parts[3]) == Decode(token)
  {
    var pt := catalog.productTypes[catalog.products[productId].productType];
    CanonicalTokenIsOneSegment(token);
    RedirectUrlRoutesBack(imageSize.Name(), productId, Serialize(Decode(token)), urlEncode(Slug(pt.name)));
    ParseOfCanonicalToken(token);
  }

  /** A canonical request whose visible designs all place successfully is served as
      the chain over those designs, on the photo of the requested view in the chosen
      appearance, stamped with the version ImageVersion picks. */
  lemma CanonicalRequestIsFound(catalog: Catalog, productId: string, mods: Mods, imageSize: ImageSize,
                                format: Format, urlEncode: string -> string, designs: seq<Design>)
    requires productId in catalog.products
    requires catalog.products[productId].productType in catalog.productTypes
    requires var product := catalog.products[productId];
             var pt := catalog.productTypes[product.productType];
             MapDesigns(pt, mods.view, VisibleDesigns(product, pt, mods.view)) == Ok(designs)
    ensures var product := catalog.products[productId];
            var pt := catalog.productTypes[product.productType];
            CreateProductImageUrl(catalog, productId, mods, imageSize, Slug(pt.name), format, urlEncode) ==
            Found(ChainImage(ProductTypeImageUrl(product.productType, mods.view, AppearanceId(product, mods)),
                             DEFAULT_IMAGE_SIZE, TranslateImageSizeToValue(imageSize), designs,
                             ImageVersion(product, pt, designs), format))
  {
  }

  /** A product with no design on the requested view is served as the bare product
      type photo: the chain is just the two resizes and the version is the product
      type's. */
  lemma BareProductUsesProductTypeVersion(catalog: Catalog, productId: string, mods: Mods, imageSize: ImageSize,
                                          seoPart: string, format: Format, urlEncode: string -> string)
    requires productId in catalog.products
    requires catalog.products[productId].productType in catalog.productTypes
    requires var product := catalog.products[productId];
             forall c :: c in product.configurations ==>
               c.kind != TYPE_DESIGN || !IsPrintAreaOnView(catalog.productTypes[product.productType], c.printArea, mods.view)
    requires seoPart == Slug(catalog.productTypes[catalog.products[productId].productType].name)
    ensures var r := CreateProductImageUrl(catalog, productId, mods, imageSize, seoPart, format, urlEncode);
            r.Found? &&
            r.imageUrl.version == catalog.productTypes[catalog.products[productId].productType].version &&
            |r.imageUrl.transformation| == 2
  {
    var product := catalog.products[productId];
    var pt := catalog.productTypes[product.productType];
    var visible := VisibleDesigns(product, pt, mods.view);
    if visible != [] {
      VisibleDesignsMembers(product, pt, mods.view, visible[0]);
      assert false;
    }
  }

  /** A product with a design drawn on the requested view, in a catalog whose view and
      view maps are complete, is served with the product's version and one overlay per
      visible design. */
  lemma DesignedProductUsesProductVersion(catalog: Catalog, productId: string, mods: Mods, imageSize: ImageSize,
                                          seoPart: string, format: Format, urlEncode: string -> string,
                                          c: ProductConfiguration)
    requires productId in catalog.products
    requires catalog.products[productId].productType in catalog.productTypes
    requires var product := catalog.products[productId];
             var pt := catalog.productTypes[product.productType];
             c in product.configurations && c.kind == TYPE_DESIGN && IsPrintAreaOnView(pt, c.printArea, mods.view)
    requires seoPart == Slug(catalog.productTypes[catalog.products[productId].productType].name)
    ensures var r := CreateProductImageUrl(catalog, productId, mods, imageSize, seoPart, format, urlEncode);
            var product := catalog.products[productId];
            r.Found? ==> r.imageUrl.version == product.version &&
                         |r.imageUrl.transformation| == |VisibleDesigns(product, catalog.productTypes[product.productType], mods.view)| + 2
  {
    var product := catalog.products[productId];
    var pt := catalog.productTypes[product.productType];
    VisibleDesignsMembers(product, pt, mods.view, c);
  }

  /** A missing view is harmless while nothing is drawn on it, and a fault as soon as
      one design is. */
  lemma MissingViewFaultsOnlyWithDesigns(catalog: Catalog, productId: string, mods: Mods, imageSize: ImageSize,
                                         seoPart: string, format: Format, urlEncode: string -> string)
    requires productId in catalog.products
    requires catalog.products[productId].productType in catalog.productTypes
    requires seoPart == Slug(catalog.productTypes[catalog.products[productId].productType].name)
    requires GetView(catalog.productTypes[catalog.products[productId].productType], mods.view).None?
    ensures var r := CreateProductImageUrl(catalog, productId, mods, imageSize, seoPart, format, urlEncode);
            var product := catalog.products[productId];
            var visible := VisibleDesigns(product, catalog.productTypes[product.productType], mods.view);
            (visible == [] ==> r.Found?) && (visible != [] ==> r == Failed(MissingView(mods.view)))
  {
  }
}
