/** A worked request through the whole resolution: a product with one design on the
    front of a T-shirt, asked for in the small size with the default modifiers. The
    catalog is illustrative; its geometry is chosen so that truncation toward zero
    and rounding to nearest give different overlays. */
module Scenario {
  import opened Wrappers
  import opened Doubles
  import opened Model
  import opened Modifiers
  import opened UrlGenerator

  const SHIRT := ProductType(
    1400000000, "Men's T-Shirt",
    [View("1", Size(1200.0, 1200.0), [ViewMap("4", Offset(200.0, 40.0))])],
    [PrintArea("4", "1")])

  const CONFIG := ProductConfiguration("4", Offset(145.2, 81.6), Image("15085750", 531.0, 785.4), TYPE_DESIGN)

  const PRODUCT := Product(1478003241, "6", "4", [CONFIG])

  lemma NameSlugParts()
    ensures Slug("Men's") == "men's"
    ensures Slug("T-Shirt") == "t-shirt"
  {
  }

  lemma SpacedSlug()
    ensures Slug(" " + "T-Shirt") == "-t-shirt"
  {
    NameSlugParts();
    SlugAppend(" ", "T-Shirt");
  }

  lemma NameSlug()
    ensures Slug("Men's" + (" " + "T-Shirt")) == "men's-t-shirt"
  {
    NameSlugParts();
    SpacedSlug();
    SlugAppend("Men's", " " + "T-Shirt");
  }

  /** The product type's slug: lower-cased, the space a hyphen, the apostrophe kept. */
  lemma ShirtSlug()
    ensures Slug(SHIRT.name) == "men's-t-shirt"
  {
    NameSlug();
    assert SHIRT.name == "Men's" + (" " + "T-Shirt");
  }

  /** The design is placed at (172, 60) with size 265x392 on the 600-pixel canvas:
      (200 + 145.2) / 2, (40 + 81.6) / 2, 531 / 2 and 785.4 / 2, each truncated
      (rounding would give 173, 61, 266 and 393). */
  lemma DesignPlacement()
    ensures DesignFor(SHIRT, DEFAULT_VIEW, CONFIG) == Ok(Design("designs:15085750", 172, 60, 265, 392))
  {
    var view := SHIRT.views[0];
    assert GetView(SHIRT, DEFAULT_VIEW) == Some(view);
    assert GetViewMap(view, CONFIG.printArea) == Some(view.viewMaps[0]);
    assert CanvasScale(1200.0) == 0.5;
    assert Place(view, view.viewMaps[0], CONFIG) == Design("designs:15085750", 172, 60, 265, 392);
  }

  /** The only configuration is a design on print area 4, whose default view is 1. */
  lemma OneVisibleDesign()
    ensures MapDesigns(SHIRT, DEFAULT_VIEW, VisibleDesigns(PRODUCT, SHIRT, DEFAULT_VIEW)) ==
            Ok([Design("designs:15085750", 172, 60, 265, 392)])
  {
    assert IsPrintAreaOnView(SHIRT, CONFIG.printArea, DEFAULT_VIEW);
    assert VisibleDesigns(PRODUCT, SHIRT, DEFAULT_VIEW) == [CONFIG];
    DesignPlacement();
    var d := Design("designs:15085750", 172, 60, 265, 392);
    assert [CONFIG][1..] == [];
    assert MapDesigns(SHIRT, DEFAULT_VIEW, [CONFIG]) == Ok([d] + []);
    assert [d] + [] == [d];
  }

  /** In any catalog that holds this product and product type, the canonical request
      is served as the chain over the one placed design. */
  lemma SmallRequestIsChain(catalog: Catalog, urlEncode: string -> string)
    requires "105007578" in catalog.products && catalog.products["105007578"] == PRODUCT
    requires "6" in catalog.productTypes && catalog.productTypes["6"] == SHIRT
    ensures CreateProductImageUrl(catalog, "105007578", DefaultMods, Small, "men's-t-shirt", Auto, urlEncode) ==
            Found(ChainImage(ProductTypeImageUrl("6", DEFAULT_VIEW, "4"), DEFAULT_IMAGE_SIZE, SIZE_SMALL,
                             [Design("designs:15085750", 172, 60, 265, 392)], 1478003241, Auto))
  {
    ShirtSlug();
    OneVisibleDesign();
    CanonicalRequestIsFound(catalog, "105007578", DefaultMods, Small, Auto, urlEncode,
                            [Design("designs:15085750", 172, 60, 265, 392)]);
  }

  /** The chain over one design: base resize, the overlay, the final resize. */
  lemma OneOverlayChain()
    ensures ChainImage(ProductTypeImageUrl("6", DEFAULT_VIEW, "4"), DEFAULT_IMAGE_SIZE, SIZE_SMALL,
                       [Design("designs:15085750", 172, 60, 265, 392)], 1478003241, Auto) ==
            CdnImage(1478003241,
                     [Resize(600), Overlay("designs:15085750", NORTH_WEST, 172, 60, 265, 392), Deliver(150, AUTO, Auto)],
                     ProductTypeImageUrl("6", "1", "4"))
  {
    var d := Design("designs:15085750", 172, 60, 265, 392);
    assert seq(1, k requires 0 <= k < 1 => OverlayOf([d][k])) == [OverlayOf(d)];
  }

  /** The canonical small request with the default modifiers and `auto` format is
      served with the product's version, one overlay, and the final resize to 150
      pixels, on the photo of product type 6, view 1, in the product's appearance 4. */
  lemma SmallImageOfDesignedProduct(catalog: Catalog, urlEncode: string -> string)
    requires "105007578" in catalog.products && catalog.products["105007578"] == PRODUCT
    requires "6" in catalog.productTypes && catalog.productTypes["6"] == SHIRT
    ensures CreateProductImageUrl(catalog, "105007578", DefaultMods, Small, "men's-t-shirt", Auto, urlEncode) ==
            Found(CdnImage(1478003241,
                           [Resize(600),
                            Overlay("designs:15085750", NORTH_WEST, 172, 60, 265, 392),
                            Deliver(150, AUTO, Auto)],
                           ProductTypeImageUrl("6", "1", "4")))
  {
    SmallRequestIsChain(catalog, urlEncode);
    OneOverlayChain();
  }

  /** A stale slug in the same request is redirected to the canonical path, keeping
      the size class, the product id and the serialised modifiers. */
  lemma StaleSlugRedirects(catalog: Catalog, urlEncode: string -> string)
    requires "105007578" in catalog.products && catalog.products["105007578"] == PRODUCT
    requires "6" in catalog.productTypes && catalog.productTypes["6"] == SHIRT
    ensures CreateProductImageUrl(catalog, "105007578", DefaultMods, Medium, "seo-test", Auto, urlEncode) ==
            Redirect(RedirectUrl("medium", "105007578", "v1", urlEncode("men's-t-shirt")))
  {
    ShirtSlug();
    DefaultToken();
    assert "seo-test"[0] != "men's-t-shirt"[0];
  }

  /** The default modifiers serialise to `v1`. */
  lemma DefaultToken()
    ensures Serialize(DefaultMods) == "v1"
  {
    assert SegmentText(MOD_APPEARANCE, None) == "";
  }
}
