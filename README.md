# cloudinary-image-server: the request-to-image decision, in Dafny

The image server answers `/products/<size>/<productId>/<mods>/<slug>.jpg`. It loads the product and its product type from the catalog and then does one of three things:

- It answers "not found" when either entity cannot be loaded.
- It redirects to the canonical path when the slug is not the product type's name, lower-cased and hyphenated.
- Otherwise it builds a Cloudinary image. The chain first scales the product-type photo of the requested view and appearance to 600 pixels. It then lays each visible design over the photo at its scaled position, and finally scales to the requested size with automatic quality and the negotiated format.

This project models that decision and proves what it promises. Its modules are:

- **Modifiers**: the modifier token `v<digits>a<digits>`. `Parse` reproduces the source's loop over the regular-expression groups, and `ValueOf` builds the canonical token. The module proves their round trip, which prefix is read, and the greedy matching.
- **Model**: the catalog records, the first-match lookups `GetView`/`GetViewMap` (as `Option`), the print-area test, and the format negotiation from the User-Agent header.
- **Doubles**: the part of Kotlin `Double` the geometry needs. Finite values are exact reals. A zero view size gives `+Infinity`, and `toInt()` truncates toward zero, saturates at the 32-bit bounds and maps NaN to 0.
- **UrlGenerator**: `CreateProductImageUrl` with its three outcomes. It also covers the visible-design selection, the overlay geometry and the version stamp. `GenerateProductImageUrl` is a loop that appends one overlay step per design to the chain.
- **Scenario**: one request worked through end to end, in the size, slug and format of the repository's unit test. It uses an illustrative catalog.
- **Text** and **Wrappers**: digits, substring search, ASCII lower-casing, splitting a path at `/`, `Option` and `Result`.

The two loaders swallow every exception and return null. The catalog they read is a value, `Catalog`, made of two maps; an id that is absent stands for a failed fetch. `java.net.URLEncoder.encode` is a function parameter `urlEncode`.

Where the source throws, the model returns a value. A design whose view or view map is missing makes the source's `.get(0)` throw out of `createProductImageUrl`. The model returns `Failed(fault)` for that case, naming the missing view or view map.

Overlay coordinates go through `toInt()`, which truncates toward zero; the model truncates.

The redirect carries the serialised *parsed* modifiers, not the token that was requested. A request for `a4` therefore redirects with `v1a4`.

## Model

| member | source | states |
|---|---|---|
| Modifiers.MatchGroups | src/main/kotlin/net/sprd/cloudinaryimageserver/Model.kt:78-83 | `find()` on `((v)(\d*))?((a)(\d*))?` yields 7 groups, group 0 being the match. A key group is present exactly when its digits group is, and holds its key letter. |
| Modifiers.Matched | src/main/kotlin/net/sprd/cloudinaryimageserver/Model.kt:78-83 | The first match is a prefix of the token: it always starts at index 0. |
| Modifiers.Decode | src/main/kotlin/net/sprd/cloudinaryimageserver/Model.kt:80-98 | Parsing never fails. The view and appearance read are digit strings. A token that is empty or starts with neither `v` nor `a` gives view "1" and no appearance. |
| Modifiers.Parse | src/main/kotlin/net/sprd/cloudinaryimageserver/Model.kt:80-98 | The loop over group pairs (`i += 3`, up to `groupCount()`) stores each present key's digits in the field the key names. Its result is `Decode` of the token. |
| Modifiers.ValueOf | src/main/kotlin/net/sprd/cloudinaryimageserver/Model.kt:69-75 | The token is built as `v` + view, then `a` + appearance only when an appearance is set. The result is `Serialize` of the modifiers. |
| Modifiers.DecodeSerialize | src/main/kotlin/net/sprd/cloudinaryimageserver/Model.kt:69-98 | Modifiers made of digit strings are read back unchanged from their token. |
| Modifiers.TokenRoundTrip | src/main/kotlin/net/sprd/cloudinaryimageserver/Model.kt:69-98 | Every token `v<d1>`, optionally followed by `a<d2>`, with digit strings d1 and d2 (possibly empty), survives parse-then-serialise unchanged. |
| Modifiers.ParseOfCanonicalToken | src/main/kotlin/net/sprd/cloudinaryimageserver/Model.kt:69-98 | Parsing the canonical token of any parse result gives that result again. |
| Modifiers.CanonicalTokenIsOneSegment | src/main/kotlin/net/sprd/cloudinaryimageserver/Model.kt:69-75 | The canonical token of any parse contains no `/`, so it fits in one path segment. |
| Modifiers.DecodeReadsMatchOnly | src/main/kotlin/net/sprd/cloudinaryimageserver/Model.kt:78-96 | Only the matched prefix is read: the parse of a token equals the parse of its match. |
| Modifiers.MatchedInPattern | src/main/kotlin/net/sprd/cloudinaryimageserver/Model.kt:78 | The match is a word of the pattern: an optional `v<digits>` followed by an optional `a<digits>`. |
| Modifiers.MatchedIsLongest | src/main/kotlin/net/sprd/cloudinaryimageserver/Model.kt:78-83 | No longer prefix of the token is a word of the pattern, so the match is the greedy one. |
| Modifiers.AppearanceOnlyToken | src/main/kotlin/net/sprd/cloudinaryimageserver/Model.kt:78-96 | A token that opens with `a<digits>`, the digits being its whole leading digit run, keeps view "1" and takes that appearance, whatever follows the digit run. |
| Modifiers.ViewToken | src/main/kotlin/net/sprd/cloudinaryimageserver/Model.kt:78-96 | `v<d1>[a<d2>]` followed by text that cannot extend the match decodes to `(d1, d2)`. |
| Modifiers.AppearanceFirstExample | src/main/kotlin/net/sprd/cloudinaryimageserver/Model.kt:78-96 | `a4v2` gives view "1" and appearance "4": `v` must come before `a`. |
| Modifiers.CanonicalFormExample | src/main/kotlin/net/sprd/cloudinaryimageserver/Model.kt:69-96 | `a4` serialises back as `v1a4`. |
| Modifiers.TrailingTextExample | src/main/kotlin/net/sprd/cloudinaryimageserver/Model.kt:78-96 | `v2a4xyz` reads as view "2", appearance "4": trailing text is ignored. |
| Modifiers.EmptyViewExample | src/main/kotlin/net/sprd/cloudinaryimageserver/Model.kt:86-91 | A bare `v` sets the view to the empty string, not to the default. |
| Model.IsPrintAreaOnView | src/main/kotlin/net/sprd/cloudinaryimageserver/Model.kt:45-49 | True exactly when some print area has this id and this default view. |
| Model.GetView | src/main/kotlin/net/sprd/cloudinaryimageserver/Model.kt:51 | Returns the first view with this id. It is `None` exactly when no view has the id, which is where the source throws. |
| Model.GetViewMap | src/main/kotlin/net/sprd/cloudinaryimageserver/Model.kt:56 | Returns the first view map for this print area. It is `None` exactly when there is none, which is where the source throws. |
| Model.Filter | src/main/kotlin/net/sprd/cloudinaryimageserver/Model.kt:46-48 | `List.filter`: the result is no longer than the list and every element of it satisfies the predicate. |
| Model.FilterMembers | src/main/kotlin/net/sprd/cloudinaryimageserver/Model.kt:46-48 | An element survives the filter exactly when it is in the list and satisfies the predicate. |
| Model.FilterAppend | src/main/kotlin/net/sprd/cloudinaryimageserver/CloudinaryUrlGenerator.kt:101-104 | Filtering a concatenation filters each part in turn, so the order of the list is kept. |
| Model.FilterHead | src/main/kotlin/net/sprd/cloudinaryimageserver/Model.kt:51 | The head of a non-empty filter result is the first element of the list that satisfies the predicate (what `.get(0)` returns). |
| Model.FilterEmpty | src/main/kotlin/net/sprd/cloudinaryimageserver/Model.kt:49 | The filter result is empty exactly when no element satisfies the predicate (`isEmpty()`). |
| Model.MapAll | src/main/kotlin/net/sprd/cloudinaryimageserver/CloudinaryUrlGenerator.kt:101-129 | `map` with a call that may throw: on success, one result per element in order; on failure, the failure of the first element that fails, all earlier elements having succeeded. |
| Model.ToMediaType | src/main/kotlin/net/sprd/cloudinaryimageserver/Model.kt:105-108 | `image/webp` exactly for `webp`, `image/jpeg` for every other format. |
| Model.FromUserAgent | src/main/kotlin/net/sprd/cloudinaryimageserver/Model.kt:111-114 | `webp` exactly when "Chrome" occurs in the user agent, `jpg` otherwise, and never `auto`. |
| Model.NegotiatedMediaType | src/main/kotlin/net/sprd/cloudinaryimageserver/Model.kt:105-114 | The served media type is WebP exactly for Chrome user agents and JPEG otherwise. |
| Text.Contains | src/main/kotlin/net/sprd/cloudinaryimageserver/Model.kt:112 | `String.contains`: true exactly when the needle occurs at some index. |
| Text.LowerAscii | src/main/kotlin/net/sprd/cloudinaryimageserver/CloudinaryUrlGenerator.kt:95 | An ASCII capital moves to its lower-case letter; every other character, including non-ASCII capitals, is unchanged. |
| Doubles.TruncTowardZero | src/main/kotlin/net/sprd/cloudinaryimageserver/CloudinaryUrlGenerator.kt:123-126 | Truncation drops the fraction toward zero, for either sign. |
| Doubles.RealToIntSaturates | src/main/kotlin/net/sprd/cloudinaryimageserver/CloudinaryUrlGenerator.kt:123-126 | `toInt()` on a finite value truncates inside the `Int` range and saturates outside it. |
| Doubles.ToInt | src/main/kotlin/net/sprd/cloudinaryimageserver/CloudinaryUrlGenerator.kt:123-126 | `toInt()` maps NaN to 0 and the infinities to the extreme `Int`s. |
| Doubles.Divide | src/main/kotlin/net/sprd/cloudinaryimageserver/CloudinaryUrlGenerator.kt:112-113 | A positive number divided by zero is `+Infinity`; otherwise the quotient. |
| Doubles.Times | src/main/kotlin/net/sprd/cloudinaryimageserver/CloudinaryUrlGenerator.kt:115-121 | A finite factor gives the exact product. A NaN factor gives NaN, and an infinity times zero is NaN. An infinity times a non-zero number is the infinity of the product's sign, for both infinities. |
| Doubles.Plus | src/main/kotlin/net/sprd/cloudinaryimageserver/CloudinaryUrlGenerator.kt:123-124 | Two finite values give the exact sum. NaN absorbs everything and opposite infinities give NaN. Either infinity, on either side, added to a finite value or to the same infinity is that infinity. |
| UrlGenerator.TranslateImageSizeToValue | src/main/kotlin/net/sprd/cloudinaryimageserver/CloudinaryUrlGenerator.kt:170-174 | small is 150, medium 300, large 600, each in both directions. Every target is at most the 600-pixel base. |
| UrlGenerator.LoadProduct | src/main/kotlin/net/sprd/cloudinaryimageserver/CloudinaryUrlGenerator.kt:152-159 | A product is present exactly when the catalog holds it, and it is the catalog's entry. |
| UrlGenerator.LoadProductType | src/main/kotlin/net/sprd/cloudinaryimageserver/CloudinaryUrlGenerator.kt:161-168 | The same for product types. |
| UrlGenerator.Slug | src/main/kotlin/net/sprd/cloudinaryimageserver/CloudinaryUrlGenerator.kt:95 | The slug has the name's length. Character by character, a space becomes `-` and every other character is lower-cased. |
| UrlGenerator.SlugIsCanonical | src/main/kotlin/net/sprd/cloudinaryimageserver/CloudinaryUrlGenerator.kt:95-96 | A slug has no spaces and no ASCII capitals and is its own slug. |
| UrlGenerator.SlugAppend | src/main/kotlin/net/sprd/cloudinaryimageserver/CloudinaryUrlGenerator.kt:95 | The slug of a concatenation is the concatenation of the slugs. |
| UrlGenerator.RedirectUrl | src/main/kotlin/net/sprd/cloudinaryimageserver/CloudinaryUrlGenerator.kt:30 | `/products/<size>/<productId>/<mods>/<slug>.jpg`: each part sits at its own offset: `/products/`, the size name, `/`, the product id, `/`, the modifier token, `/`, the encoded slug, `.jpg`. The length is the sum of these. |
| UrlGenerator.RedirectUrlRoutesBack | src/main/kotlin/net/sprd/cloudinaryimageserver/CloudinaryUrlGenerator.kt:30 | When none of the four parts contains a `/`, splitting the redirect path between its leading `/` and its `.jpg` gives back exactly `products`, the size name, the product id, the modifier token and the encoded slug. |
| UrlGenerator.ProductTypeImageUrl | src/main/kotlin/net/sprd/cloudinaryimageserver/CloudinaryUrlGenerator.kt:31 | `/productTypes/<productTypeId>/views/<viewId>/appearances/<appearanceId>,width=1200,height=1200,mediaType=png`: each id sits at its own offset between the fixed parts, and the length is the sum of the parts. |
| UrlGenerator.VisibleDesigns | src/main/kotlin/net/sprd/cloudinaryimageserver/CloudinaryUrlGenerator.kt:101-104 | Every selected configuration is a design whose print area is on the requested view, and there are no more of them than configurations. |
| UrlGenerator.VisibleDesignsMembers | src/main/kotlin/net/sprd/cloudinaryimageserver/CloudinaryUrlGenerator.kt:101-104 | A configuration is drawn exactly when it is a design whose print area's default view is the requested view. The selection is never longer than the configurations. |
| UrlGenerator.VisibleDesignsKeepOrder | src/main/kotlin/net/sprd/cloudinaryimageserver/CloudinaryUrlGenerator.kt:101-104 | The selection distributes over a split of the configurations, so the stacking order is kept. |
| UrlGenerator.ScaleFactor | src/main/kotlin/net/sprd/cloudinaryimageserver/CloudinaryUrlGenerator.kt:112-113 | The scale is 600 / size, or `+Infinity` for a zero size. |
| UrlGenerator.Coordinate | src/main/kotlin/net/sprd/cloudinaryimageserver/CloudinaryUrlGenerator.kt:112-124 | The position is `toInt((anchor + offset) * 600 / size)` for a non-zero size. A zero size gives `Int.MAX_VALUE` for positive terms and 0 when a term is 0. |
| UrlGenerator.Extent | src/main/kotlin/net/sprd/cloudinaryimageserver/CloudinaryUrlGenerator.kt:112-126 | The length is `toInt(length * 600 / size)` for a non-zero size. A zero size saturates by the sign of the length. |
| UrlGenerator.Place | src/main/kotlin/net/sprd/cloudinaryimageserver/CloudinaryUrlGenerator.kt:105-128 | The overlay is named `designs:<designId>`. x and width are scaled by the view's width; y and height by its height. |
| UrlGenerator.DesignFor | src/main/kotlin/net/sprd/cloudinaryimageserver/CloudinaryUrlGenerator.kt:109-128 | A missing view or view map is reported as that fault. The result is `Ok` exactly when both lookups succeed, and then holds the placed overlay. |
| UrlGenerator.MapDesigns | src/main/kotlin/net/sprd/cloudinaryimageserver/CloudinaryUrlGenerator.kt:105-129 | On success there is one overlay per configuration, index by index. On failure the fault is that of the first configuration that fails. |
| UrlGenerator.ChainImage | src/main/kotlin/net/sprd/cloudinaryimageserver/CloudinaryUrlGenerator.kt:137-149 | The image described: two steps more than there are designs, the base resize first, overlay k+1 placing design k, the final resize last, with the given version and public id. |
| UrlGenerator.GenerateProductImageUrl | src/main/kotlin/net/sprd/cloudinaryimageserver/CloudinaryUrlGenerator.kt:137-150 | The chain has two steps more than there are designs: the base resize, one north-west overlay per design in order, and the final resize with quality auto and the format. It carries the given version and public id. |
| UrlGenerator.AppearanceId | src/main/kotlin/net/sprd/cloudinaryimageserver/CloudinaryUrlGenerator.kt:90 | The request's appearance override when there is one, without validation; otherwise the product's own appearance. |
| UrlGenerator.ImageVersion | src/main/kotlin/net/sprd/cloudinaryimageserver/CloudinaryUrlGenerator.kt:132 | The product type's version when no design is drawn, the product's version otherwise. |
| UrlGenerator.CreateProductImageUrl | src/main/kotlin/net/sprd/cloudinaryimageserver/CloudinaryUrlGenerator.kt:83-135 | Not found exactly when the product or its type is missing. Otherwise it redirects exactly when the slug differs, whatever the designs. Otherwise the result is a fault exactly when design mapping fails, or the found image with the expected version, product-type photo path and chain. |
| UrlGenerator.RedirectIsFinal | src/main/kotlin/net/sprd/cloudinaryimageserver/CloudinaryUrlGenerator.kt:95-97 | Following a redirect keeps the parsed modifiers and is neither redirected again nor not found. |
| UrlGenerator.RedirectRoutesBack | src/main/kotlin/net/sprd/cloudinaryimageserver/CloudinaryUrlGenerator.kt:95-97 | The redirect of a parsed request routes back to that request. If the product id and the encoded slug contain no `/`, the path splits into the requested size name, the product id, the canonical token and the encoded canonical slug, and that token parses to the same modifiers. |
| UrlGenerator.CanonicalRequestIsFound | src/main/kotlin/net/sprd/cloudinaryimageserver/CloudinaryUrlGenerator.kt:100-134 | A canonical request whose visible designs all place is found with the chain over those designs. |
| UrlGenerator.BareProductUsesProductTypeVersion | src/main/kotlin/net/sprd/cloudinaryimageserver/CloudinaryUrlGenerator.kt:131-132 | With no visible design, the image is found with two steps and the product type's version. |
| UrlGenerator.DesignedProductUsesProductVersion | src/main/kotlin/net/sprd/cloudinaryimageserver/CloudinaryUrlGenerator.kt:131-132 | With a visible design, a found image carries the product's version and one overlay per visible design. |
| UrlGenerator.MissingViewFaultsOnlyWithDesigns | src/main/kotlin/net/sprd/cloudinaryimageserver/CloudinaryUrlGenerator.kt:101-110 | A missing view is harmless with nothing to draw, and a `MissingView` fault as soon as a design is visible. |
| Scenario.ShirtSlug | src/main/kotlin/net/sprd/cloudinaryimageserver/CloudinaryUrlGenerator.kt:95 | "Men's T-Shirt" has the slug "men's-t-shirt". |
| Scenario.DesignPlacement | src/test/kotlin/net/sprd/cloudinaryimageserver/CloudinaryUrlGeneratorTest.kt:21 | On a 1200x1200 view, the design lands at x 172, y 60, size 265x392, by truncation. |
| Scenario.SmallImageOfDesignedProduct | src/test/kotlin/net/sprd/cloudinaryimageserver/CloudinaryUrlGeneratorTest.kt:19-26 | The small `auto` request with default modifiers gives version 1478003241. The chain is resize 600, that overlay, and resize 150, on the photo of type 6, view 1, appearance 4. |
| Scenario.StaleSlugRedirects | src/test/kotlin/net/sprd/cloudinaryimageserver/ResourceTest.kt:76-81 | The slug `seo-test` redirects to `/products/medium/105007578/v1/<encoded men's-t-shirt>.jpg`. |
| Scenario.DefaultToken | src/main/kotlin/net/sprd/cloudinaryimageserver/Model.kt:68-75 | The default modifiers serialise to `v1`. |

## Left out

- The Guava caches and the HTTP/JSON loaders (CloudinaryUrlGenerator.kt:52-80) do network I/O, and their memoisation is library behaviour. The catalog is a value, and a failed fetch is an absent key.
- The Cloudinary SDK's rendering of the chain into URL text (`CloudinaryUrlGenerator.kt:149`) is not part of this model. That covers the host and cloud name, the alphabetical key order within a step, and the percent-encoding of the public id. The image is the value `CdnImage`: version, steps and public id.
- `URLEncoder.encode` is a parameter, so the model does not fix how a slug is escaped.
- Kotlin `Double` is exact `real` arithmetic here. Rounding to 53 bits, `-0.0`, and overflow of a finite product to infinity are not modelled, so the overlay numbers agree with the source wherever the exact product truncates to the same integer.
- Text.LowerAscii, Slug, SlugIsCanonical: `toLowerCase()` is modelled on ASCII letters only. Kotlin also lowers non-ASCII capitals (for instance `Ä` to `ä`, which a German catalog's product-type names can contain), and locale-dependent mappings exist. Neither is modelled, so the model's slug of such a name keeps its non-ASCII capitals where the source's does not, and `SlugIsCanonical` rules out ASCII capitals only.
- `Mods` is a value, not the mutable object of the source. `Parse` rebinds a local `mods` where the source assigns its fields.
- The `Transformation` builder's in-place `chain()` mutation is a sequence of steps that the method extends.
- The uncaught exception of a missing view or view map is the outcome `Failed(fault)`. The source has no such outcome; the exception propagates to the controller.
- The controller (Resources.kt), configuration (Yaml.kt) and bootstrap (Application.kt) are HTTP and configuration plumbing and are not part of this model.
- RedirectUrlRoutesBack, RedirectRoutesBack: the controller's route `/products/{size}/{productId}/{mods}/{seo}.jpg` is modelled only as splitting the path at `/` (`Text.Segments`). Spring's percent-decoding of path variables and its suffix-pattern matching are not modelled.
- Scenario: the catalog entries are illustrative. The repository's test reads the product and product type from the live catalog service, and their data is not part of this model.
