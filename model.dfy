/** The catalog records of Model.kt (what the upstream catalog service returns for a
    product and a product type), the first-match lookups on them, and the output
    formats. A `Reference(id)` wrapper of the source is flattened to its id string,
    and a configuration's `content.svg.image` path to its `image` field. */
module Model {
  import opened Wrappers
  import opened Text

  // ---------------------------------------------------------------------------
  // Records (Model.kt:16-66)

  /** A point or displacement in catalog design units (Kotlin `Double`). */
  datatype Offset = Offset(x: real, y: real)

  /** A canvas size in catalog design units. */
  datatype Size = Size(width: real, height: real)

  /** The design asset a configuration shows, and its size in design units. */
  datatype Image = Image(designId: string, width: real, height: real)

  /** One entry of a product's `configurations`: something placed in a print area. */
  datatype ProductConfiguration = ProductConfiguration(printArea: string, offset: Offset, image: Image, kind: string)

  const TYPE_DESIGN := "design"

  /** A product instance: the product type it is made on, its default appearance
      (colour) and what is printed on it. */
  datatype Product = Product(version: int, productType: string, appearance: string,
                             configurations: seq<ProductConfiguration>)

  /** Where a print area sits on the canvas of one view. */
  datatype ViewMap = ViewMap(printArea: string, offset: Offset)

  /** A camera angle of a product type, with its canvas size and print-area anchors. */
  datatype View = View(id: string, size: Size, viewMaps: seq<ViewMap>)

  /** A region that can hold a design; it counts as visible on its default view only. */
  datatype PrintArea = PrintArea(id: string, defaultView: string)

  datatype ProductType = ProductType(version: int, name: string, views: seq<View>, printAreas: seq<PrintArea>)

  /** An overlay ready for the CDN: the layer name `designs:<id>` and its placement
      on the 600-pixel canvas, in whole pixels. */
  datatype Design = Design(name: string, x: int, y: int, width: int, height: int)

  // ---------------------------------------------------------------------------
  // Kotlin's List.filter

  /** The elements of `s` that satisfy `p`, in their original order. */
  function Filter<T>(s: seq<T>, p: T -> bool): (r: seq<T>)
    ensures |r| <= |s|
    ensures forall k :: 0 <= k < |r| ==> p(r[k])
  {
    if s == [] then []
    else if p(s[0]) then [s[0]] + Filter(s[1..], p)
    else Filter(s[1..], p)
  }

  /** Exactly the elements that satisfy `p` survive the filter. */
  lemma {:induction false} FilterMembers<T>(s: seq<T>, p: T -> bool, x: T)
    ensures x in Filter(s, p) <==> x in s && p(x)
  {
    if s != [] {
      FilterMembers(s[1..], p, x);
      assert s == [s[0]] + s[1..];
    }
  }

  /** Filtering keeps the order: filtering a concatenation filters each part in turn. */
  lemma {:induction false} FilterAppend<T>(s: seq<T>, t: seq<T>, p: T -> bool)
    ensures Filter(s + t, p) == Filter(s, p) + Filter(t, p)
  {
    if s != [] {
      FilterAppend(s[1..], t, p);
      assert (s + t)[0] == s[0] && (s + t)[1..] == s[1..] + t;
    } else {
      assert s + t == t;
    }
  }

  /** The head of a filtered list is the first element of the list that satisfies `p`. */
  lemma {:induction false} FilterHead<T>(s: seq<T>, p: T -> bool)
    requires Filter(s, p) != []
    ensures exists i :: 0 <= i < |s| && s[i] == Filter(s, p)[0] && p(s[i]) &&
                        forall j :: 0 <= j < i ==> !p(s[j])
  {
    if !p(s[0]) {
      FilterHead(s[1..], p);
      var i :| 0 <= i < |s[1..]| && s[1..][i] == Filter(s[1..], p)[0] && p(s[1..][i]) &&
               forall j :: 0 <= j < i ==> !p(s[1..][j]);
      assert s[i + 1] == s[1..][i];
      assert forall j :: 1 <= j < i + 1 ==> s[j] == s[1..][j - 1];
    }
  }

  /** An empty filter result means no element satisfies `p`. */
  lemma {:induction false} FilterEmpty<T>(s: seq<T>, p: T -> bool)
    ensures Filter(s, p) == [] <==> forall k :: 0 <= k < |s| ==> !p(s[k])
  {
    if s != [] {
      FilterEmpty(s[1..], p);
      assert forall k :: 1 <= k < |s| ==> s[k] == s[1..][k - 1];
    }
  }

  /** Kotlin's List.map with a function that may throw: the results in order, or the
      failure of the first element whose call fails (later elements are not reached). */
  function MapAll<T, U(==), E(==)>(s: seq<T>, f: T -> Result<U, E>): (r: Result<seq<U>, E>)
    ensures r.Ok? ==> |r.value| == |s| && forall k :: 0 <= k < |s| ==> f(s[k]) == Ok(r.value[k])
    ensures r.Err? ==> exists i :: 0 <= i < |s| && f(s[i]) == Err(r.error) &&
                                   forall j :: 0 <= j < i ==> f(s[j]).Ok?
  {
    if s == [] then Ok([])
    else
      match f(s[0])
      case Err(e) => Err(e)
      case Ok(u) =>
        match MapAll(s[1..], f)
        case Err(e) =>
          var i :| 0 <= i < |s[1..]| && f(s[1..][i]) == Err(e) && forall j :: 0 <= j < i ==> f(s[1..][j]).Ok?;
          assert s[i + 1] == s[1..][i];
          assert forall j :: 1 <= j < i + 1 ==> s[j] == s[1..][j - 1];
          Err(e)
        case Ok(us) =>
          assert forall k :: 1 <= k < |s| ==> s[k] == s[1..][k - 1];
          Ok([u] + us)
  }

  // ---------------------------------------------------------------------------
  // Catalog lookups (Model.kt:45-56)

  /** ProductType.isPrintAreaOnView: some print area has this id and this view as its
      default view. */
  function IsPrintAreaOnView(pt: ProductType, printAreaId: string, viewId: string): (b: bool)
    ensures b <==> exists pa :: pa in pt.printAreas && pa.id == printAreaId && pa.defaultView == viewId
  {
    var byId := Filter(pt.printAreas, (pa: PrintArea) => pa.id == printAreaId);
    var onView := Filter(byId, (pa: PrintArea) => pa.defaultView == viewId);
    forall pa ensures pa in onView <==> pa in pt.printAreas && pa.id == printAreaId && pa.defaultView == viewId {
      FilterMembers(byId, (pa: PrintArea) => pa.defaultView == viewId, pa);
      FilterMembers(pt.printAreas, (pa: PrintArea) => pa.id == printAreaId, pa);
    }
    assert onView != [] ==> onView[0] in onView;
    onView != []
  }

  /** ProductType.getView: the first view with this id. The source indexes the filtered
      list with `.get(0)` and throws when it is empty; here that is `None`. */
  function GetView(pt: ProductType, viewId: string): (r: Option<View>)
    ensures r.None? <==> forall k :: 0 <= k < |pt.views| ==> pt.views[k].id != viewId
    ensures r.Some? ==> exists i :: 0 <= i < |pt.views| && pt.views[i] == r.value && r.value.id == viewId &&
                                    forall j :: 0 <= j < i ==> pt.views[j].id != viewId
  {
    var matching := Filter(pt.views, (v: View) => v.id == viewId);
    FilterEmpty(pt.views, (v: View) => v.id == viewId);
    if matching == [] then None
    else
      FilterHead(pt.views, (v: View) => v.id == viewId);
      Some(matching[0])
  }

  /** View.getViewMap: the first view map anchoring this print area; `None` where the
      source's `.get(0)` throws. */
  function GetViewMap(view: View, printAreaId: string): (r: Option<ViewMap>)
    ensures r.None? <==> forall k :: 0 <= k < |view.viewMaps| ==> view.viewMaps[k].printArea != printAreaId
    ensures r.Some? ==> exists i :: 0 <= i < |view.viewMaps| && view.viewMaps[i] == r.value &&
                                    r.value.printArea == printAreaId &&
                                    forall j :: 0 <= j < i ==> view.viewMaps[j].printArea != printAreaId
  {
    var matching := Filter(view.viewMaps, (m: ViewMap) => m.printArea == printAreaId);
    FilterEmpty(view.viewMaps, (m: ViewMap) => m.printArea == printAreaId);
    if matching == [] then None
    else
      FilterHead(view.viewMaps, (m: ViewMap) => m.printArea == printAreaId);
      Some(matching[0])
  }

  // ---------------------------------------------------------------------------
  // Output formats (Model.kt:102-116)

  datatype Format = Jpg | Webp | Auto

  const MEDIA_TYPE_WEBP := "image/webp"
  const MEDIA_TYPE_JPEG := "image/jpeg"
  const BROWSER_CHROME := "Chrome"

  /** Format.toMediaType: WebP is served as `image/webp`, everything else as JPEG. */
  function ToMediaType(f: Format): (m: string)
    ensures m == MEDIA_TYPE_WEBP <==> f == Webp
    ensures m == MEDIA_TYPE_JPEG <==> f != Webp
  {
    match f
    case Webp => MEDIA_TYPE_WEBP
    case _ => MEDIA_TYPE_JPEG
  }

  /** Format.fromUserAgent: a browser whose user agent mentions Chrome gets WebP,
      every other client JPEG; `auto` is never chosen this way. */
  function FromUserAgent(userAgent: string): (f: Format)
    ensures f == Webp <==> exists i: nat :: OccursAt(userAgent, BROWSER_CHROME, i)
    ensures f != Auto
  {
    if Contains(userAgent, BROWSER_CHROME) then Webp else Jpg
  }

  /** The controller's negotiation end to end: the response is labelled `image/webp`
      exactly when the user agent mentions Chrome, and JPEG otherwise. */
  lemma NegotiatedMediaType(userAgent: string)
    ensures ToMediaType(FromUserAgent(userAgent)) == MEDIA_TYPE_WEBP <==> Contains(userAgent, BROWSER_CHROME)
    ensures ToMediaType(FromUserAgent(userAgent)) == MEDIA_TYPE_JPEG <==> !Contains(userAgent, BROWSER_CHROME)
  {
  }
}
