/**
 * `POST /api/wishlists` (src/app/api/wishlists/route.ts): a signed-in user's
 * wishlist is created from one Amazon URL. The listing page's product links
 * (or the page itself, when it is a single product) are visited, at most a
 * hundred of them, and the valid records stored with the wishlist's title.
 *
 * The listing request (`None` when it throws, with `loadError` the message of
 * what it threw), the selector texts of a product page (`None` when its
 * request throws) and `new URL(u).hostname` (`None` when the URL does not
 * parse) are the fields of `Web`.
 */
module WishlistsRoute {
  import opened Wrappers
  import opened Text
  import opened Amazon

  /**
   * What the selectors of a product page return: the text of the first title
   * element, of the first whole and fraction price parts, and the `src` of the
   * first product image ("" when absent).
   */
  datatype ProductPage = ProductPage(title: string, priceWhole: string, priceFraction: string, img: string)

  datatype Web = Web(listing: string -> Option<seq<Anchor>>, product: string -> Option<ProductPage>,
                     hostOf: string -> Option<string>, loadError: string -> string)

  /** A link without `http` is taken as a path on `www.amazon.ae`. */
  function AbsoluteLink(href: string): string {
    if Contains(href, "http") then href else "https://www.amazon.ae" + href
  }

  /** The listing's links made absolute, keeping those that contain `/dp/`, in page order. */
  function ProductLinks(anchors: seq<Anchor>): (r: seq<string>)
    ensures |r| <= |anchors|
  {
    if anchors == [] then []
    else
      var link := AbsoluteLink(AnchorHref(anchors[0]));
      (if Contains(link, "/dp/") then [link] else []) + ProductLinks(anchors[1..])
  }

  /** `link` is the absolute form of one of the anchors' links. */
  predicate FromAnchor(link: string, anchors: seq<Anchor>) {
    exists i :: 0 <= i < |anchors| && link == AbsoluteLink(AnchorHref(anchors[i]))
  }

  /** Every kept link contains `/dp/`, and each comes from an anchor of the page. */
  lemma ProductLinksSpec(anchors: seq<Anchor>)
    ensures forall k :: 0 <= k < |ProductLinks(anchors)| ==> Contains(ProductLinks(anchors)[k], "/dp/")
    ensures forall k :: 0 <= k < |ProductLinks(anchors)| ==> FromAnchor(ProductLinks(anchors)[k], anchors)
  {
    ProductLinksHaveDp(anchors);
    ProductLinksFromAnchors(anchors);
  }

  lemma {:induction false} ProductLinksHaveDp(anchors: seq<Anchor>)
    ensures forall k :: 0 <= k < |ProductLinks(anchors)| ==> Contains(ProductLinks(anchors)[k], "/dp/")
  {
    if anchors != [] {
      var rest := ProductLinks(anchors[1..]);
      assert forall k :: 0 <= k < |rest| ==> Contains(rest[k], "/dp/") by {
        ProductLinksHaveDp(anchors[1..]);
      }
      var head := AbsoluteLink(AnchorHref(anchors[0]));
      assert ProductLinks(anchors) == (if Contains(head, "/dp/") then [head] else []) + rest;
    }
  }

  lemma {:induction false} ProductLinksFromAnchors(anchors: seq<Anchor>)
    ensures forall k :: 0 <= k < |ProductLinks(anchors)| ==> FromAnchor(ProductLinks(anchors)[k], anchors)
  {
    if anchors != [] {
      var rest := ProductLinks(anchors[1..]);
      assert forall k :: 0 <= k < |rest| ==> FromAnchor(rest[k], anchors[1..]) by {
        ProductLinksFromAnchors(anchors[1..]);
      }
      var head := AbsoluteLink(AnchorHref(anchors[0]));
      forall k | 0 <= k < |rest| ensures FromAnchor(rest[k], anchors) {
        FromLaterAnchor(rest[k], anchors);
      }
      if Contains(head, "/dp/") {
        assert FromAnchor(head, anchors);
        assert ProductLinks(anchors) == [head] + rest;
      } else {
        assert ProductLinks(anchors) == rest;
      }
    }
  }

  lemma FromLaterAnchor(link: string, anchors: seq<Anchor>)
    requires anchors != [] && FromAnchor(link, anchors[1..])
    ensures FromAnchor(link, anchors)
  {
    var i :| 0 <= i < |anchors[1..]| && link == AbsoluteLink(AnchorHref(anchors[1..][i]));
    assert link == AbsoluteLink(AnchorHref(anchors[i + 1]));
  }

  /**
   * The product URLs of the page: its links, or, with none and an ASIN in the
   * URL, the URL itself when it is an Amazon URL, else the canonical product
   * URL on `www.amazon.ae`.
   */
  function ProductUrls(url: string, anchors: seq<Anchor>): seq<string> {
    var links := ProductLinks(anchors);
    if links != [] then links
    else
      match AsinIn(url)
      case None => []
      case Some(asin) => [if Contains(url, "amazon.") then url else "https://www.amazon.ae/dp/" + asin]
  }

  /** The single-product fallback. */
  lemma SingleProductFallback(url: string, anchors: seq<Anchor>)
    requires ProductLinks(anchors) == [] && AsinIn(url).Some?
    ensures Contains(url, "amazon.") ==> ProductUrls(url, anchors) == [url]
    ensures !Contains(url, "amazon.") ==> ProductUrls(url, anchors) == ["https://www.amazon.ae/dp/" + AsinIn(url).value]
  {
  }

  /** `text.trim().slice(0, 120) || 'N/A'`. */
  function ItemTitle(text: string): (r: string)
    ensures r != "" && |r| <= 120
  {
    var t := Take(Trim(text), 120);
    if t == "" then "N/A" else t
  }

  /** `` `${whole || ''}${fraction || ''}`.trim() || 'N/A' `` on the trimmed parts. */
  function ItemPrice(whole: string, fraction: string): (r: string)
    ensures r != ""
  {
    var t := Trim(Trim(whole) + Trim(fraction));
    if t == "" then "N/A" else t
  }

  /** The title is the trimmed text cut to 120 characters, or `N/A` when there is no text. */
  lemma ItemTitleSpec(text: string)
    ensures ItemTitle(text) == "N/A" <==> Trim(text) == "" || Take(Trim(text), 120) == "N/A"
    ensures ItemTitle(text) != "N/A" ==> StartsWith(Trim(text), ItemTitle(text))
  {
    var t := Take(Trim(text), 120);
    assert t == Trim(text)[..|t|];
  }

  /** The record of a product page, or `None` when the route skips it. */
  function ProductRecord(productUrl: string, page: ProductPage, hostOf: string -> Option<string>): Option<Item> {
    var asin := AsinIn(productUrl).GetOr("");
    var title := ItemTitle(page.title);
    var price := ItemPrice(page.priceWhole, page.priceFraction);
    if title == "N/A" || asin == "" then None
    else if Contains(productUrl, "amazon.") && hostOf(productUrl).None? then None
    else
      var domain := if Contains(productUrl, "amazon.") then hostOf(productUrl).value else "amazon.ae";
      Some(Item(asin, title, price, page.img, productUrl, AffiliateLink(domain, asin)))
  }

  /**
   * Items have a real title, the ASIN, image and URL of their own product, and
   * an affiliate link on the product's host when the URL is an Amazon one, on
   * `amazon.ae` otherwise.
   */
  lemma ProductRecordSpec(productUrl: string, page: ProductPage, hostOf: string -> Option<string>)
    ensures ProductRecord(productUrl, page, hostOf).Some? ==>
      var item := ProductRecord(productUrl, page, hostOf).value;
      && item.title != "N/A" && AsinIn(productUrl) == Some(item.asin) && item.url == productUrl && item.img == page.img
      && (Contains(productUrl, "amazon.") ==>
            hostOf(productUrl).Some? && item.affiliate == AffiliateLink(hostOf(productUrl).value, item.asin))
      && (!Contains(productUrl, "amazon.") ==> item.affiliate == AffiliateLink("amazon.ae", item.asin))
    ensures AsinIn(productUrl).None? || ItemTitle(page.title) == "N/A" ==> ProductRecord(productUrl, page, hostOf).None?
  {
  }

  function ProductItems(productUrl: string, web: Web): (r: seq<Item>)
    ensures |r| <= 1
  {
    match web.product(productUrl)
    case None => []
    case Some(page) =>
      match ProductRecord(productUrl, page, web.hostOf)
      case None => []
      case Some(item) => [item]
  }

  /** The product loop: each URL in turn, until 100 items are collected. */
  function Visit(productUrls: seq<string>, items: seq<Item>, web: Web): seq<Item>
    decreases |productUrls|
  {
    if productUrls == [] || |items| >= ProductCap then items
    else Visit(productUrls[1..], items + ProductItems(productUrls[0], web), web)
  }

  const Unauthorized: string := "Не авторизован"
  const FieldsRequired: string := "Необходимо указать URL и название вишлиста"
  const PageLoadFailed: string := "Не удалось загрузить страницу: "
  const NoProducts: string := "Не удалось найти товары на указанной странице"
  const SaveFailed: string := "Ошибка сохранения вишлиста"

  /** `Failed` is the 500 answer that carries the database's message as `details`. */
  datatype Response =
    | Rejected(status: nat, error: string)
    | Failed(error: string, details: string)
    | Created(shortId: string, itemsCount: nat, items: seq<Item>)

  /**
   * The route's answer: 401 without a user, 400 without a URL or title, 500
   * when the page cannot be fetched or the insert fails, 400 when no item was
   * found. `Created` carries the stored items.
   */
  function Post(signedIn: bool, url: string, title: string, web: Web, shortId: string, insertError: Option<string>): Response {
    if !signedIn then Rejected(401, Unauthorized)
    else if url == "" || title == "" then Rejected(400, FieldsRequired)
    else
      match web.listing(url)
      case None => Rejected(500, PageLoadFailed + web.loadError(url))
      case Some(anchors) =>
        var items := Visit(Take(ProductUrls(url, anchors), ProductCap), [], web);
        if items == [] then Rejected(400, NoProducts)
        else if insertError.Some? then Failed(SaveFailed, insertError.value)
        else Created(shortId, |items|, items)
  }

  /** One iteration of the product loop. */
  method ProductItem(productUrl: string, web: Web) returns (added: seq<Item>)
    ensures added == ProductItems(productUrl, web)
  {
    var page := web.product(productUrl);
    if page.None? {
      return [];
    }
    var p := page.value;
    var asin := AsinIn(productUrl).GetOr("");
    var title := ItemTitle(p.title);
    var price := ItemPrice(p.priceWhole, p.priceFraction);
    if title == "N/A" || asin == "" {
      assert ProductRecord(productUrl, p, web.hostOf).None?;
      return [];
    }
    var domain := "amazon.ae";
    if Contains(productUrl, "amazon.") {
      var host := web.hostOf(productUrl);
      if host.None? {
        assert ProductRecord(productUrl, p, web.hostOf).None?;
        return [];
      }
      domain := host.value;
    }
    var item := Item(asin, title, price, p.img, productUrl, AffiliateLink(domain, asin));
    assert ProductRecord(productUrl, p, web.hostOf) == Some(item);
    added := [item];
  }

  lemma VisitStep(productUrls: seq<string>, i: nat, items0: seq<Item>, items: seq<Item>, web: Web)
    requires i < |productUrls| && |items| < ProductCap
    requires Visit(productUrls[i..], items, web) == Visit(productUrls, items0, web)
    ensures Visit(productUrls[i + 1..], items + ProductItems(productUrls[i], web), web) == Visit(productUrls, items0, web)
  {
    assert productUrls[i..][1..] == productUrls[i + 1..];
  }

  /** The product loop: each URL in turn, stopping once 100 items are collected. */
  method CollectItems(productUrls: seq<string>, web: Web) returns (items: seq<Item>)
    ensures items == Visit(productUrls, [], web)
  {
    items := [];
    var i := 0;
    while i < |productUrls|
      invariant 0 <= i <= |productUrls|
      invariant Visit(productUrls[i..], items, web) == Visit(productUrls, [], web)
    {
      if |items| >= ProductCap {
        break;
      }
      VisitStep(productUrls, i, [], items, web);
      var added := ProductItem(productUrls[i], web);
      items := items + added;
      i := i + 1;
    }
  }

  /** `POST /api/wishlists` after authentication and body parsing. */
  method HandlePost(signedIn: bool, url: string, title: string, web: Web, shortId: string, insertError: Option<string>)
    returns (response: Response)
    ensures response == Post(signedIn, url, title, web, shortId, insertError)
  {
    if !signedIn {
      return Rejected(401, Unauthorized);
    }
    if url == "" || title == "" {
      return Rejected(400, FieldsRequired);
    }
    var listing := web.listing(url);
    if listing.None? {
      return Rejected(500, PageLoadFailed + web.loadError(url));
    }
    var items := CollectItems(Take(ProductUrls(url, listing.value), ProductCap), web);
    if items == [] {
      return Rejected(400, NoProducts);
    }
    if insertError.Some? {
      return Failed(SaveFailed, insertError.value);
    }
    return Created(shortId, |items|, items);
  }

  /** The loop never collects more than 100 items. */
  lemma {:induction false} VisitBound(productUrls: seq<string>, items: seq<Item>, web: Web)
    requires |items| <= ProductCap
    ensures |Visit(productUrls, items, web)| <= ProductCap
    ensures items <= Visit(productUrls, items, web)
    decreases |productUrls|
  {
    if productUrls != [] && |items| < ProductCap {
      VisitBound(productUrls[1..], items + ProductItems(productUrls[0], web), web);
    }
  }

  /** A created wishlist holds between 1 and 100 items, and says how many. */
  lemma CreatedBounds(signedIn: bool, url: string, title: string, web: Web, shortId: string, insertError: Option<string>)
    requires Post(signedIn, url, title, web, shortId, insertError).Created?
    ensures var r := Post(signedIn, url, title, web, shortId, insertError);
      1 <= r.itemsCount <= ProductCap && r.itemsCount == |r.items|
  {
    VisitBound(Take(ProductUrls(url, web.listing(url).value), ProductCap), [], web);
  }

  /** A missing URL or title is answered before any request, whatever the web would have returned. */
  lemma MissingFieldsBeforeFetch(url: string, title: string, web1: Web, web2: Web, shortId: string, insertError: Option<string>)
    requires url == "" || title == ""
    ensures Post(true, url, title, web1, shortId, insertError) == Rejected(400, FieldsRequired)
    ensures Post(true, url, title, web1, shortId, insertError) == Post(true, url, title, web2, shortId, insertError)
  {
  }
}
