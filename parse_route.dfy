/**
 * The batch scraper behind `POST /api/parse` (src/app/api/parse/route.ts):
 * up to ten listing URLs are resolved, their product links collected (or the
 * page itself taken as a single product), up to a hundred product pages read
 * into records, and the records stored under a fresh short id.
 *
 * Everything the route asks of the outside world is a field of `Web`: the
 * HEAD and GET requests of its own short-link resolver, the anchors a listing
 * page yields (`None` when the request fails), the selector texts of a product
 * page (`None` when the request fails) and `new URL(u).hostname` (`None` when
 * the URL does not parse, which makes the route throw).
 */
module ParseRoute {
  import opened Wrappers
  import opened Text
  import opened Amazon
  import ShortUrl

  // ---------------------------------------------------------------------------
  // The route's own short-link resolver (HEAD, then GET, following redirects)
  // ---------------------------------------------------------------------------

  /** A request that followed its redirects: the final response URL and the request URL, or a thrown error. */
  datatype FollowReply = Followed(responseUrl: string, configUrl: string) | Unreachable

  /**
   * A short link is resolved by a HEAD request, or by a GET request to the same
   * URL when the HEAD request throws; when both throw, the URL is kept.
   */
  function ResolveFollowing(url: string, head: string -> FollowReply, get: string -> FollowReply): (r: ShortUrl.Resolution)
    ensures !ShortUrl.IsShortUrl(url) ==> r == ShortUrl.Resolution(url, [])
    ensures |r.requests| <= 2
    ensures url != "" ==> r.url != ""
  {
    if !ShortUrl.IsShortUrl(url) then ShortUrl.Resolution(url, [])
    else
      match head(url)
      case Followed(responseUrl, configUrl) => ShortUrl.Resolution(Or(responseUrl, Or(configUrl, url)), [url])
      case Unreachable =>
        match get(url)
        case Followed(responseUrl, configUrl) => ShortUrl.Resolution(Or(responseUrl, Or(configUrl, url)), [url, url])
        case Unreachable => ShortUrl.Resolution(url, [url, url])
  }

  /** When both requests throw, the short link itself is scraped. */
  lemma ResolveFollowingFallsBack(url: string, head: string -> FollowReply, get: string -> FollowReply)
    requires head(url).Unreachable? && get(url).Unreachable?
    ensures ResolveFollowing(url, head, get).url == url
  {
  }

  // ---------------------------------------------------------------------------
  // Product links of a listing page, and the single-product fallback
  // ---------------------------------------------------------------------------

  /** The host used for relative links: the page's own host if it is an Amazon URL, else `amazon.ae`. */
  function LinkDomain(pageUrl: string, hostOf: string -> Option<string>): Option<string> {
    if Contains(pageUrl, "amazon.") then hostOf(pageUrl) else Some("amazon.ae")
  }

  /** A link without `http` becomes `https://<domain><link>`. */
  function LinkOnDomain(href: string, domain: string): string {
    if Contains(href, "http") then href else "https://" + domain + href
  }

  /**
   * The `.map(...).get().filter(Boolean)` over the listing's anchors: links
   * without `http` get `https://<domain>` in front, and only links containing
   * `/dp/` are kept. `None` when a relative link needs a domain that cannot be
   * computed (the route throws).
   */
  function ProductLinks(anchors: seq<Anchor>, domain: Option<string>): (r: Option<seq<string>>)
    ensures r.Some? ==> |r.value| <= |anchors|
  {
    if anchors == [] then Some([])
    else
      var href := AnchorHref(anchors[0]);
      if !Contains(href, "http") && domain.None? then None
      else
        var link := LinkOnDomain(href, domain.GetOr(""));
        match ProductLinks(anchors[1..], domain)
        case None => None
        case Some(rest) => Some((if Contains(link, "/dp/") then [link] else []) + rest)
  }

  /** `link` is the completed link of one of the anchors. */
  predicate FromAnchor(link: string, anchors: seq<Anchor>, domain: Option<string>) {
    exists i :: 0 <= i < |anchors| && link == LinkOnDomain(AnchorHref(anchors[i]), domain.GetOr(""))
  }

  /**
   * Every collected link contains `/dp/` and is the completed link of an
   * anchor of the page; links are only lost for want of a domain.
   */
  lemma {:induction false} ProductLinksSpec(anchors: seq<Anchor>, domain: Option<string>)
    ensures ProductLinks(anchors, domain).Some? ==>
      forall k :: 0 <= k < |ProductLinks(anchors, domain).value| ==> Contains(ProductLinks(anchors, domain).value[k], "/dp/")
    ensures ProductLinks(anchors, domain).Some? ==>
      forall k :: 0 <= k < |ProductLinks(anchors, domain).value| ==> FromAnchor(ProductLinks(anchors, domain).value[k], anchors, domain)
    ensures ProductLinks(anchors, domain).None? <==>
      domain.None? && exists a :: a in anchors && !Contains(AnchorHref(a), "http")
  {
    if anchors != [] {
      ProductLinksSpec(anchors[1..], domain);
      assert anchors[0] in anchors;
      assert forall a :: a in anchors[1..] ==> a in anchors;
      assert forall a :: a in anchors ==> a == anchors[0] || a in anchors[1..];
    }
    ProductLinksFromAnchors(anchors, domain);
  }

  lemma {:induction false} ProductLinksFromAnchors(anchors: seq<Anchor>, domain: Option<string>)
    ensures ProductLinks(anchors, domain).Some? ==>
      forall k :: 0 <= k < |ProductLinks(anchors, domain).value| ==> FromAnchor(ProductLinks(anchors, domain).value[k], anchors, domain)
  {
    if anchors != [] {
      ProductLinksFromAnchors(anchors[1..], domain);
      var r := ProductLinks(anchors, domain);
      var rest := ProductLinks(anchors[1..], domain);
      if r.Some? {
        forall k | 0 <= k < |rest.value|
          ensures FromAnchor(rest.value[k], anchors, domain)
        {
          var i :| 0 <= i < |anchors[1..]| && rest.value[k] == LinkOnDomain(AnchorHref(anchors[1..][i]), domain.GetOr(""));
          assert anchors[1..][i] == anchors[i + 1];
        }
        var link := LinkOnDomain(AnchorHref(anchors[0]), domain.GetOr(""));
        assert r.value == (if Contains(link, "/dp/") then [link] else []) + rest.value;
        assert FromAnchor(link, anchors, domain);
      }
    }
  }

  /** An absolute link that contains `/dp/` is kept as it is, ahead of the links of later anchors. */
  lemma AbsoluteLinkKept(anchors: seq<Anchor>, domain: Option<string>)
    requires anchors != [] && Contains(AnchorHref(anchors[0]), "http") && Contains(AnchorHref(anchors[0]), "/dp/")
    requires ProductLinks(anchors, domain).Some?
    ensures ProductLinks(anchors, domain).value == [AnchorHref(anchors[0])] + ProductLinks(anchors[1..], domain).value
  {
  }

  /**
   * The product URLs of one source: the listing's links, or, when there are
   * none and the page URL holds an ASIN, the canonical product URL on the
   * page's host. `None` when the route throws.
   */
  function SourceProductUrls(pageUrl: string, anchors: seq<Anchor>, hostOf: string -> Option<string>): (r: Option<seq<string>>)
    ensures r.Some? ==> |r.value| <= |anchors| || |r.value| == 1
  {
    var domain := LinkDomain(pageUrl, hostOf);
    match ProductLinks(anchors, domain)
    case None => None
    case Some(links) =>
      if links != [] then Some(links)
      else
        match AsinIn(pageUrl)
        case None => Some([])
        case Some(asin) => if domain.None? then None else Some(["https://" + domain.value + "/dp/" + asin])
  }

  /** With no links and an ASIN in the page URL, the page itself is the only product. */
  lemma SingleProductFallback(pageUrl: string, anchors: seq<Anchor>, hostOf: string -> Option<string>)
    requires ProductLinks(anchors, LinkDomain(pageUrl, hostOf)) == Some([])
    requires AsinIn(pageUrl).Some? && LinkDomain(pageUrl, hostOf).Some?
    ensures SourceProductUrls(pageUrl, anchors, hostOf)
            == Some(["https://" + LinkDomain(pageUrl, hostOf).value + "/dp/" + AsinIn(pageUrl).value])
  {
  }

  // ---------------------------------------------------------------------------
  // Title: `replace(/\s*[\(|\[].+$/, '').slice(0, 120).trim() || 'N/A'`
  // ---------------------------------------------------------------------------

  predicate IsBracket(c: char) { c == '(' || c == '|' || c == '[' }

  /** `[\(|\[].+$` matches at `q`: a bracket followed by at least one character and no line break up to the end. */
  predicate BracketTailAt(s: string, q: nat) {
    q + 1 < |s| && IsBracket(s[q]) && forall k :: q < k < |s| ==> !IsLineTerminator(s[k])
  }

  function FirstBracketTail(s: string, q: nat): (r: Option<nat>)
    ensures r.Some? ==> q <= r.value && BracketTailAt(s, r.value)
    decreases |s| - q
  {
    if q + 1 >= |s| then None
    else if BracketTailAt(s, q) then Some(q)
    else FirstBracketTail(s, q + 1)
  }

  lemma {:induction false} FirstBracketTailLeftmost(s: string, q: nat)
    ensures FirstBracketTail(s, q).None? ==> forall j: nat :: q <= j ==> !BracketTailAt(s, j)
    ensures FirstBracketTail(s, q).Some? ==> forall j: nat :: q <= j < FirstBracketTail(s, q).value ==> !BracketTailAt(s, j)
    decreases |s| - q
  {
    if q + 1 < |s| && !BracketTailAt(s, q) {
      FirstBracketTailLeftmost(s, q + 1);
    }
  }

  /**
   * The replacement removes the leftmost match, which runs to the end of the
   * string: it starts at the white space right before the first bracket that
   * has a one-line tail.
   */
  function StripBracketSuffix(s: string): (r: string)
    ensures |r| <= |s| && r == s[..|r|]
  {
    match FirstBracketTail(s, 0)
    case None => s
    case Some(q) => TrimEnd(s[..q])
  }

  /** Without a bracket tail the title is kept; with one, everything from the first is cut along with the white space before it. */
  lemma StripBracketSuffixSpec(s: string)
    ensures (forall j: nat :: !BracketTailAt(s, j)) ==> StripBracketSuffix(s) == s
    ensures (exists j: nat :: BracketTailAt(s, j)) ==>
      exists q: nat :: BracketTailAt(s, q) && (forall j: nat :: j < q ==> !BracketTailAt(s, j))
        && StripBracketSuffix(s) == TrimEnd(s[..q])
  {
    FirstBracketTailLeftmost(s, 0);
  }

  const MaxTitleLength: nat := 120

  /** The title shown for a product: bracket suffix cut, first 120 characters, trimmed, `N/A` when empty. */
  function CleanTitle(title: string): (r: string)
    ensures r != ""
  {
    var t := Trim(Take(StripBracketSuffix(title), MaxTitleLength));
    if t == "" then "N/A" else t
  }

  /** A cleaned title is `N/A` or a piece of the input of at most 120 characters without white space at either end. */
  lemma CleanTitleShape(title: string)
    ensures var r := CleanTitle(title);
      r == "N/A" || (|r| <= MaxTitleLength && !IsSpace(r[0]) && !IsSpace(r[|r| - 1])
                     && exists k: nat :: InfixAt(title, r, k))
  {
    var r := CleanTitle(title);
    if r != "N/A" {
      var cut := Take(StripBracketSuffix(title), MaxTitleLength);
      assert r == Trim(cut);
      assert |r| <= MaxTitleLength && !IsSpace(r[0]) && !IsSpace(r[|r| - 1]);
      assert exists k: nat :: InfixAt(title, r, k) by {
        assert cut == title[..|cut|] by {
          var stripped := StripBracketSuffix(title);
          assert stripped == title[..|stripped|] && cut == stripped[..|cut|];
        }
        var k := TrimInfix(cut);
        InfixOfPrefix(title, cut, r, k);
      }
    }
  }

  /** A short one-line title with nothing to strip only loses its surrounding white space. */
  lemma CleanTitleOfPlainTitle(title: string)
    requires |title| <= MaxTitleLength && forall j: nat :: !BracketTailAt(title, j)
    requires Trim(title) != ""
    ensures CleanTitle(title) == Trim(title)
  {
    StripBracketSuffixSpec(title);
  }

  // ---------------------------------------------------------------------------
  // Price and currency
  // ---------------------------------------------------------------------------

  /** A price and the currency that goes with it ("" when unknown). */
  datatype Quote = Quote(price: string, currency: string)

  /** `[\d,\.]`. */
  predicate IsAmountChar(c: char) { IsDigit(c) || c == ',' || c == '.' }

  /** `[€$£¥₹]`. */
  predicate IsCurrencySymbol(c: char) {
    c == '\U{20AC}' || c == '$' || c == '\U{A3}' || c == '\U{A5}' || c == '\U{20B9}'
  }

  /** Neither `[\d,\.]` nor `\s`: what `replace(/[\d,\.\s]/g, '')` keeps. */
  predicate IsMarkChar(c: char) { !IsAmountChar(c) && !IsSpace(c) }

  predicate NotSpace(c: char) { !IsSpace(c) }

  /** The end of the run of characters satisfying `p` that starts at `i`. */
  function RunEnd(s: string, i: nat, p: char -> bool): (e: nat)
    requires i <= |s|
    ensures i <= e <= |s|
    decreases |s| - i
  {
    if i < |s| && p(s[i]) then RunEnd(s, i + 1, p) else i
  }

  lemma {:induction false} RunEndChars(s: string, i: nat, p: char -> bool)
    requires i <= |s|
    ensures forall k :: i <= k < RunEnd(s, i, p) ==> p(s[k])
    decreases |s| - i
  {
    if i < |s| && p(s[i]) {
      RunEndChars(s, i + 1, p);
    }
  }

  /** `([A-Z]{3}|[€$£¥₹])` at `i`: three capitals, else one currency symbol. */
  function MarkAt(s: string, i: nat): (r: Option<string>)
    ensures r.Some? ==> 1 <= |r.value| <= 3 && i + |r.value| <= |s| && r.value == s[i..i + |r.value|]
  {
    if i + 3 <= |s| && IsUpper(s[i]) && IsUpper(s[i + 1]) && IsUpper(s[i + 2]) then Some(s[i..i + 3])
    else if i < |s| && IsCurrencySymbol(s[i]) then Some([s[i]])
    else None
  }

  /** `([A-Z]{3}|[€$£¥₹])\s*([\d,\.]+)` at `i`. */
  function MarkThenAmountAt(s: string, i: nat): (r: Option<Quote>)
    ensures r.Some? ==> r.value.price != ""
  {
    match MarkAt(s, i)
    case None => None
    case Some(mark) =>
      var start := RunEnd(s, i + |mark|, IsSpace);
      var end := RunEnd(s, start, IsAmountChar);
      if end == start then None else Some(Quote(s[start..end], mark))
  }

  /** `([\d,\.]+)\s*([A-Z]{3}|[€$£¥₹])` at `i`; the amount run cannot give back characters, since a mark never starts with one. */
  function AmountThenMarkAt(s: string, i: nat): (r: Option<Quote>)
    ensures r.Some? ==> r.value.price != ""
  {
    if i < |s| && IsAmountChar(s[i]) then
      var end := RunEnd(s, i, IsAmountChar);
      match MarkAt(s, RunEnd(s, end, IsSpace))
      case None => None
      case Some(mark) => Some(Quote(s[i..end], mark))
    else None
  }

  /** The leftmost match from `i` on of a pattern given by its matcher at each position. */
  function Leftmost(s: string, i: nat, at: (string, nat) -> Option<Quote>): Option<Quote>
    decreases |s| - i
  {
    if i >= |s| then None
    else if at(s, i).Some? then at(s, i)
    else Leftmost(s, i + 1, at)
  }

  lemma {:induction false} LeftmostFound(s: string, i: nat, at: (string, nat) -> Option<Quote>)
    ensures Leftmost(s, i, at).Some? ==> exists k: nat :: i <= k < |s| && at(s, k) == Leftmost(s, i, at)
    ensures Leftmost(s, i, at).None? ==> forall k: nat :: i <= k < |s| ==> at(s, k).None?
    decreases |s| - i
  {
    if i < |s| && at(s, i).None? {
      LeftmostFound(s, i + 1, at);
    }
  }

  /**
   * The offscreen full-price text: currency then amount, else amount then
   * currency, else its amount characters and its other non-space characters.
   */
  function OffscreenQuote(full: string): Quote {
    match Leftmost(full, 0, MarkThenAmountAt)
    case Some(q) => q
    case None =>
      match Leftmost(full, 0, AmountThenMarkAt)
      case Some(q) => q
      case None => Quote(Keep(full, IsAmountChar), Keep(full, IsMarkChar))
  }

  /** A matched quote: a non-empty amount of digits, commas and dots, and a mark of one to three characters. */
  predicate MatchedQuote(q: Quote) {
    q.price != "" && 1 <= |q.currency| <= 3 && forall k :: 0 <= k < |q.price| ==> IsAmountChar(q.price[k])
  }

  lemma MarkThenAmountMatched(s: string, i: nat)
    ensures MarkThenAmountAt(s, i).Some? ==> MatchedQuote(MarkThenAmountAt(s, i).value)
  {
    if MarkAt(s, i).Some? {
      RunEndChars(s, RunEnd(s, i + |MarkAt(s, i).value|, IsSpace), IsAmountChar);
    }
  }

  lemma AmountThenMarkMatched(s: string, i: nat)
    ensures AmountThenMarkAt(s, i).Some? ==> MatchedQuote(AmountThenMarkAt(s, i).value)
  {
    if i < |s| && IsAmountChar(s[i]) {
      RunEndChars(s, i, IsAmountChar);
    }
  }

  lemma {:induction false} LeftmostMatched(s: string, i: nat, at: (string, nat) -> Option<Quote>)
    requires forall k: nat :: at(s, k).Some? ==> MatchedQuote(at(s, k).value)
    ensures Leftmost(s, i, at).Some? ==> MatchedQuote(Leftmost(s, i, at).value)
    decreases |s| - i
  {
    if i < |s| && at(s, i).None? {
      LeftmostMatched(s, i + 1, at);
    }
  }

  /** The offscreen price only ever holds digits, commas and dots; a matched currency is three capitals or one symbol. */
  lemma OffscreenQuoteChars(full: string)
    ensures forall k :: 0 <= k < |OffscreenQuote(full).price| ==> IsAmountChar(OffscreenQuote(full).price[k])
    ensures Leftmost(full, 0, MarkThenAmountAt).Some? || Leftmost(full, 0, AmountThenMarkAt).Some? ==>
      OffscreenQuote(full).price != "" && 1 <= |OffscreenQuote(full).currency| <= 3
  {
    forall k: nat ensures MarkThenAmountAt(full, k).Some? ==> MatchedQuote(MarkThenAmountAt(full, k).value) {
      MarkThenAmountMatched(full, k);
    }
    forall k: nat ensures AmountThenMarkAt(full, k).Some? ==> MatchedQuote(AmountThenMarkAt(full, k).value) {
      AmountThenMarkMatched(full, k);
    }
    LeftmostMatched(full, 0, MarkThenAmountAt);
    LeftmostMatched(full, 0, AmountThenMarkAt);
  }

  /**
   * What the price selectors of a product page return (trimmed by the model):
   * the whole, fraction and symbol parts, the offscreen full price, and the
   * legacy whole, fraction and symbol parts; "" when a selector matches nothing.
   */
  datatype PriceTexts = PriceTexts(whole: string, fraction: string, symbol: string, offscreen: string,
                                   oldWhole: string, oldFraction: string, oldSymbol: string)

  /** The three approaches in order: each is tried only while no price has been found. */
  function RawQuote(p: PriceTexts): Quote {
    var whole := Trim(p.whole);
    var first := if whole != "" then Quote(whole + Trim(p.fraction), Trim(p.symbol)) else Quote("", "");
    var full := Trim(p.offscreen);
    var second := if first.price == "" && full != "" then OffscreenQuote(full) else first;
    var oldWhole := Trim(p.oldWhole);
    if second.price == "" && oldWhole != "" then Quote(oldWhole + Trim(p.oldFraction), Trim(p.oldSymbol)) else second
  }

  /** The approaches take precedence in order, and an earlier one that found a price is never overridden. */
  lemma PriceCascadeOrder(p: PriceTexts)
    ensures Trim(p.whole) != "" ==> RawQuote(p) == Quote(Trim(p.whole) + Trim(p.fraction), Trim(p.symbol))
    ensures Trim(p.whole) == "" && Trim(p.offscreen) != "" && OffscreenQuote(Trim(p.offscreen)).price != "" ==>
      RawQuote(p) == OffscreenQuote(Trim(p.offscreen))
  {
    if Trim(p.whole) != "" {
      assert |Trim(p.whole) + Trim(p.fraction)| > 0;
    }
  }

  /** The legacy selectors are the last resort; without any whole part no price is found at all. */
  lemma PriceCascadeLegacy(p: PriceTexts)
    ensures Trim(p.whole) == "" && (Trim(p.offscreen) == "" || OffscreenQuote(Trim(p.offscreen)).price == "")
            && Trim(p.oldWhole) != "" ==>
      RawQuote(p) == Quote(Trim(p.oldWhole) + Trim(p.oldFraction), Trim(p.oldSymbol))
    ensures RawQuote(p).price == "" ==> Trim(p.whole) == "" && Trim(p.oldWhole) == ""
  {
    if Trim(p.whole) != "" {
      assert |Trim(p.whole) + Trim(p.fraction)| > 0;
    }
    if Trim(p.oldWhole) != "" {
      assert |Trim(p.oldWhole) + Trim(p.oldFraction)| > 0;
    }
  }

  /** `price.replace(/\s+/g, '').replace(/,/g, '.') || 'N/A'`. */
  function CleanPrice(price: string): string {
    var t := ReplaceChar(Keep(price, NotSpace), ',', '.');
    if t == "" then "N/A" else t
  }

  /** The final price has neither white space nor commas, or is `N/A`. */
  lemma CleanPriceShape(price: string)
    ensures var r := CleanPrice(price);
      r == "N/A" || (r != "" && NoSpace(r) && forall k :: 0 <= k < |r| ==> r[k] != ',')
    ensures (forall k :: 0 <= k < |price| ==> IsSpace(price[k])) ==> CleanPrice(price) == "N/A"
  {
    var kept := Keep(price, NotSpace);
    KeepMembers(price, NotSpace);
    if kept != [] {
      assert kept[0] in kept;
    }
  }

  /** The hostname table, in the order it is consulted. */
  const HostCurrencies: seq<(seq<string>, string)> := [
    ([".ae"], "AED"), ([".com"], "USD"), ([".co.uk"], "GBP"),
    ([".de", ".fr", ".es", ".it"], "EUR"), ([".in"], "INR"), ([".jp"], "JPY")
  ]

  predicate ContainsAny(host: string, parts: seq<string>) {
    exists k :: 0 <= k < |parts| && Contains(host, parts[k])
  }

  /** The currency of the first table row one of whose parts the host contains. */
  function HostCurrency(host: string, table: seq<(seq<string>, string)>): (r: Option<string>)
    ensures r.Some? ==> exists k :: 0 <= k < |table| && table[k].1 == r.value
  {
    if table == [] then None
    else if ContainsAny(host, table[0].0) then Some(table[0].1)
    else HostCurrency(host, table[1..])
  }

  /** The first row that matches wins; without a match there is no currency. */
  lemma {:induction false} HostCurrencyFirstHit(host: string, table: seq<(seq<string>, string)>)
    ensures HostCurrency(host, table).None? <==> forall k :: 0 <= k < |table| ==> !ContainsAny(host, table[k].0)
    ensures HostCurrency(host, table).Some? ==>
      exists k :: 0 <= k < |table| && ContainsAny(host, table[k].0) && table[k].1 == HostCurrency(host, table).value
                  && forall j :: 0 <= j < k ==> !ContainsAny(host, table[j].0)
  {
    if table != [] {
      HostCurrencyFirstHit(host, table[1..]);
      if !ContainsAny(host, table[0].0) && HostCurrency(host, table).Some? {
        var k :| 0 <= k < |table[1..]| && ContainsAny(host, table[1..][k].0) && table[1..][k].1 == HostCurrency(host, table).value
                 && forall j :: 0 <= j < k ==> !ContainsAny(host, table[1..][j].0);
        assert forall j :: 0 <= j < k + 1 ==> !ContainsAny(host, table[j].0) by {
          forall j | 0 <= j < k + 1 ensures !ContainsAny(host, table[j].0) {
            if j > 0 { assert table[j] == table[1..][j - 1]; }
          }
        }
        assert table[k + 1] == table[1..][k];
      }
    }
  }

  /** A `.ae` host is priced in dirhams whatever else it contains. */
  lemma EmiratesHostFirst(host: string)
    requires Contains(host, ".ae")
    ensures HostCurrency(host, HostCurrencies) == Some("AED")
  {
    assert HostCurrencies[0].0[0] == ".ae";
  }

  /** `"<currency> <price>"` when both are known, else the price alone. */
  function PriceWithCurrency(price: string, currency: string): string {
    if currency != "" && price != "N/A" then currency + " " + price else price
  }

  // ---------------------------------------------------------------------------
  // One product page
  // ---------------------------------------------------------------------------

  /**
   * What the selectors of a product page return: the texts of the first
   * `#productTitle`, product-title heading and `data-testid` title elements,
   * the price texts, and the `src` of the first product image ("" when absent).
   */
  datatype ProductPage = ProductPage(productTitle: string, headingTitle: string, testIdTitle: string,
                                     prices: PriceTexts, img: string)

  /** The first non-empty of the three trimmed title texts. */
  function RawTitle(page: ProductPage): string {
    Or(Trim(page.productTitle), Or(Trim(page.headingTitle), Trim(page.testIdTitle)))
  }

  /**
   * The record the route pushes for a product page, or `None` when it skips
   * the product: no title, no ASIN, or a hostname that cannot be parsed.
   */
  function ProductRecord(productUrl: string, page: ProductPage, hostOf: string -> Option<string>): Option<Item> {
    match PriceField(productUrl, page.prices, hostOf)
    case None => None
    case Some(price) =>
      var asin := AsinIn(productUrl).GetOr("");
      var title := CleanTitle(RawTitle(page));
      if title == "N/A" || asin == "" then None
      else if Contains(productUrl, "amazon.") && hostOf(productUrl).None? then None
      else
        var domain := if Contains(productUrl, "amazon.") then hostOf(productUrl).value else "amazon.ae";
        Some(Item(asin, title, price, page.img, productUrl, AffiliateLink(domain, asin)))
  }

  /**
   * The stored price: the cleaned price with the currency of the page, or,
   * for a known price without one, the currency of the product's host;
   * `None` when that hostname cannot be parsed.
   */
  function PriceField(productUrl: string, prices: PriceTexts, hostOf: string -> Option<string>): (r: Option<string>)
    ensures r.Some? ==> r.value == CleanPrice(RawQuote(prices).price)
                        || exists c :: c != "" && r.value == c + " " + CleanPrice(RawQuote(prices).price)
  {
    var quote := RawQuote(prices);
    var price := CleanPrice(quote.price);
    var needsHost := quote.currency == "" && price != "N/A";
    if needsHost && hostOf(productUrl).None? then None
    else
      var currency := if needsHost then HostCurrency(hostOf(productUrl).value, HostCurrencies).GetOr("") else quote.currency;
      PriceWithCurrencyShape(price, currency);
      Some(PriceWithCurrency(price, currency))
  }

  /** What makes a record valid: a real title, and the ASIN of its own URL behind an affiliate link. */
  predicate ValidRecord(item: Item) {
    && item.title != "N/A" && item.title != ""
    && AsinIn(item.url) == Some(item.asin) && |item.asin| == 10
    && StartsWith(item.affiliate, "https://")
  }

  /** A pushed record is valid, its title is the cleaned title and its price the cleaned price with its currency. */
  lemma ProductRecordSpec(productUrl: string, page: ProductPage, hostOf: string -> Option<string>)
    ensures ProductRecord(productUrl, page, hostOf).Some? ==>
      var item := ProductRecord(productUrl, page, hostOf).value;
      && ValidRecord(item)
      && item.url == productUrl
      && item.title == CleanTitle(RawTitle(page))
      && item.img == page.img
      && LinkDomain(productUrl, hostOf).Some?
      && item.affiliate == AffiliateLink(LinkDomain(productUrl, hostOf).value, item.asin)
      && (item.price == CleanPrice(RawQuote(page.prices).price)
          || exists c :: c != "" && item.price == c + " " + CleanPrice(RawQuote(page.prices).price))
  {
    var r := ProductRecord(productUrl, page, hostOf);
    if r.Some? {
      var price := PriceField(productUrl, page.prices, hostOf).value;
      var asin := AsinIn(productUrl).GetOr("");
      var title := CleanTitle(RawTitle(page));
      var domain := if Contains(productUrl, "amazon.") then hostOf(productUrl).value else "amazon.ae";
      var item := Item(asin, title, price, page.img, productUrl, AffiliateLink(domain, asin));
      assert r == Some(item);
      assert ValidRecord(item) by {
        assert AsinIn(productUrl) == Some(asin);
        StartsWithHttps(domain, asin);
      }
    }
  }

  lemma PriceWithCurrencyShape(price: string, currency: string)
    ensures PriceWithCurrency(price, currency) == price
            || exists c :: c != "" && PriceWithCurrency(price, currency) == c + " " + price
  {
    if currency != "" && price != "N/A" {
      assert PriceWithCurrency(price, currency) == currency + " " + price;
    }
  }

  lemma StartsWithHttps(domain: string, asin: string)
    ensures StartsWith(AffiliateLink(domain, asin), "https://")
  {
    var link := AffiliateLink(domain, asin);
    var prefix := "https://" + domain + "/dp/" + asin;
    assert link[..|prefix|] == prefix;
    assert prefix[..8] == "https://";
    assert link[..8] == prefix[..8];
  }

  /** A product URL without an ASIN, or a page without a title, is skipped. */
  lemma ProductRecordSkips(productUrl: string, page: ProductPage, hostOf: string -> Option<string>)
    requires AsinIn(productUrl).None? || CleanTitle(RawTitle(page)) == "N/A"
    ensures ProductRecord(productUrl, page, hostOf).None?
  {
  }

  /** The currency table is consulted only for a known price without a currency of its own. */
  lemma HostCurrencyOnlyWhenMissing(productUrl: string, page: ProductPage, hostOf: string -> Option<string>)
    requires RawQuote(page.prices).currency != "" || CleanPrice(RawQuote(page.prices).price) == "N/A"
    requires ProductRecord(productUrl, page, hostOf).Some?
    ensures ProductRecord(productUrl, page, hostOf).value.price
            == PriceWithCurrency(CleanPrice(RawQuote(page.prices).price), RawQuote(page.prices).currency)
  {
  }

  /** The three price approaches as the route runs them, reassigning `price` and `currency`. */
  method ExtractQuote(p: PriceTexts) returns (price: string, currency: string)
    ensures Quote(price, currency) == RawQuote(p)
  {
    price, currency := "", "";
    var whole := Trim(p.whole);
    var fraction := Trim(p.fraction);
    var symbol := Trim(p.symbol);
    if whole != "" {
      price := whole + fraction;
      currency := symbol;
    }
    if price == "" {
      var full := Trim(p.offscreen);
      if full != "" {
        var leading := Leftmost(full, 0, MarkThenAmountAt);
        if leading.Some? {
          currency, price := leading.value.currency, leading.value.price;
        } else {
          var trailing := Leftmost(full, 0, AmountThenMarkAt);
          if trailing.Some? {
            price, currency := trailing.value.price, trailing.value.currency;
          } else {
            price := Keep(full, IsAmountChar);
            currency := Keep(full, IsMarkChar);
          }
        }
      }
    }
    if price == "" {
      var oldWhole := Trim(p.oldWhole);
      var oldFraction := Trim(p.oldFraction);
      if oldWhole != "" {
        price := oldWhole + oldFraction;
        currency := Trim(p.oldSymbol);
      }
    }
  }

  /** One iteration of the product loop: the product page is requested and its record, if any, is the entry to add. */
  method ProductEntry(productUrl: string, web: Web) returns (added: seq<Entry>)
    ensures added == ProductEntries(productUrl, web)
  {
    var page := web.product(productUrl);
    if page.None? {
      return [];
    }
    var record := ParseProduct(productUrl, page.value, web.hostOf);
    if record.None? {
      return [];
    }
    added := [Found(record.value)];
  }

  /** The body of the product loop: the record to push, or `None` to skip the product. */
  method ParseProduct(productUrl: string, page: ProductPage, hostOf: string -> Option<string>) returns (record: Option<Item>)
    ensures record == ProductRecord(productUrl, page, hostOf)
  {
    var asin := AsinIn(productUrl).GetOr("");
    var title := CleanTitle(RawTitle(page));
    var priceWithCurrency := ParsePrice(productUrl, page.prices, hostOf);
    if priceWithCurrency.None? || title == "N/A" || asin == "" {
      return None;
    }
    var domain := "amazon.ae";
    if Contains(productUrl, "amazon.") {
      var host := hostOf(productUrl);
      if host.None? {
        return None;
      }
      domain := host.value;
    }
    var item := Item(asin, title, priceWithCurrency.value, page.img, productUrl, AffiliateLink(domain, asin));
    assert ProductRecord(productUrl, page, hostOf) == Some(item);
    return Some(item);
  }

  /** The price part of the product step: the quote cleaned, with the host's currency when it has none. */
  method ParsePrice(productUrl: string, prices: PriceTexts, hostOf: string -> Option<string>) returns (priceWithCurrency: Option<string>)
    ensures priceWithCurrency == PriceField(productUrl, prices, hostOf)
  {
    var price, currency := ExtractQuote(prices);
    price := CleanPrice(price);
    if currency == "" && price != "N/A" {
      var host := hostOf(productUrl);
      if host.None? {
        return None;
      }
      currency := HostCurrency(host.value, HostCurrencies).GetOr("");
    }
    return Some(PriceWithCurrency(price, currency));
  }

  // ---------------------------------------------------------------------------
  // The batch
  // ---------------------------------------------------------------------------

  datatype Web = Web(head: string -> FollowReply, get: string -> FollowReply,
                     listing: string -> Option<seq<Anchor>>, product: string -> Option<ProductPage>,
                     hostOf: string -> Option<string>)

  /** A stored entry: a product record, or the placeholder of a source that failed. */
  datatype Entry = Found(item: Item) | Failure(title: string)

  const MaxSources: nat := 10

  /** `url.slice(-n)`: the last `n` characters, or all of them. */
  function Last(s: string, n: nat): (r: string)
    ensures |r| <= n && |r| <= |s|
  {
    if |s| <= n then s else s[|s| - n..]
  }

  /** The title of the placeholder entry of a failed source. */
  function FailureTitle(url: string): string {
    "Error: " + Last(url, 60)
  }

  /** The entries a product page adds. */
  function ProductEntries(productUrl: string, web: Web): (r: seq<Entry>)
    ensures |r| <= 1
  {
    match web.product(productUrl)
    case None => []
    case Some(page) =>
      match ProductRecord(productUrl, page, web.hostOf)
      case None => []
      case Some(item) => [Found(item)]
  }

  /** The product loop: each URL in turn, until the list holds 100 entries. */
  function Visit(productUrls: seq<string>, items: seq<Entry>, web: Web): seq<Entry>
    decreases |productUrls|
  {
    if productUrls == [] || |items| >= ProductCap then items
    else Visit(productUrls[1..], items + ProductEntries(productUrls[0], web), web)
  }

  /** The product URLs of a source, or `None` when the route's per-source `try` fails. */
  function Scraped(url: string, web: Web): Option<seq<string>> {
    var resolved := ResolveFollowing(url, web.head, web.get).url;
    match web.listing(resolved)
    case None => None
    case Some(anchors) => SourceProductUrls(resolved, anchors, web.hostOf)
  }

  /** The list after one source: its first 100 products visited, or one placeholder when it failed. */
  function AfterSource(url: string, items: seq<Entry>, web: Web): seq<Entry> {
    match Scraped(url, web)
    case None => items + [Failure(FailureTitle(url))]
    case Some(productUrls) => Visit(Take(productUrls, ProductCap), items, web)
  }

  function AfterSources(urls: seq<string>, items: seq<Entry>, web: Web): seq<Entry>
    decreases |urls|
  {
    if urls == [] then items else AfterSources(urls[1..], AfterSource(urls[0], items, web), web)
  }

  datatype Response = Rejected(status: nat, error: string) | Saved(shortId: string, items: seq<Entry>)

  /**
   * The route's answer for the parsed body's `urls` (`None` when absent), a
   * fresh short id, and the outcome of the database insert (its error message,
   * if any). `Saved` carries the stored row.
   */
  function Post(urls: Option<seq<string>>, web: Web, shortId: string, insertError: Option<string>): Response {
    if urls.None? || urls.value == [] then Rejected(400, "No URLs")
    else
      var items := AfterSources(Take(urls.value, MaxSources), [], web);
      if insertError.Some? then Rejected(500, insertError.value) else Saved(shortId, items)
  }

  lemma VisitStep(productUrls: seq<string>, i: nat, items0: seq<Entry>, items: seq<Entry>, web: Web)
    requires i < |productUrls| && |items| < ProductCap
    requires Visit(productUrls[i..], items, web) == Visit(productUrls, items0, web)
    ensures Visit(productUrls[i + 1..], items + ProductEntries(productUrls[i], web), web) == Visit(productUrls, items0, web)
  {
    assert productUrls[i..][1..] == productUrls[i + 1..];
  }

  /** The inner `for` loop with its `break` at 100 entries; failing products are skipped. */
  method VisitProducts(productUrls: seq<string>, items0: seq<Entry>, web: Web) returns (items: seq<Entry>)
    ensures items == Visit(productUrls, items0, web)
  {
    items := items0;
    var i := 0;
    while i < |productUrls|
      invariant 0 <= i <= |productUrls|
      invariant Visit(productUrls[i..], items, web) == Visit(productUrls, items0, web)
    {
      if |items| >= ProductCap {
        break;
      }
      var productUrl := productUrls[i];
      VisitStep(productUrls, i, items0, items, web);
      var added := ProductEntry(productUrl, web);
      items := items + added;
      i := i + 1;
    }
  }

  /** The body of the outer loop for one source URL. */
  method ScrapeSource(url: string, items0: seq<Entry>, web: Web) returns (items: seq<Entry>)
    ensures items == AfterSource(url, items0, web)
  {
    var resolvedUrl := ResolveFollowing(url, web.head, web.get).url;
    var listing := web.listing(resolvedUrl);
    var productUrls: Option<seq<string>> := None;
    if listing.Some? {
      productUrls := SourceProductUrls(resolvedUrl, listing.value, web.hostOf);
    }
    if productUrls.None? {
      items := items0 + [Failure(FailureTitle(url))];
    } else {
      items := VisitProducts(Take(productUrls.value, ProductCap), items0, web);
    }
  }

  lemma AfterSourcesStep(urls: seq<string>, i: nat, items: seq<Entry>, web: Web)
    requires i < |urls|
    ensures AfterSources(urls[i..], items, web) == AfterSources(urls[i + 1..], AfterSource(urls[i], items, web), web)
  {
    assert urls[i..][1..] == urls[i + 1..];
  }

  /** `POST /api/parse` after the body has been parsed. */
  method HandlePost(urls: Option<seq<string>>, web: Web, shortId: string, insertError: Option<string>) returns (response: Response)
    ensures response == Post(urls, web, shortId, insertError)
  {
    if urls.None? || urls.value == [] {
      return Rejected(400, "No URLs");
    }
    var sources := Take(urls.value, MaxSources);
    var items: seq<Entry> := [];
    var i := 0;
    while i < |sources|
      invariant 0 <= i <= |sources|
      invariant AfterSources(sources[i..], items, web) == AfterSources(sources, [], web)
    {
      AfterSourcesStep(sources, i, items, web);
      items := ScrapeSource(sources[i], items, web);
      i := i + 1;
    }
    if insertError.Some? {
      return Rejected(500, insertError.value);
    }
    return Saved(shortId, items);
  }

  // ---------------------------------------------------------------------------
  // Properties of the batch
  // ---------------------------------------------------------------------------

  function Max(a: nat, b: nat): nat { if a < b then b else a }

  /** Product records never take the list past 100 entries, and a full list is left alone. */
  lemma {:induction false} VisitBound(productUrls: seq<string>, items: seq<Entry>, web: Web)
    ensures |Visit(productUrls, items, web)| <= Max(|items|, ProductCap)
    ensures |items| >= ProductCap ==> Visit(productUrls, items, web) == items
    ensures items <= Visit(productUrls, items, web)
    decreases |productUrls|
  {
    if productUrls != [] && |items| < ProductCap {
      VisitBound(productUrls[1..], items + ProductEntries(productUrls[0], web), web);
    }
  }

  /** The number of sources whose per-source `try` fails. */
  function Failures(urls: seq<string>, web: Web): (n: nat)
    ensures n <= |urls|
  {
    if urls == [] then 0 else (if Scraped(urls[0], web).None? then 1 else 0) + Failures(urls[1..], web)
  }

  /** Only placeholders of failed sources can take the list beyond 100 entries. */
  lemma {:induction false} AfterSourcesBound(urls: seq<string>, items: seq<Entry>, web: Web)
    ensures |AfterSources(urls, items, web)| <= Max(|items|, ProductCap) + Failures(urls, web)
    ensures items <= AfterSources(urls, items, web)
    decreases |urls|
  {
    if urls != [] {
      var next := AfterSource(urls[0], items, web);
      if Scraped(urls[0], web).Some? {
        VisitBound(Take(Scraped(urls[0], web).value, ProductCap), items, web);
      }
      AfterSourcesBound(urls[1..], next, web);
    }
  }

  predicate AllValid(entries: seq<Entry>) {
    forall k :: 0 <= k < |entries| && entries[k].Found? ==> ValidRecord(entries[k].item)
  }

  lemma ProductEntriesValid(productUrl: string, items: seq<Entry>, web: Web)
    requires AllValid(items)
    ensures AllValid(items + ProductEntries(productUrl, web))
  {
    var added := ProductEntries(productUrl, web);
    assert AllValid(added) by {
      var page := web.product(productUrl);
      if page.Some? {
        ProductRecordSpec(productUrl, page.value, web.hostOf);
      }
    }
    AllValidAppend(items, added);
  }

  lemma AllValidAppend(a: seq<Entry>, b: seq<Entry>)
    requires AllValid(a) && AllValid(b)
    ensures AllValid(a + b)
  {
    assert forall k :: |a| <= k < |a + b| ==> (a + b)[k] == b[k - |a|];
  }

  lemma {:induction false} VisitValid(productUrls: seq<string>, items: seq<Entry>, web: Web)
    requires AllValid(items)
    ensures AllValid(Visit(productUrls, items, web))
    decreases |productUrls|
  {
    if productUrls != [] && |items| < ProductCap {
      ProductEntriesValid(productUrls[0], items, web);
      VisitValid(productUrls[1..], items + ProductEntries(productUrls[0], web), web);
    }
  }

  lemma {:induction false} AfterSourcesValid(urls: seq<string>, items: seq<Entry>, web: Web)
    requires AllValid(items)
    ensures AllValid(AfterSources(urls, items, web))
    decreases |urls|
  {
    if urls != [] {
      if Scraped(urls[0], web).Some? {
        VisitValid(Take(Scraped(urls[0], web).value, ProductCap), items, web);
      }
      AfterSourcesValid(urls[1..], AfterSource(urls[0], items, web), web);
    }
  }

  /**
   * A stored row holds at most 100 entries plus one placeholder per failed
   * source among the first ten, and every product record in it is valid.
   */
  lemma SavedRowBounds(urls: Option<seq<string>>, web: Web, shortId: string, insertError: Option<string>)
    requires Post(urls, web, shortId, insertError).Saved?
    ensures var items := Post(urls, web, shortId, insertError).items;
      && |items| <= ProductCap + Failures(Take(urls.value, MaxSources), web)
      && |items| <= ProductCap + MaxSources
      && AllValid(items)
  {
    AfterSourcesBound(Take(urls.value, MaxSources), [], web);
    AfterSourcesValid(Take(urls.value, MaxSources), [], web);
  }

  /** Only the first ten URLs matter. */
  lemma OnlyFirstTenSources(urls: seq<string>, web: Web, shortId: string, insertError: Option<string>)
    requires |urls| > MaxSources
    ensures Post(Some(urls), web, shortId, insertError) == Post(Some(urls[..MaxSources]), web, shortId, insertError)
  {
  }

  /** An absent or empty list is rejected with 400. */
  lemma NoUrlsRejected(web: Web, shortId: string, insertError: Option<string>)
    ensures Post(None, web, shortId, insertError) == Rejected(400, "No URLs")
    ensures Post(Some([]), web, shortId, insertError) == Rejected(400, "No URLs")
  {
  }
}
