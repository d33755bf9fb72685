/**
 * What the two Amazon scraping routes (src/app/api/parse/route.ts and
 * src/app/api/wishlists/route.ts) share: the ASIN pattern, the anchor
 * attributes a listing page yields, the product record and its affiliate link.
 */
module Amazon {
  import opened Wrappers
  import opened Text

  /** The affiliate tag appended to every product link. */
  const Tag: string := "your-affiliate-tag-123"

  /** At most this many product URLs are visited, and product records stop at this many items. */
  const ProductCap: nat := 100

  predicate IsAsinChar(c: char) { IsUpper(c) || IsDigit(c) }

  /** `dp\/([A-Z0-9]{10})` matches at position `i` of `s`. */
  predicate AsinAt(s: string, i: nat) {
    i + 13 <= |s| && s[i..i + 3] == "dp/" && forall k :: i + 3 <= k < i + 13 ==> IsAsinChar(s[k])
  }

  /** The leftmost match position at or after `i`. */
  function FindAsin(s: string, i: nat): (r: Option<nat>)
    ensures r.Some? ==> i <= r.value && AsinAt(s, r.value)
    decreases |s| - i
  {
    if i + 13 > |s| then None
    else if AsinAt(s, i) then Some(i)
    else FindAsin(s, i + 1)
  }

  lemma {:induction false} FindAsinLeftmost(s: string, i: nat)
    ensures FindAsin(s, i).None? ==> forall j: nat :: i <= j ==> !AsinAt(s, j)
    ensures FindAsin(s, i).Some? ==> forall j: nat :: i <= j < FindAsin(s, i).value ==> !AsinAt(s, j)
    decreases |s| - i
  {
    if i + 13 <= |s| && !AsinAt(s, i) {
      FindAsinLeftmost(s, i + 1);
    }
  }

  /** `s.match(/dp\/([A-Z0-9]{10})/)?.[1]`: the ten characters of the leftmost match. */
  function AsinIn(s: string): (r: Option<string>)
    ensures r.Some? ==> |r.value| == 10
  {
    match FindAsin(s, 0)
    case None => None
    case Some(i) => Some(s[i + 3..i + 13])
  }

  /** No ASIN exactly when the pattern matches nowhere; otherwise the ASIN is the leftmost match's group. */
  lemma AsinInSpec(s: string)
    ensures AsinIn(s).None? <==> forall j: nat :: !AsinAt(s, j)
    ensures AsinIn(s).Some? ==>
      exists i: nat :: AsinAt(s, i) && AsinIn(s).value == s[i + 3..i + 13] && forall j: nat :: j < i ==> !AsinAt(s, j)
    ensures AsinIn(s).Some? ==> forall k :: 0 <= k < 10 ==> IsAsinChar(AsinIn(s).value[k])
  {
    FindAsinLeftmost(s, 0);
    if FindAsin(s, 0).Some? {
      var i := FindAsin(s, 0).value;
      assert AsinAt(s, i);
    }
  }

  /** One anchor of a listing page: its `href` and `data-href` attributes ("" when absent). */
  datatype Anchor = Anchor(href: string, dataHref: string)

  /** `attr('href') || attr('data-href')`. */
  function AnchorHref(a: Anchor): string {
    if a.href != "" then a.href else a.dataHref
  }

  /** A scraped product as the routes store it. */
  datatype Item = Item(asin: string, title: string, price: string, img: string, url: string, affiliate: string)

  /** `https://<domain>/dp/<asin>?tag=<Tag>`. */
  function AffiliateLink(domain: string, asin: string): (r: string)
    ensures StartsWith(r, "https://" + domain + "/dp/" + asin)
  {
    var r := "https://" + domain + "/dp/" + asin + "?tag=" + Tag;
    assert r[..|"https://" + domain + "/dp/" + asin|] == "https://" + domain + "/dp/" + asin;
    r
  }

  /** `a.slice(0, n)`. */
  function Take<T>(a: seq<T>, n: nat): (r: seq<T>)
    ensures |r| == if |a| < n then |a| else n
    ensures r == a[..|r|]
  {
    if |a| <= n then a else a[..n]
  }
}
