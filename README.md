# wishlist-mvp, modelled in Dafny

wishlist-mvp is a Next.js application for building gift wishlists out of
Amazon links. This project models its core logic.

The server side:

- `POST /api/parse` and `POST /api/wishlists` scrape Amazon listing and
  product pages into wishlist items. Each item has an ASIN, a cleaned title,
  a price with its currency, an image, and an affiliate link.
- Short Amazon links (`a.co`, `amzn.to`, ...) are resolved first.
- `POST /api/images` collects a product's alternative images.
- The noon.com parser finds the best-matching noon listing for an Amazon
  product by a 0–100 match score.
- `GET`/`PUT /api/profile` read and upsert the user's profile.
- The parser logger keeps the last hundred log entries.
- Further modules cover the cookie-header parser, theme resolution with its
  CSS colour helpers, and the event-type table with its label lookups.

The client side:

- The wishlist editor: deleting items, editing fields, attaching or removing
  a noon.com link, URL and comment editing, and validating a custom short ID.
- The create-wishlist form: splitting and validating URLs, and the request
  body it sends.
- The dashboard's share links.

Everything outside the program is a parameter of the model:

- HTTP requests, the scraped HTML behind cheerio selectors, the Supabase
  database, `new URL(...)`, `decodeURIComponent`, the clock and user prompts.
- A request that throws is `None`, or a dedicated datatype case.
- The model then states what the code does with each possible answer.

Modules, one per source file, plus shared helpers:

| module | models |
|---|---|
| `Text` | helpers shared by all modules: `trim`, `split`, `includes`, filtering, number printing |
| `Amazon` | what both Amazon routes share |
| `NoonParser` | `src/lib/noon-parser.ts` |
| `ParseRoute` | `src/app/api/parse/route.ts` |
| `WishlistsRoute` | `src/app/api/wishlists/route.ts` |
| `ShortUrl` | `src/lib/resolve-short-url.ts` |
| `ImagesRoute` | `src/app/api/images/route.ts` |
| `ParserLog` | `src/lib/parser-logger.ts`, a class whose `logs` field is updated in place |
| `Cookies` | `src/lib/cookies.ts` |
| `HexColor` and `Theme` | `src/lib/theme.ts` |
| `I18n` | `src/lib/i18n.ts` |
| `EditWishlist` | the state updates of `src/components/EditWishlist.tsx`, as the class `Editor` |
| `CreateWishlistForm` | `src/components/CreateWishlistForm.tsx`, as the class `Form` |
| `Dashboard` | the links of `src/components/DashboardContent.tsx` |
| `ProfileRoute` | `src/app/api/profile/route.ts` |

Code that loops or reassigns variables is modelled as methods with loops:

- the scraping loops, and the price cascade that reassigns `price`/`currency`;
- the cookie loop, the image loops and the brand search;
- the steps of the match score;
- the short-link resolver and the profile upsert with its retry.

Each such method is proved equal to a specification function. The lemmas
state the properties of those functions.

The create form and the wishlists route do not agree on the request body.
The form sends `urls`, an array (CreateWishlistForm.tsx:112-117). The route
reads `url`, a single string (wishlists/route.ts:42-49). As written, a form
submission therefore reaches the route without a URL and gets the 400 answer
`WishlistsRoute.FieldsRequired`. Each side is modelled as its own code is
written.

## Model

| member | source | states |
|---|---|---|
| Amazon.FindAsin | src/app/api/parse/route.ts:127 | a position found holds a `dp/` followed by ten `[A-Z0-9]` characters, at or after the start |
| Amazon.FindAsinLeftmost | src/app/api/parse/route.ts:127 | no match lies before the position found, and none anywhere when nothing is found |
| Amazon.AsinIn | src/app/api/parse/route.ts:127 | the ASIN `match(/dp\/([A-Z0-9]{10})/)?.[1]` yields has ten characters |
| Amazon.AsinInSpec | src/app/api/wishlists/route.ts:107 | no ASIN exactly when the pattern matches nowhere; otherwise it is the group of the leftmost match, all capitals and digits |
| Amazon.AffiliateLink | src/app/api/parse/route.ts:216 | the affiliate link starts with `https://<domain>/dp/<asin>` |
| Amazon.Take | src/app/api/parse/route.ts:78 | `slice(0, n)` keeps `min(n, length)` elements, a prefix of the list |
| NoonParser.RemoveAll | src/lib/noon-parser.ts:25-27 | a global `replace(..., '')` never makes the text longer |
| NoonParser.RemoveAllChars | src/lib/noon-parser.ts:25-27 | removing matches only drops characters of the text |
| NoonParser.WholeWordAt | src/lib/noon-parser.ts:25 | a `\b(w1\|w2\|...)\b` match at a position fits in the rest of the text |
| NoonParser.DigitRun | src/lib/noon-parser.ts:26 | the digit run at a position is maximal: all digits, and no digit after it |
| NoonParser.SizeAt | src/lib/noon-parser.ts:26 | a size match (`\d+(\.\d+)?\s*unit\b`) fits in the rest of the text |
| NoonParser.PunctuationToSpace | src/lib/noon-parser.ts:28 | every character that is neither a word character nor white space becomes a blank; the length is kept |
| NoonParser.CollapseSpacesBlank | src/lib/noon-parser.ts:29 | after `replace(/\s+/g, ' ')` a lower-case text holds only word characters and single blanks |
| NoonParser.WordsAndSpaces | src/lib/noon-parser.ts:23-28 | the lower-cased, stripped title holds only lower-case word characters and white space |
| NoonParser.CleanedTitle | src/lib/noon-parser.ts:23-30 | the cleaned title holds only lower-case word characters and blanks |
| NoonParser.KeepKeywordsMembers | src/lib/noon-parser.ts:33-36 | the filter keeps exactly the words longer than two characters that are not stop words |
| NoonParser.KeywordsAreKeywords | src/lib/noon-parser.ts:21-39 | every keyword of a title is a lower-case word of at least three characters and no stop word |
| NoonParser.FirstToken | src/lib/noon-parser.ts:61 | `split(/[\s:,\-]/)[0]` is the prefix before the first delimiter, and holds none |
| NoonParser.FirstBrandInSpec | src/lib/noon-parser.ts:54-58 | the brand found is the first of the list contained in the title; none is found exactly when none is contained |
| NoonParser.BrandSpec | src/lib/noon-parser.ts:44-67 | a known brand contained in the lower-cased title wins; otherwise the first token, when longer than two characters |
| NoonParser.BrandFromTokenLower | src/lib/noon-parser.ts:61-64 | a brand taken from the first token is lower-case, longer than two characters and free of delimiters |
| NoonParser.ExtractBrand | src/lib/noon-parser.ts:44-67 | the procedure returns the brand of the specification |
| NoonParser.SearchBrands | src/lib/noon-parser.ts:53-66 | the loop with its early return finds the first contained brand, else falls back to the first token |
| NoonParser.CleanUrl | src/lib/noon-parser.ts:72-75 | the clean URL is a prefix of the URL without `?` or `#`; a URL without either is kept |
| NoonParser.CleanUrlIdempotent | src/lib/noon-parser.ts:72-75 | cleaning twice is cleaning once |
| NoonParser.CodeAt | src/lib/noon-parser.ts:84 | a currency code matched at a position is one of the ten codes, upper-cased |
| NoonParser.FirstCodeSpec | src/lib/noon-parser.ts:84-87 | a code is found exactly when one matches somewhere, and then it is the leftmost one |
| NoonParser.Currency | src/lib/noon-parser.ts:80-100 | the currency is always one of the ten codes |
| NoonParser.CurrencySpec | src/lib/noon-parser.ts:80-100 | AED for an empty text; a code in the text wins over any symbol; without code or symbol AED |
| NoonParser.PriceAt | src/lib/noon-parser.ts:110 | a price matches at a position exactly when a standalone run of 1–6 digits starts there; its value is below 10^8 cents |
| NoonParser.FirstPriceFound | src/lib/noon-parser.ts:110-114 | a price is found exactly when a standalone run of 1–6 digits exists |
| NoonParser.PriceValue | src/lib/noon-parser.ts:105-117 | a price value is below a million units (10^8 cents) |
| NoonParser.PriceValueFound | src/lib/noon-parser.ts:105-117 | `extractPriceValue` returns a number exactly when a standalone run of 1–6 digits exists |
| NoonParser.CommaIsDecimalPoint | src/lib/noon-parser.ts:113 | turning every comma into a dot does not change the value: the comma is a decimal point |
| NoonParser.Fixed2 | src/lib/noon-parser.ts:136 | `toFixed(2)` prints digits, a dot and two digits whose value is the amount in cents |
| NoonParser.FormatPrice | src/lib/noon-parser.ts:122-141 | a formatted price is never empty |
| NoonParser.FormatPriceSpec | src/lib/noon-parser.ts:122-141 | 'N/A' for no text; the text as given when no value is found; else the value to two places, a blank and the currency of the cleaned text |
| NoonParser.MatchedKeywords | src/lib/noon-parser.ts:158-162 | the matched keywords are a sub-list of the reference keywords; all of them exactly when the list is the reference |
| NoonParser.MatchedKeywordsMembers | src/lib/noon-parser.ts:158-162 | a reference keyword is matched exactly when some candidate keyword contains it or is contained in it |
| NoonParser.KeywordPoints | src/lib/noon-parser.ts:164-165 | keyword points lie in 0..50, and are 50 exactly when every one of at least one keyword matched |
| NoonParser.BrandPoints | src/lib/noon-parser.ts:168-178 | brand points are 0, 10 or 20, and 20 exactly when both titles have the same brand |
| NoonParser.RelativeDifference | src/lib/noon-parser.ts:186 | the relative difference is non-negative and 0 exactly for equal prices |
| NoonParser.PricePoints | src/lib/noon-parser.ts:181-192 | price points are 0 or in (15, 30]; they are positive exactly when both price texts are non-empty, both parse to positive values and these differ by less than half the reference value, and then they are 30 × (1 − the relative difference) |
| NoonParser.MatchScoreBounds | src/lib/noon-parser.ts:146-204 | the score is a whole number from 0 to 100 |
| NoonParser.CalculateMatchScore | src/lib/noon-parser.ts:146-204 | adding the three steps to a score that starts at 0, then rounding, gives the specified score |
| NoonParser.MatchScoreOfParts | src/lib/noon-parser.ts:203 | the rounded sum of the three parts is the specified score |
| NoonParser.KeywordScore | src/lib/noon-parser.ts:155-165 | step 1, the matched keywords over `Math.max(count, 1)` times 50, gives the keyword points, from 0 to 50 |
| NoonParser.KeywordPointsOfRatio | src/lib/noon-parser.ts:155-165 | the keyword points are the matched share of the reference keywords (at least one) times 50 |
| NoonParser.BrandScore | src/lib/noon-parser.ts:168-178 | step 2, the if-chain over the two extracted brands, gives the brand points |
| NoonParser.PriceScore | src/lib/noon-parser.ts:181-192 | step 3, the nested tests on the two prices, gives the price points |
| NoonParser.MatchedKeywordsSelf | src/lib/noon-parser.ts:158-162 | a title whose keywords all occur in the other matches all of them |
| NoonParser.IdenticalListingsScoreHundred | src/lib/noon-parser.ts:146-204 | a listing compared with itself (with keywords, a brand and a positive price) scores 100 |
| NoonParser.PricePointsSame | src/lib/noon-parser.ts:185-190 | equal positive prices give the full 30 points |
| NoonParser.SkuFrom | src/lib/noon-parser.ts:265-266 | the SKU captured by `/\/([A-Z0-9-]+)\/p\/?/` holds only capitals, digits and dashes |
| NoonParser.NameCandidate | src/lib/noon-parser.ts:258-282 | a candidate built from a product name carries the match score of its title and card price, in 0..100 |
| NoonParser.LinkCandidate | src/lib/noon-parser.ts:290-310 | a candidate built from a product link carries a score in 0..100 |
| NoonParser.NameCandidates | src/lib/noon-parser.ts:255-283 | the first strategy yields at most one candidate per element, each scored in 0..100 |
| NoonParser.LinkCandidates | src/lib/noon-parser.ts:287-311 | the second strategy yields at most one candidate per link, each scored in 0..100 |
| NoonParser.Candidates | src/lib/noon-parser.ts:254-312 | at most five candidates; the link strategy is used only when the name strategy found none |
| NoonParser.SelectBest | src/lib/noon-parser.ts:317-338 | the stable sort's first element: the earliest candidate of highest score, returned only when it reaches the threshold, otherwise every score is below it |
| NoonParser.CandidateFromName | src/lib/noon-parser.ts:255-283 | the `.each` callback builds the specified candidate |
| NoonParser.CandidateFromLink | src/lib/noon-parser.ts:287-311 | the `.each` callback builds the specified candidate |
| NoonParser.NameStrategy | src/lib/noon-parser.ts:255-283 | the loop over the first five names collects the specified candidates |
| NoonParser.LinkStrategy | src/lib/noon-parser.ts:287-311 | the loop over the first five links collects the specified candidates |
| NoonParser.SearchNoonProduct | src/lib/noon-parser.ts:231-344 | no result for a failed request; otherwise the earliest best-scoring candidate when it reaches the threshold (40 by default), else none |
| NoonParser.ParseNoonProduct | src/lib/noon-parser.ts:350-401 | none exactly when the request fails or all three title sources are empty; a product has a title, the cleaned URL and no score |
| ParseRoute.ResolveFollowing | src/app/api/parse/route.ts:15-62 | a long URL is kept without requests; at most two requests; a non-empty URL never resolves to "" |
| ParseRoute.ResolveFollowingFallsBack | src/app/api/parse/route.ts:57-60 | when HEAD and GET both throw, the short link itself is kept |
| ParseRoute.ProductLinks | src/app/api/parse/route.ts:95-103 | at most one link per anchor of the listing |
| ParseRoute.ProductLinksSpec | src/app/api/parse/route.ts:95-103 | every collected link contains `/dp/` and is an anchor's link: the link itself when it contains `http`, else `https://` + domain + link; collecting fails exactly when a relative link meets a page URL that does not parse |
| ParseRoute.ProductLinksFromAnchors | src/app/api/parse/route.ts:95-103 | every collected link is the completed link of one of the page's anchors |
| ParseRoute.AbsoluteLinkKept | src/app/api/parse/route.ts:96-102 | an absolute `/dp/` link is kept unchanged, ahead of the links of later anchors |
| ParseRoute.SourceProductUrls | src/app/api/parse/route.ts:95-112 | at most one product URL per anchor, or the single product URL |
| ParseRoute.SingleProductFallback | src/app/api/parse/route.ts:106-112 | with no links and an ASIN in the URL, `https://<host>/dp/<asin>` is the only product |
| ParseRoute.StripBracketSuffixSpec | src/app/api/parse/route.ts:138 | without a bracket tail the title is kept; with one, everything from the first bracket on goes, with the white space before it |
| ParseRoute.CleanTitle | src/app/api/parse/route.ts:138 | the cleaned title is never empty |
| ParseRoute.CleanTitleShape | src/app/api/parse/route.ts:138 | a cleaned title is `N/A` or a piece of the input of at most 120 characters without white space at either end |
| ParseRoute.CleanTitleOfPlainTitle | src/app/api/parse/route.ts:138 | a short one-line title with nothing to strip only loses its surrounding white space |
| ParseRoute.OffscreenQuoteChars | src/app/api/parse/route.ts:155-175 | the offscreen price holds only digits, commas and dots; when either pattern matches, the price is non-empty and the currency has one to three characters |
| ParseRoute.PriceCascadeOrder | src/app/api/parse/route.ts:144-185 | the three approaches take precedence in order; an earlier one that found a price is never overridden |
| ParseRoute.PriceCascadeLegacy | src/app/api/parse/route.ts:177-185 | the legacy selectors are the last resort; a price is found whenever the current or the legacy whole part is not blank |
| ParseRoute.CleanPriceShape | src/app/api/parse/route.ts:188 | the final price has no white space and no comma, or is `N/A` |
| ParseRoute.HostCurrency | src/app/api/parse/route.ts:191-200 | the currency of the first hostname row that matches |
| ParseRoute.HostCurrencyFirstHit | src/app/api/parse/route.ts:193-199 | the first row whose part the host contains wins; without one there is no currency |
| ParseRoute.EmiratesHostFirst | src/app/api/parse/route.ts:194 | a `.ae` host is priced in AED whatever else it contains |
| ParseRoute.PriceField | src/app/api/parse/route.ts:187-203 | the stored price is the cleaned price, prefixed by its currency when both are known |
| ParseRoute.ProductRecordSpec | src/app/api/parse/route.ts:127-219 | a pushed record is valid (a real title, the ASIN of its own URL), keeps its product URL, image and cleaned title; its affiliate link is `https://<domain>/dp/<asin>?tag=…` on the product URL's host, or on `amazon.ae` for a non-Amazon URL; its price is the cleaned price, possibly prefixed by a currency |
| ParseRoute.PriceWithCurrencyShape | src/app/api/parse/route.ts:203 | `<currency> <price>` when both are known, else the price alone |
| ParseRoute.ProductRecordSkips | src/app/api/parse/route.ts:207 | a product URL without an ASIN, or a page without a title, is skipped |
| ParseRoute.HostCurrencyOnlyWhenMissing | src/app/api/parse/route.ts:191 | with a scraped currency, or without a price, the stored price ignores the hostname table |
| ParseRoute.ExtractQuote | src/app/api/parse/route.ts:141-185 | reassigning `price` and `currency` through the three approaches gives the specified quote |
| ParseRoute.ProductEntry | src/app/api/parse/route.ts:120-222 | one loop iteration adds the product's record, or nothing when its request throws or it is skipped |
| ParseRoute.ParseProduct | src/app/api/parse/route.ts:127-219 | the product step computes the specified record |
| ParseRoute.ParsePrice | src/app/api/parse/route.ts:141-203 | the price step computes the specified price field |
| ParseRoute.ProductEntries | src/app/api/parse/route.ts:120-222 | a product page adds at most one entry |
| ParseRoute.VisitProducts | src/app/api/parse/route.ts:117-223 | the inner loop, with its `break` at 100 entries, computes the specified list |
| ParseRoute.ScrapeSource | src/app/api/parse/route.ts:79-228 | one source adds its products' records, or one `Error:` placeholder when its `try` fails |
| ParseRoute.HandlePost | src/app/api/parse/route.ts:64-250 | the handler, step by step, gives the reply of the specification `Post` |
| ParseRoute.VisitBound | src/app/api/parse/route.ts:117-118 | product records never take the list past 100, and a full list is left alone |
| ParseRoute.AfterSourcesBound | src/app/api/parse/route.ts:78-229 | only placeholders of failed sources can take the list beyond 100 entries |
| ParseRoute.ProductEntriesValid | src/app/api/parse/route.ts:207-217 | every record a product page adds is valid |
| ParseRoute.VisitValid | src/app/api/parse/route.ts:117-223 | the product loop adds only valid records |
| ParseRoute.AfterSourcesValid | src/app/api/parse/route.ts:78-229 | every entry of the batch is a valid record or a placeholder |
| ParseRoute.SavedRowBounds | src/app/api/parse/route.ts:231-244 | a stored row holds at most 100 entries plus one placeholder per failed source (so at most 110), and every record in it is valid |
| ParseRoute.OnlyFirstTenSources | src/app/api/parse/route.ts:78 | URLs after the tenth do not change the answer |
| ParseRoute.NoUrlsRejected | src/app/api/parse/route.ts:72-74 | an absent or empty list is rejected with 400 `No URLs` |
| WishlistsRoute.ProductLinks | src/app/api/wishlists/route.ts:68-79 | at most one link per anchor of the listing |
| WishlistsRoute.ProductLinksSpec | src/app/api/wishlists/route.ts:68-79 | every kept link contains `/dp/` and comes from an anchor of the page |
| WishlistsRoute.SingleProductFallback | src/app/api/wishlists/route.ts:82-87 | with no links and an ASIN in the URL, the URL itself (or the `amazon.ae` product URL) is the only product |
| WishlistsRoute.ItemTitle | src/app/api/wishlists/route.ts:110-116 | the title is the trimmed text cut to 120 characters, or `N/A` |
| WishlistsRoute.ItemPrice | src/app/api/wishlists/route.ts:119-121 | the price is the joined parts, or `N/A` when both are empty |
| WishlistsRoute.ItemTitleSpec | src/app/api/wishlists/route.ts:110-116 | the title is `N/A` exactly when the trimmed text is empty (or is `N/A` itself); otherwise it is a prefix of the trimmed text |
| WishlistsRoute.ProductRecordSpec | src/app/api/wishlists/route.ts:107-147 | an item has a real title and the ASIN, image and URL of its own product; its affiliate link is on the product's host exactly when the URL contains `amazon.`, else on `amazon.ae`; a URL without an ASIN or a page without a title gives no item |
| WishlistsRoute.ProductItems | src/app/api/wishlists/route.ts:95-151 | a product page adds at most one item |
| WishlistsRoute.ProductItem | src/app/api/wishlists/route.ts:95-151 | one loop iteration adds the specified item |
| WishlistsRoute.CollectItems | src/app/api/wishlists/route.ts:92-152 | the loop collects exactly the items of the product walk `Visit`, which stops once 100 items are held |
| WishlistsRoute.HandlePost | src/app/api/wishlists/route.ts:27-205 | the handler, step by step, gives the reply of the specification `Post` |
| WishlistsRoute.VisitBound | src/app/api/wishlists/route.ts:92-93 | the loop never collects more than 100 items, and only appends |
| WishlistsRoute.CreatedBounds | src/app/api/wishlists/route.ts:161-196 | a created wishlist holds between 1 and 100 items and reports how many |
| WishlistsRoute.MissingFieldsBeforeFetch | src/app/api/wishlists/route.ts:44-49 | a signed-in request without URL or title is answered 400 `FieldsRequired`, whatever the web would answer |
| ShortUrl.ShortIsStillShort | src/lib/resolve-short-url.ts:9-10 | every short link passes the looser test of the second hop |
| ShortUrl.ResolveShortUrl | src/lib/resolve-short-url.ts:7-71 | the procedure, reassigning `finalUrl` and recursing on redirect errors, returns the specified URL and makes the specified requests |
| ShortUrl.LongUrlUntouched | src/lib/resolve-short-url.ts:12-14 | a URL that is not a short link comes back unchanged, with no request |
| ShortUrl.ShortUrlRequestedFirst | src/lib/resolve-short-url.ts:18-27 | a short link is always requested first |
| ShortUrl.FirstAnswerFinal | src/lib/resolve-short-url.ts:30-54 | a first answer that leads to another URL that no longer looks short is final, after one request |
| ShortUrl.AnsweredAtMostTwoRequests | src/lib/resolve-short-url.ts:18-54 | when nothing throws, at most two requests are made, the second for a URL that still looks short |
| ShortUrl.PlainFailureGivesInput | src/lib/resolve-short-url.ts:68-69 | an error without a redirect, on the first or on the second request, gives back the original input |
| ShortUrl.RedirectErrorReturned | src/lib/resolve-short-url.ts:57-65 | a redirect error towards a URL that no longer looks short returns that URL |
| ShortUrl.RedirectErrorFollowed | src/lib/resolve-short-url.ts:61-63 | a redirect error towards another short link is resolved again |
| ShortUrl.RequestBound | src/lib/resolve-short-url.ts:7-71 | at most `2 * (hops + 1)` requests in all |
| ShortUrl.NeverEmpty | src/lib/resolve-short-url.ts:30-35 | a non-empty input never resolves to the empty string |
| ImagesRoute.SuffixClose | src/app/api/images/route.ts:44 | the lazy `.*?_\.` ends at the first `_.` reached without crossing a line break; `None` exactly when no such end exists |
| ImagesRoute.SizeSuffix | src/app/api/images/route.ts:44 | the result is the leftmost match of `\._.*?_\.` at or after the start: it opens with `._`, closes at the first `_.`, crosses no line break, and no match starts earlier; `None` exactly when no match starts there or later |
| ImagesRoute.ThumbAt | src/app/api/images/route.ts:45 | the result is the leftmost occurrence of `/thumb/` at or after the start; `None` exactly when there is none |
| ImagesRoute.DropSizeSuffix | src/app/api/images/route.ts:44 | the first size suffix, if any, is replaced by `.`; without one the text is kept |
| ImagesRoute.DropThumb | src/app/api/images/route.ts:45 | the first `/thumb/`, if any, is replaced by `/`; the text gets shorter exactly when it holds `/thumb/` |
| ImagesRoute.HiRes | src/app/api/images/route.ts:43-45 | the first size suffix becomes `.`, then the first `/thumb/` of the result becomes `/`; the source never gets longer |
| ImagesRoute.ClosesAtUnique | src/app/api/images/route.ts:44 | the lazy match has one end |
| ImagesRoute.FirstSuffixUnique | src/app/api/images/route.ts:44 | the leftmost size suffix is unique |
| ImagesRoute.SuffixReplacedIsDrop | src/app/api/images/route.ts:44 | any text that replaces the first size suffix by `.` is the one computed |
| ImagesRoute.FirstThumbUnique | src/app/api/images/route.ts:45 | the leftmost `/thumb/` occurrence is unique |
| ImagesRoute.ThumbReplacedIsDrop | src/app/api/images/route.ts:45 | any text that replaces the first `/thumb/` by `/` is the one computed |
| ImagesRoute.HiResDetermined | src/app/api/images/route.ts:43-45 | the two replacements, in this order, determine the high-resolution source |
| ImagesRoute.HiResUnchanged | src/app/api/images/route.ts:43-45 | a source with neither a size suffix nor `/thumb/` is kept |
| ImagesRoute.HiResDropsSizeSuffix | src/app/api/images/route.ts:44 | an illustration: `41._SL75_.jpg` becomes `41.jpg` |
| ImagesRoute.HiResDropsThumb | src/app/api/images/route.ts:45 | an illustration: `I/thumb/41.jpg` becomes `I/41.jpg` |
| ImagesRoute.NonEmpty | src/app/api/images/route.ts:68 | `filter(Boolean)` keeps exactly the non-empty strings |
| ImagesRoute.FirstIndex | src/app/api/images/route.ts:68 | the position of the first occurrence of a string |
| ImagesRoute.FirstIndexAppend | src/app/api/images/route.ts:68 | appending does not move a first occurrence |
| ImagesRoute.DistinctMembers | src/app/api/images/route.ts:68 | the set keeps exactly the strings of the list |
| ImagesRoute.DistinctOrder | src/app/api/images/route.ts:68 | the set lists its strings in the order of their first occurrences |
| ImagesRoute.DistinctSpec | src/app/api/images/route.ts:68 | `Array.from(new Set(...))` keeps exactly the strings of the list, each once, in the order of their first occurrences, with the first one first |
| ImagesRoute.PushKeys | src/app/api/images/route.ts:56-60 | the `forEach` appends the specified keys |
| ImagesRoute.PushThumbnails | src/app/api/images/route.ts:39-48 | the thumbnail loop appends the specified high-resolution sources |
| ImagesRoute.PushDynamicImages | src/app/api/images/route.ts:51-65 | the dynamic-image loop appends the specified keys and skips what does not parse |
| ImagesRoute.HandlePost | src/app/api/images/route.ts:13-83 | the handler, step by step, gives the reply of the specification `Post` |
| ImagesRoute.FinishSpec | src/app/api/images/route.ts:68-71 | the answer is the prefix of the distinct non-empty strings of length min(10, their number): no repeat, no empty string, at most ten entries, all from the collected list |
| ImagesRoute.AddKeysExtends | src/app/api/images/route.ts:56-60 | appending keys never removes or reorders what is there |
| ImagesRoute.AddThumbnailsExtends | src/app/api/images/route.ts:39-48 | the thumbnail loop only appends |
| ImagesRoute.AddDynamicImagesExtends | src/app/api/images/route.ts:51-65 | the dynamic-image loop only appends |
| ImagesRoute.AddKeysContains | src/app/api/images/route.ts:56-60 | every key of a parsed object ends up in the list |
| ImagesRoute.MainImageFirst | src/app/api/images/route.ts:33-36 | the main image, when there is one, is the first image of the answer |
| ParserLog.AppendedSpec | src/lib/parser-logger.ts:25-30 | adding an entry keeps at most 100 entries and ends with the new entry; below capacity it only appends |
| ParserLog.AppendedKeepsNewest | src/lib/parser-logger.ts:13-30 | repeated logging keeps exactly the newest 100 of everything ever logged |
| ParserLog.SliceFromEndSpec | src/lib/parser-logger.ts:67-69 | `slice(-n)` gives the last `min(n, length)` entries for positive `n`, everything for 0 |
| ParserLog.ParserLogger.constructor | src/lib/parser-logger.ts:14-15 | a new logger is empty |
| ParserLog.ParserLogger.Log | src/lib/parser-logger.ts:17-41 | the buffer becomes the newest 100 of the old entries plus the new one, which is simply appended below capacity |
| ParserLog.ParserLogger.LogInfo | src/lib/parser-logger.ts:43-45 | logs at level info |
| ParserLog.ParserLogger.LogSuccess | src/lib/parser-logger.ts:47-49 | logs at level success |
| ParserLog.ParserLogger.LogError | src/lib/parser-logger.ts:51-53 | logs at level error |
| ParserLog.ParserLogger.LogWarning | src/lib/parser-logger.ts:55-57 | logs at level warning |
| ParserLog.ParserLogger.GetLogs | src/lib/parser-logger.ts:59-61 | returns the buffer |
| ParserLog.ParserLogger.ClearLogs | src/lib/parser-logger.ts:63-65 | empties the buffer |
| ParserLog.ParserLogger.GetLastN | src/lib/parser-logger.ts:67-69 | returns `logs.slice(-n)`, including negative `n` |
| Cookies.Cuts | src/lib/cookies.ts:5-6 | one cut per `;`-separated piece, in order |
| Cookies.ParseCookies | src/lib/cookies.ts:1-9 | the loop writing into the record computes the specified record, or throws when a value cannot be decoded |
| Cookies.PieceParts | src/lib/cookies.ts:6 | a piece is trimmed and cut at `=`: a name and a value without `=`; without `=` the value is empty |
| Cookies.PieceWithEquals | src/lib/cookies.ts:6 | with an `=`, the name is the text before the first `=` and the value the text up to the next one |
| Cookies.CutAtEquals | src/lib/cookies.ts:6 | the first two `=`-fields of a text holding `=` |
| Cookies.EmptyHeader | src/lib/cookies.ts:3 | an empty header gives an empty record |
| Cookies.AddCutsKeys | src/lib/cookies.ts:5-8 | the record's keys are the keys it had plus the non-empty names other than `__proto__`, which a plain object does not store; no `__proto__` key appears |
| Cookies.ProtoNeverStored | src/lib/cookies.ts:2-7 | a parsed record never holds a `__proto__` entry |
| Cookies.AddCutsUntouched | src/lib/cookies.ts:5-8 | a name no later piece carries keeps its entry |
| Cookies.LastPieceWins | src/lib/cookies.ts:7 | a name's entry is the decoded value of its last piece (for any name but `__proto__`) |
| Cookies.UndecodableThrows | src/lib/cookies.ts:7 | a named piece whose value cannot be decoded makes the whole parse throw |
| HexColor.NormalizeHexColorSpec | src/lib/theme.ts:77-87 | `#rgb` has each digit doubled; everything else is only trimmed |
| HexColor.NormalizeHexColorIdempotent | src/lib/theme.ts:77-87 | normalising twice is normalising once |
| HexColor.NormalizedLiteral | src/lib/theme.ts:77-87 | a seven-character `#` colour without blanks at its ends is already normalised |
| HexColor.ParseHexByte | src/lib/theme.ts:92-94 | `parseInt` reads two hexadecimal digits as the byte they spell |
| HexColor.HexToRgbaUnchanged | src/lib/theme.ts:89-91 | the colour comes back unchanged exactly when its normalised form is not `#` plus six characters |
| HexColor.HexToRgbaChannels | src/lib/theme.ts:89-96 | a six-digit colour becomes `rgba(r, g, b, alpha)` with the bytes its digit pairs spell |
| Theme.ResolveThemeSpec | src/lib/theme.ts:45-61 | without a theme the default is used; otherwise each field keeps its value unless empty |
| Theme.ResolveThemeComplete | src/lib/theme.ts:45-61 | a resolved theme is complete, and a complete theme resolves to itself |
| Theme.ResolveThemeIdempotent | src/lib/theme.ts:45-61 | resolving twice is resolving once |
| Theme.PatternStyleSpec | src/lib/theme.ts:98-110 | the pattern has opacity 0.18 and its fixed sizes, and depends only on the accent and border colours |
| Theme.OverlayColors | src/lib/theme.ts:117-119 | there is always at least one overlay colour |
| Theme.ReservedOverlayStyleSpec | src/lib/theme.ts:112-116 | there is an overlay style exactly when the theme has an overlay; its opacity defaults to 0.28 |
| Theme.OverlayFallbackColors | src/lib/theme.ts:117-119 | without colours of its own the overlay uses the normalised accent and three light tints |
| Theme.OverlayOwnColors | src/lib/theme.ts:118-119 | colours of its own are used in order, each normalised |
| Theme.ColorAtSpec | src/lib/theme.ts:125 | a missing or empty colour slot falls back to its default |
| Theme.OtherKindIsFireworks | src/lib/theme.ts:143-155 | an overlay type other than confetti and sparkles is drawn as fireworks |
| I18n.FirstSpaceIs | src/lib/i18n.ts:27 | the first blank is at `k` when none comes before it |
| I18n.DropFirstTokenSpec | src/lib/i18n.ts:27 | `/^[^\s]+\s/` drops a leading non-blank run and the blank after it; without both nothing is dropped |
| I18n.NormalizeAfter | src/lib/i18n.ts:26-27 | a label normalises to the lower-cased text after its first word |
| I18n.FindByValueSpec | src/lib/i18n.ts:30 | `find` by value returns the first entry with that value, and nothing when none has it |
| I18n.FindByLabelFirst | src/lib/i18n.ts:44-50 | the search by label returns the value of the first matching entry |
| I18n.FindByLabelNone | src/lib/i18n.ts:44-52 | the search by label fails exactly when no entry matches |
| I18n.KeysAreLookups | src/lib/i18n.ts:24 | a value is in `EVENT_TYPE_KEYS` exactly when the lookup by value finds an entry |
| I18n.ValuesDistinct | src/lib/i18n.ts:10-22 | the table's values are pairwise distinct |
| I18n.LabelLookups | src/lib/i18n.ts:29-38 | a table value gets its own label and option label; anything else gets "" and itself |
| I18n.FindByValueFirst | src/lib/i18n.ts:30 | the first entry with a value is the one found |
| I18n.LabelRoundTrip | src/lib/i18n.ts:29-53 | an entry's label leads back to its value, unless an earlier entry matches the same label |
| I18n.ShadowedLabel | src/lib/i18n.ts:44-50 | an entry is never found by a label that an earlier entry also matches |
| I18n.FirstMatchFound | src/lib/i18n.ts:44-50 | the search returns the value of the first matching index |
| I18n.FirstMatchMissing | src/lib/i18n.ts:44-52 | without a matching index the search returns nothing |
| I18n.EnglishDayLabels | src/lib/i18n.ts:16-18 | the English labels of Valentine's, Women's and Men's Day all match the normalised label "day" |
| I18n.EmptyLabelHasNoKey | src/lib/i18n.ts:41-42 | a label that normalises to "" never resolves |
| I18n.NormalizedLabels | src/lib/i18n.ts:10-27 | each label of `EVENT_TYPES` normalises to its key word: "birthday", "year", …, "day" for the three English day labels; "рождения", "год", … in Russian |
| I18n.RowOf | src/lib/i18n.ts:24-31 | every value of `EVENT_TYPE_KEYS` is the value of some row, and both its labels are that row's labels |
| I18n.RuRoundTrip | src/lib/i18n.ts:29-53 | for every event type, the key found from its Russian label is its own value |
| I18n.DayLabelFindsValentines | src/lib/i18n.ts:44-50 | the normalised label "day" is found at Valentine's Day |
| I18n.EnRoundTrip | src/lib/i18n.ts:29-53 | the key found from an English label is the event type's own value exactly when the type is neither Women's Day nor Men's Day; those two find "valentines" |
| EditWishlist.MapWhere | src/components/EditWishlist.tsx:441-449 | the map keeps the number of items |
| EditWishlist.Editor.constructor | src/components/EditWishlist.tsx:64-115 | a new editor holds the loaded items, no changes, no message and closed editors |
| EditWishlist.Editor.DeleteItem | src/components/EditWishlist.tsx:333-363 | nothing without confirmation; the item leaves the list when the save succeeds; the saved list comes back with an error message when it fails |
| EditWishlist.Editor.UpdateItemField | src/components/EditWishlist.tsx:441-449 | the field is set on the items with that ASIN, which is marked changed |
| EditWishlist.Editor.SearchNoonResult | src/components/EditWishlist.tsx:534-605 | a found product replaces or adds the noon link, with a warning below score 50; a miss or a failed request only sets its message |
| EditWishlist.Editor.RemoveAlternativeLink | src/components/EditWishlist.tsx:610-623 | the store's links leave the item, which is marked changed |
| EditWishlist.Editor.SaveEditedUrl | src/components/EditWishlist.tsx:750-766 | a blank URL is refused; otherwise URL and affiliate become the trimmed text and the editor closes |
| EditWishlist.Editor.SaveComment | src/components/EditWishlist.tsx:771-783 | the trimmed comment, or none when blank, is set; the editor closes and clears |
| EditWishlist.Editor.ValidateShortId | src/components/EditWishlist.tsx:159-191 | the answer and the error left in the field are the verdict of the specification |
| EditWishlist.DeleteSpec | src/components/EditWishlist.tsx:340 | no item with the ASIN remains; every other item is kept, as often as before |
| EditWishlist.DeleteKeepsOrder | src/components/EditWishlist.tsx:340 | deleting distributes over concatenation, so the order is kept |
| EditWishlist.MapWhereOthers | src/components/EditWishlist.tsx:441-449 | items with another ASIN are untouched |
| EditWishlist.SetFieldSpec | src/components/EditWishlist.tsx:441-449 | only the named field changes, to the value given |
| EditWishlist.UpsertNoonSpec | src/components/EditWishlist.tsx:570-583 | an existing noon link is replaced in place; otherwise the link is appended |
| EditWishlist.UpsertNoonKeepsOthers | src/components/EditWishlist.tsx:570-583 | the links of other stores are kept, in order |
| EditWishlist.UpsertNoonIdempotent | src/components/EditWishlist.tsx:570-583 | attaching the same noon link twice is attaching it once |
| EditWishlist.RemoveStoreSpec | src/components/EditWishlist.tsx:610-623 | no link of the store remains; every other link is kept |
| EditWishlist.RemoveStoreKeepsOrder | src/components/EditWishlist.tsx:610-623 | removing distributes over concatenation, so the order is kept |
| EditWishlist.CommentValueSpec | src/components/EditWishlist.tsx:771-783 | no comment exactly when the text is blank; otherwise the trimmed text |
| EditWishlist.NoonMessageThreshold | src/components/EditWishlist.tsx:586-592 | the found message starts with the warning sign exactly when the score is below 50 |
| EditWishlist.ShortIdVerdictSpec | src/components/EditWishlist.tsx:159-191 | accepted exactly when blank, or well-formed and available; a malformed ID is refused before availability matters |
| EditWishlist.PublicUrlShare | src/components/EditWishlist.tsx:201-214 | the editor's link is a `/share/` link exactly when the owner has a user name |
| EditWishlist.PublicUrlForms | src/components/EditWishlist.tsx:201-214 | the three forms of the link: `/share/<user>/<custom>`, `/share/<user>/<short id or id>`, `/w/<custom, short id or id>` |
| CreateWishlistForm.ValidateUrls | src/components/CreateWishlistForm.tsx:48-72 | true exactly when the list is non-empty and every trimmed URL parses to an Amazon host with a wishlist or product path |
| CreateWishlistForm.TrimAll | src/components/CreateWishlistForm.tsx:91 | each line is trimmed, in order |
| CreateWishlistForm.UrlLinesSpec | src/components/CreateWishlistForm.tsx:90-92 | the URLs are exactly the non-empty trimmed lines, each without line breaks or surrounding white space |
| CreateWishlistForm.TrimmedLineShape | src/components/CreateWishlistForm.tsx:90-91 | a trimmed line has no line break and no white space at its ends |
| CreateWishlistForm.BlankTextNoUrls | src/components/CreateWishlistForm.tsx:90-96 | blank text gives no URL |
| CreateWishlistForm.Checks | src/components/CreateWishlistForm.tsx:84-118 | the checks and the body computed step by step are the specified submission |
| CreateWishlistForm.Form.constructor | src/components/CreateWishlistForm.tsx:20-42 | an empty form, not loading, without error |
| CreateWishlistForm.Form.HandleSubmit | src/components/CreateWishlistForm.tsx:78-118 | the error is reset, then set by the first failing check; otherwise loading starts and the specified body is sent |
| CreateWishlistForm.Form.Finish | src/components/CreateWishlistForm.tsx:120-140 | success, or the server's or thrown message with its default; loading always ends |
| CreateWishlistForm.SubmitSends | src/components/CreateWishlistForm.tsx:84-117 | a request is sent exactly when the title is not blank and there are valid URLs; it carries the trimmed title and the URL lines |
| CreateWishlistForm.SubmitOrder | src/components/CreateWishlistForm.tsx:84-102 | the title is checked before the URLs, and their presence before their form |
| CreateWishlistForm.DropEmoji | src/components/CreateWishlistForm.tsx:115 | removing the leading emoji and blank leaves the Russian name |
| CreateWishlistForm.EmojisAreTokens | src/components/CreateWishlistForm.tsx:30-42 | every emoji of the table is a non-empty run without blanks |
| CreateWishlistForm.EventTypeFieldSpec | src/components/CreateWishlistForm.tsx:115 | `other` sends the trimmed custom event; a known type its name without the emoji; anything else "" |
| CreateWishlistForm.FormSendsRussianNames | src/components/CreateWishlistForm.tsx:115 | the form sends the Russian name of a known event type |
| CreateWishlistForm.EventDateFieldSpec | src/components/CreateWishlistForm.tsx:116 | an empty date is sent as null, any other as it is |
| Dashboard.PublicPathForms | src/components/DashboardContent.tsx:42-55 | the three forms of the dashboard link |
| Dashboard.AlwaysShare | src/components/DashboardContent.tsx:42-55 | every dashboard link is a `/share/` path |
| Dashboard.ShareSpec | src/components/DashboardContent.tsx:60-66 | the shared URL is the origin plus the link; the title is the destination, or the default when it is empty |
| Dashboard.SameLinkAsEditor | src/components/DashboardContent.tsx:42-55 | with a user name and a short ID the dashboard and the editor link the same page |
| Dashboard.EditorUsesOtherPathWithoutUser | src/components/DashboardContent.tsx:53-54 | without a user name the dashboard's link differs from the editor's |
| ProfileRoute.DefaultUsernameSpec | src/app/api/profile/route.ts:61 | the default user name is the e-mail's part before its first `@`, and the whole e-mail without one |
| ProfileRoute.ShapeSpec | src/app/api/profile/route.ts:64-71 | the e-mail is passed through; each of first name, last name, phone and birth date is the row's value, or "" when absent; an absent or empty user name becomes the default |
| ProfileRoute.GetSpec | src/app/api/profile/route.ts:15-79 | 401 exactly without a user; the e-mail is the user's; an absent user name is the default |
| ProfileRoute.BuildUpdateData | src/app/api/profile/route.ts:123-132 | the payload built field by field is the specified one |
| ProfileRoute.UpdateDataSpec | src/app/api/profile/route.ts:123-132 | the payload has the ID and time stamp, and exactly the body fields that are not undefined, with their values |
| ProfileRoute.NamesDistinct | src/app/api/profile/route.ts:123-132 | the payload's columns have distinct names |
| ProfileRoute.UpsertProfile | src/app/api/profile/route.ts:136-151 | the result is the specified upsert; the select lists sent are recorded, a second one only after `PGRST204` |
| ProfileRoute.RetryOnlyAfterMissingColumn | src/app/api/profile/route.ts:145-151 | the retry's result is used exactly after `PGRST204` |
| ProfileRoute.HandlePut | src/app/api/profile/route.ts:87-188 | the handler, step by step, gives the specified reply |
| ProfileRoute.AnyDigitsPass | src/app/api/profile/route.ts:106-111 | any four, two and two digits joined by dashes pass the date check; no month or day range is checked |
| ProfileRoute.DateShapeParts | src/app/api/profile/route.ts:106-111 | every text that passes is four, two and two digits joined by dashes |
| ProfileRoute.DateFormatOnly | src/app/api/profile/route.ts:106-111 | an illustration: `2024-13-45` passes, `2024-1-05` does not |
| ProfileRoute.ValidateSpec | src/app/api/profile/route.ts:107-120 | the body passes exactly when a given date has the shape and a given user name is well-formed; the date is checked first |
| ProfileRoute.ValidUsernameHasNoSeparators | src/app/api/profile/route.ts:115-120 | an accepted user name has 3–20 characters, no `@`, `/` or white space |
| ProfileRoute.PutOutcome | src/app/api/profile/route.ts:156-180 | after validation, an upsert error other than `42703` answers 500; no error, or `42703`, answers with the profile |
| ProfileRoute.PutAnswersAsGet | src/app/api/profile/route.ts:167-180 | a successful PUT answers with the profile GET would return for the stored row |
| ProfileRoute.NoWriteWhenRejected | src/app/api/profile/route.ts:95-120 | 401 exactly without a user; 400 exactly with a user and an invalid body |

## Left out

- HTTP, HTML parsing and the database are not modelled; they are parameters.
  - Each request's answer is a function parameter. A thrown error is `None`, or a case of the reply datatype.
  - Each selector's text is a field of a page record, so the cheerio selectors are not modelled.
  - The Supabase insert, select and upsert appear only through their results.
  - `new URL(u).hostname` is a parameter that may fail.
- Not modelled at all:
  - `console.log`, timeouts, user agents and request headers (`getNoonHeaders`);
  - the `nanoid` short ID, which is a parameter;
  - the clock (`toISOString`, which is a parameter);
  - `window.confirm` (a boolean), `navigator.share` and the clipboard;
  - `router.refresh`, `setTimeout`;
  - React rendering.
- Catch-all `catch` blocks for errors other than those of the modelled requests are left out. Examples: a body that is not JSON, or the profile routes' 500 `Внутренняя ошибка сервера`.
- Strings are sequences of code points. JavaScript's UTF-16 lengths are not modelled. This matters for `slice(0, 120)`, `slice(-60)` and `length === 4` only on characters outside the Basic Multilingual Plane.
- `toLowerCase`/`toUpperCase` cover ASCII and the basic Cyrillic letters only. (`\s` and `trim` are modelled with JavaScript's full white-space set, `Text.IsSpace`.)
- Prices and scores are not floating point:
  - prices are exact numbers of cents;
  - the match score uses exact reals;
  - `Math.round` rounds halves up, as JavaScript does for positive numbers.
- ShortUrl.ResolveShortUrl: the recursion on redirect errors is bounded by a `hops` parameter. The source recurses without a bound. At the bound a redirect error is answered with its `Location`.
- The duplicate `resolveShortUrl` inside `src/app/api/parse/route.ts` (HEAD, then GET, each following redirects) is modelled separately as `ParseRoute.ResolveFollowing`. That function is the one the parse route calls.
- `POST /api/images`: the 500 answer's `details` (the thrown message) is not modelled. `JSON.parse` of a `data-a-dynamic-image` attribute is a parameter giving the object's keys, or `None` when it does not parse.
- `GET /api/profile`: the select is a parameter, the row it returns or `None`. The source retries without `username` only when the first select throws. A select that returns an error gives no row; the route logs it and answers the defaults, as the model does for `None`. Which of the two selects produced the row is not modelled.
- `PUT /api/profile` accepts only string (or absent, or null) body values. Other JSON types for a field are not modelled.
- `PUT /api/profile` retries with the same payload, `username` included, after `PGRST204`; only the select list changes. The model follows the code here, not the comment that says the retry goes without the column.
- EditWishlist.Editor.DeleteItem: the failure message is the text of the error thrown for a non-OK answer, `Не удалось удалить товар`. A network error's own message is not modelled.
- `EditWishlist`: the busy flags (`saving`, `searchingNoon`, `validatingShortId`, `loadingImages`) are not modelled.
- `EditWishlist`: the operations that only forward to the routes are not modelled: saving the whole list, adding items by URL, manual items, image upload and the title editor.
- I18n.LabelRoundTrip: the English labels do not round-trip for every event type. "Women's Day" and "Men's Day" normalise to "day", as "Valentine's Day" does, so their key is found as "valentines" (`I18n.EnRoundTrip` states this). The Russian labels round-trip for all types (`I18n.RuRoundTrip`).
- `ProfileForm.tsx` and the other pages and routes of the application are not part of this model.
