/**
 * `POST /api/images` (src/app/api/images/route.ts): the alternative images of
 * an Amazon product page. The main image comes first, then the thumbnails in
 * high resolution, then the keys of every `data-a-dynamic-image` object; the
 * answer drops empty strings and repeats and keeps at most ten.
 *
 * The page request is an oracle (`None` when it throws); a page is given as
 * the attributes its selectors return, and each `data-a-dynamic-image`
 * attribute as `Object.keys` of its parsed value (`None` when the attribute is
 * missing, or when parsing or `Object.keys` throws).
 */
module ImagesRoute {
  import opened Wrappers
  import opened Text

  /** The `src`, `data-old-hires` and `data-a-hires` attributes of a thumbnail ("" when absent). */
  datatype Thumbnail = Thumbnail(src: string, oldHires: string, aHires: string)

  datatype ImagePage = ImagePage(mainImage: string, thumbnails: seq<Thumbnail>, dynamicImages: seq<Option<seq<string>>>)

  const UrlMissing: string := "URL не указан"
  const LoadFailed: string := "Не удалось загрузить изображения"

  datatype Response = Rejected(status: nat, error: string) | Images(images: seq<string>)

  const MaxImages: nat := 10

  // ---------------------------------------------------------------------------
  // High-resolution rewrite
  // ---------------------------------------------------------------------------

  /**
   * `.*?_\.` matched from `j` ends with the `_.` at `q`: the lazy `.*?` crosses
   * no line break and stops at the first `_.`.
   */
  predicate ClosesAt(s: string, j: nat, q: nat) {
    j <= q && q + 2 <= |s| && s[q] == '_' && s[q + 1] == '.'
    && forall m :: j <= m < q ==> !IsLineTerminator(s[m]) && !(s[m] == '_' && s[m + 1] == '.')
  }

  /** `.*?_\.` matches from `j`. */
  ghost predicate Closes(s: string, j: nat) {
    exists q: nat :: ClosesAt(s, j, q)
  }

  /** `\._.*?_\.` has a match starting at `i`. */
  ghost predicate Opens(s: string, i: nat) {
    i + 2 <= |s| && s[i] == '.' && s[i + 1] == '_' && Closes(s, i + 2)
  }

  /** `[start, end)` is the leftmost match of `\._.*?_\.` at or after `p`. */
  ghost predicate FirstSuffixFrom(s: string, p: nat, start: nat, end: nat) {
    p <= start && start + 4 <= end <= |s| && s[start] == '.' && s[start + 1] == '_'
    && ClosesAt(s, start + 2, end - 2)
    && forall i :: p <= i < start ==> !Opens(s, i)
  }

  /** Where `_.` closes a size suffix whose `.*?` starts at `j`. */
  function SuffixClose(s: string, j: nat): (r: Option<nat>)
    ensures r.Some? ==> ClosesAt(s, j, r.value)
    ensures r.None? ==> forall q :: !ClosesAt(s, j, q)
    decreases |s| - j
  {
    if j + 2 > |s| then None
    else if s[j] == '_' && s[j + 1] == '.' then Some(j)
    else if IsLineTerminator(s[j]) then None
    else
      var r := SuffixClose(s, j + 1);
      assert forall q :: ClosesAt(s, j, q) ==> ClosesAt(s, j + 1, q);
      r
  }

  /** The first match of `\._.*?_\.` at or after `p`, as its start and end; `None` when there is none. */
  function SizeSuffix(s: string, p: nat): (r: Option<(nat, nat)>)
    ensures r.Some? ==> FirstSuffixFrom(s, p, r.value.0, r.value.1)
    ensures r.None? ==> forall i :: p <= i ==> !Opens(s, i)
    decreases |s| - p
  {
    if p + 4 > |s| then None
    else if s[p] == '.' && s[p + 1] == '_' && SuffixClose(s, p + 2).Some? then Some((p, SuffixClose(s, p + 2).value + 2))
    else
      assert !Opens(s, p);
      SizeSuffix(s, p + 1)
  }

  /** `/thumb/` occurs at `i`. */
  predicate ThumbIn(s: string, i: nat) {
    i + 7 <= |s| && s[i..i + 7] == "/thumb/"
  }

  /** The first occurrence of `/thumb/` at or after `p`; `None` when there is none. */
  function ThumbAt(s: string, p: nat): (r: Option<nat>)
    ensures r.Some? ==> p <= r.value && ThumbIn(s, r.value) && forall i :: p <= i < r.value ==> !ThumbIn(s, i)
    ensures r.None? ==> forall i :: p <= i ==> !ThumbIn(s, i)
    decreases |s| - p
  {
    if p + 7 > |s| then None
    else if s[p..p + 7] == "/thumb/" then Some(p)
    else ThumbAt(s, p + 1)
  }

  /** `once` is `src` with its first size suffix, if any, replaced by `.`. */
  ghost predicate SuffixReplaced(src: string, once: string) {
    || ((forall i :: 0 <= i ==> !Opens(src, i)) && once == src)
    || exists start: nat, end: nat :: FirstSuffixFrom(src, 0, start, end) && once == src[..start] + "." + src[end..]
  }

  /** `r` is `s` with its first `/thumb/`, if any, replaced by `/`. */
  ghost predicate ThumbReplaced(s: string, r: string) {
    || ((forall i :: 0 <= i ==> !ThumbIn(s, i)) && r == s)
    || exists k: nat :: ThumbIn(s, k) && (forall i :: 0 <= i < k ==> !ThumbIn(s, i)) && r == s[..k] + "/" + s[k + 7..]
  }

  /** `src.replace(/\._.*?_\./, '.')`. */
  function DropSizeSuffix(src: string): (once: string)
    ensures SuffixReplaced(src, once)
    ensures |once| <= |src|
  {
    match SizeSuffix(src, 0)
    case None => src
    case Some((start, end)) => src[..start] + "." + src[end..]
  }

  /** `.replace(/\/thumb\//, '/')`. */
  function DropThumb(s: string): (r: string)
    ensures ThumbReplaced(s, r)
    ensures |r| < |s| <==> exists k: nat :: ThumbIn(s, k)
  {
    match ThumbAt(s, 0)
    case None => s
    case Some(k) => s[..k] + "/" + s[k + 7..]
  }

  /**
   * `src.replace(/\._.*?_\./, '.').replace(/\/thumb\//, '/')`: the first size
   * suffix becomes `.`, then the first `/thumb/` of what is left becomes `/`.
   */
  function HiRes(src: string): (r: string)
    ensures exists once: string :: SuffixReplaced(src, once) && ThumbReplaced(once, r)
    ensures |r| <= |src|
  {
    DropThumb(DropSizeSuffix(src))
  }

  /** Two `.*?_\.` ends from the same start coincide. */
  lemma ClosesAtUnique(s: string, j: nat, q1: nat, q2: nat)
    requires ClosesAt(s, j, q1) && ClosesAt(s, j, q2)
    ensures q1 == q2
  {
  }

  /** The leftmost size suffix is unique. */
  lemma FirstSuffixUnique(s: string, p: nat, s1: nat, e1: nat, s2: nat, e2: nat)
    requires FirstSuffixFrom(s, p, s1, e1) && FirstSuffixFrom(s, p, s2, e2)
    ensures s1 == s2 && e1 == e2
  {
    assert Opens(s, s1) && Opens(s, s2);
    ClosesAtUnique(s, s1 + 2, e1 - 2, e2 - 2);
  }

  /** Any outcome of the suffix replacement is the one computed. */
  lemma SuffixReplacedIsDrop(src: string, once: string)
    requires SuffixReplaced(src, once)
    ensures once == DropSizeSuffix(src)
  {
    match SizeSuffix(src, 0)
    case None =>
      if exists start: nat, end: nat :: FirstSuffixFrom(src, 0, start, end) && once == src[..start] + "." + src[end..] {
        var s1: nat, e1: nat :| FirstSuffixFrom(src, 0, s1, e1) && once == src[..s1] + "." + src[e1..];
        assert Opens(src, s1);
      }
    case Some((s2, e2)) =>
      assert Opens(src, s2);
      var s1: nat, e1: nat :| FirstSuffixFrom(src, 0, s1, e1) && once == src[..s1] + "." + src[e1..];
      FirstSuffixUnique(src, 0, s1, e1, s2, e2);
  }

  /** The leftmost `/thumb/` is unique. */
  lemma FirstThumbUnique(s: string, k1: nat, k2: nat)
    requires ThumbIn(s, k1) && forall i :: 0 <= i < k1 ==> !ThumbIn(s, i)
    requires ThumbIn(s, k2) && forall i :: 0 <= i < k2 ==> !ThumbIn(s, i)
    ensures k1 == k2
  {
  }

  /** Any outcome of the `/thumb/` replacement is the one computed. */
  lemma ThumbReplacedIsDrop(s: string, r: string)
    requires ThumbReplaced(s, r)
    ensures r == DropThumb(s)
  {
    match ThumbAt(s, 0)
    case None =>
      if exists k: nat :: ThumbIn(s, k) && (forall i :: 0 <= i < k ==> !ThumbIn(s, i)) && r == s[..k] + "/" + s[k + 7..] {
        var k1: nat :| ThumbIn(s, k1) && (forall i :: 0 <= i < k1 ==> !ThumbIn(s, i)) && r == s[..k1] + "/" + s[k1 + 7..];
        assert ThumbIn(s, k1);
      }
    case Some(k2) =>
      assert ThumbIn(s, k2);
      var k1: nat :| ThumbIn(s, k1) && (forall i :: 0 <= i < k1 ==> !ThumbIn(s, i)) && r == s[..k1] + "/" + s[k1 + 7..];
      FirstThumbUnique(s, k1, k2);
  }

  /** The two replacements determine the high-resolution address completely. */
  lemma HiResDetermined(src: string, once: string, r: string)
    requires SuffixReplaced(src, once) && ThumbReplaced(once, r)
    ensures r == HiRes(src)
  {
    SuffixReplacedIsDrop(src, once);
    ThumbReplacedIsDrop(once, r);
  }

  /** A source with neither a size suffix nor a `/thumb/` segment is kept as it is. */
  lemma HiResUnchanged(src: string)
    requires forall i :: 0 <= i ==> !Opens(src, i)
    requires forall i :: 0 <= i ==> !ThumbIn(src, i)
    ensures HiRes(src) == src
  {
    HiResDetermined(src, src, src);
  }

  /** The size suffix of an Amazon thumbnail name is dropped. */
  lemma HiResDropsSizeSuffix(src: string)
    requires src == "41._SL75_.jpg"
    ensures HiRes(src) == "41.jpg"
  {
    assert SizeSuffix(src, 0) == Some((2, 10)) by {
      assert SuffixClose(src, 8) == Some(8);
      assert SuffixClose(src, 6) == Some(8);
      assert SuffixClose(src, 4) == Some(8);
      assert SizeSuffix(src, 2) == Some((2, 10));
    }
    assert src[..2] + "." + src[10..] == "41.jpg";
    assert ThumbAt("41.jpg", 0).None?;
  }

  /** A `/thumb/` segment is replaced by a single `/`. */
  lemma HiResDropsThumb(src: string)
    requires src == "I/thumb/41.jpg"
    ensures HiRes(src) == "I/41.jpg"
  {
    assert SizeSuffix(src, 0).None? by {
      assert SizeSuffix(src, 10).None?;
      assert SizeSuffix(src, 8).None?;
      assert SizeSuffix(src, 6).None?;
      assert SizeSuffix(src, 4).None?;
      assert SizeSuffix(src, 2).None?;
    }
    assert ThumbAt(src, 0) == Some(1) by {
      assert src[1..8] == "/thumb/";
      assert src[0..7] != "/thumb/" by { assert src[0] == 'I'; }
    }
    assert src[..1] + "/" + src[8..] == "I/41.jpg";
  }

  // ---------------------------------------------------------------------------
  // Accumulation
  // ---------------------------------------------------------------------------

  /** `attr('src') || attr('data-old-hires') || attr('data-a-hires')`. */
  function ThumbnailSource(t: Thumbnail): string {
    Or(t.src, Or(t.oldHires, t.aHires))
  }

  /** The thumbnail loop: a source not yet in the list is appended in high resolution. */
  function AddThumbnails(images: seq<string>, thumbnails: seq<Thumbnail>): seq<string>
    decreases |thumbnails|
  {
    if thumbnails == [] then images
    else
      var src := ThumbnailSource(thumbnails[0]);
      var next := if src != "" && src !in images then images + [HiRes(src)] else images;
      AddThumbnails(next, thumbnails[1..])
  }

  /** Appends each key not yet in the list. */
  function AddKeys(images: seq<string>, keys: seq<string>): seq<string>
    decreases |keys|
  {
    if keys == [] then images
    else AddKeys(if keys[0] in images then images else images + [keys[0]], keys[1..])
  }

  /** The `data-a-dynamic-image` loop; an attribute that does not parse is skipped. */
  function AddDynamicImages(images: seq<string>, objects: seq<Option<seq<string>>>): seq<string>
    decreases |objects|
  {
    if objects == [] then images
    else
      var next := match objects[0] case None => images case Some(keys) => AddKeys(images, keys);
      AddDynamicImages(next, objects[1..])
  }

  /** The non-empty strings, in order. */
  function NonEmpty(xs: seq<string>): (r: seq<string>)
    ensures forall x :: x in r <==> x in xs && x != ""
  {
    if xs == [] then [] else NonEmpty(xs[..|xs| - 1]) + (if xs[|xs| - 1] != "" then [xs[|xs| - 1]] else [])
  }

  /** `Array.from(new Set(xs))`: each string at its first occurrence. */
  function Distinct(xs: seq<string>): seq<string> {
    if xs == [] then []
    else
      var front := xs[..|xs| - 1];
      if xs[|xs| - 1] in front then Distinct(front) else Distinct(front) + [xs[|xs| - 1]]
  }

  predicate NoDuplicates(xs: seq<string>) {
    forall i, j :: 0 <= i < j < |xs| ==> xs[i] != xs[j]
  }

  /** Where `x` first occurs in `xs`. */
  function FirstIndex(xs: seq<string>, x: string): (i: nat)
    requires x in xs
    ensures i < |xs| && xs[i] == x && forall j :: 0 <= j < i ==> xs[j] != x
  {
    if xs[0] == x then 0 else 1 + FirstIndex(xs[1..], x)
  }

  /** Appending does not move the first occurrence of a string already present. */
  lemma FirstIndexAppend(xs: seq<string>, y: string, x: string)
    requires x in xs
    ensures FirstIndex(xs + [y], x) == FirstIndex(xs, x)
  {
    assert (xs + [y])[FirstIndex(xs, x)] == x;
  }

  lemma {:induction false} DistinctMembers(xs: seq<string>)
    ensures forall x :: x in Distinct(xs) <==> x in xs
  {
    if xs != [] {
      DistinctMembers(xs[..|xs| - 1]);
      assert xs == xs[..|xs| - 1] + [xs[|xs| - 1]];
    }
  }

  lemma {:induction false} DistinctOrder(xs: seq<string>)
    ensures forall x :: x in Distinct(xs) ==> x in xs
    ensures forall i, j :: 0 <= i < j < |Distinct(xs)| ==> FirstIndex(xs, Distinct(xs)[i]) < FirstIndex(xs, Distinct(xs)[j])
  {
    if xs != [] {
      var front, last := xs[..|xs| - 1], xs[|xs| - 1];
      DistinctOrder(front);
      DistinctMembers(front);
      assert xs == front + [last];
      forall x | x in front
        ensures FirstIndex(xs, x) == FirstIndex(front, x)
      {
        FirstIndexAppend(front, last, x);
      }
      if last !in front {
        var d := Distinct(xs);
        assert FirstIndex(xs, last) == |front|;
        forall i, j | 0 <= i < j < |d|
          ensures FirstIndex(xs, d[i]) < FirstIndex(xs, d[j])
        {
          assert d[i] in Distinct(front);
        }
      }
    }
  }

  /**
   * The set keeps exactly the strings of the list, each once, in the order of
   * their first occurrences; a first element stays first.
   */
  lemma DistinctSpec(xs: seq<string>)
    ensures forall x :: x in Distinct(xs) <==> x in xs
    ensures NoDuplicates(Distinct(xs))
    ensures forall i, j :: 0 <= i < j < |Distinct(xs)| ==> FirstIndex(xs, Distinct(xs)[i]) < FirstIndex(xs, Distinct(xs)[j])
    ensures xs != [] ==> Distinct(xs) != [] && Distinct(xs)[0] == xs[0]
  {
    DistinctMembers(xs);
    DistinctOrder(xs);
    var d := Distinct(xs);
    if xs != [] {
      assert xs[0] in d;
      assert FirstIndex(xs, xs[0]) == 0;
      assert FirstIndex(xs, d[0]) == 0;
    }
  }

  /** The answer: empty strings and repeats removed, first ten kept. */
  function Finish(images: seq<string>): seq<string> {
    var unique := Distinct(NonEmpty(images));
    if |unique| <= MaxImages then unique else unique[..MaxImages]
  }

  /** The list assembled from a page, before the final clean-up. */
  function Collected(page: ImagePage): seq<string> {
    var start := if page.mainImage != "" then [page.mainImage] else [];
    AddDynamicImages(AddThumbnails(start, page.thumbnails), page.dynamicImages)
  }

  function Post(url: string, fetch: string -> Option<ImagePage>): Response {
    if url == "" then Rejected(400, UrlMissing)
    else
      match fetch(url)
      case None => Rejected(500, LoadFailed)
      case Some(page) => Images(Finish(Collected(page)))
  }

  // ---------------------------------------------------------------------------
  // The route's loops
  // ---------------------------------------------------------------------------

  lemma AddThumbnailsStep(images: seq<string>, thumbnails: seq<Thumbnail>, i: nat, images0: seq<string>)
    requires i < |thumbnails|
    requires AddThumbnails(images, thumbnails[i..]) == AddThumbnails(images0, thumbnails)
    ensures var src := ThumbnailSource(thumbnails[i]);
      AddThumbnails(if src != "" && src !in images then images + [HiRes(src)] else images, thumbnails[i + 1..])
      == AddThumbnails(images0, thumbnails)
  {
    assert thumbnails[i..][1..] == thumbnails[i + 1..];
  }

  lemma AddKeysStep(images: seq<string>, keys: seq<string>, i: nat, images0: seq<string>)
    requires i < |keys|
    requires AddKeys(images, keys[i..]) == AddKeys(images0, keys)
    ensures AddKeys(if keys[i] in images then images else images + [keys[i]], keys[i + 1..]) == AddKeys(images0, keys)
  {
    assert keys[i..][1..] == keys[i + 1..];
  }

  lemma AddDynamicImagesStep(images: seq<string>, objects: seq<Option<seq<string>>>, i: nat, images0: seq<string>)
    requires i < |objects|
    requires AddDynamicImages(images, objects[i..]) == AddDynamicImages(images0, objects)
    ensures AddDynamicImages(match objects[i] case None => images case Some(keys) => AddKeys(images, keys), objects[i + 1..])
            == AddDynamicImages(images0, objects)
  {
    assert objects[i..][1..] == objects[i + 1..];
  }

  /** `Object.keys(imageData).forEach(...)`. */
  method PushKeys(images0: seq<string>, keys: seq<string>) returns (images: seq<string>)
    ensures images == AddKeys(images0, keys)
  {
    images := images0;
    var i := 0;
    while i < |keys|
      invariant 0 <= i <= |keys|
      invariant AddKeys(images, keys[i..]) == AddKeys(images0, keys)
    {
      AddKeysStep(images, keys, i, images0);
      if keys[i] !in images {
        images := images + [keys[i]];
      }
      i := i + 1;
    }
  }

  /** The thumbnail `.each` loop. */
  method PushThumbnails(images0: seq<string>, thumbnails: seq<Thumbnail>) returns (images: seq<string>)
    ensures images == AddThumbnails(images0, thumbnails)
  {
    images := images0;
    var i := 0;
    while i < |thumbnails|
      invariant 0 <= i <= |thumbnails|
      invariant AddThumbnails(images, thumbnails[i..]) == AddThumbnails(images0, thumbnails)
    {
      AddThumbnailsStep(images, thumbnails, i, images0);
      var src := ThumbnailSource(thumbnails[i]);
      if src != "" && src !in images {
        images := images + [HiRes(src)];
      }
      i := i + 1;
    }
  }

  /** The `data-a-dynamic-image` `.each` loop. */
  method PushDynamicImages(images0: seq<string>, objects: seq<Option<seq<string>>>) returns (images: seq<string>)
    ensures images == AddDynamicImages(images0, objects)
  {
    images := images0;
    var j := 0;
    while j < |objects|
      invariant 0 <= j <= |objects|
      invariant AddDynamicImages(images, objects[j..]) == AddDynamicImages(images0, objects)
    {
      AddDynamicImagesStep(images, objects, j, images0);
      if objects[j].Some? {
        images := PushKeys(images, objects[j].value);
      }
      j := j + 1;
    }
  }

  /** `POST /api/images` after the body has been parsed. */
  method HandlePost(url: string, fetch: string -> Option<ImagePage>) returns (response: Response)
    ensures response == Post(url, fetch)
  {
    if url == "" {
      return Rejected(400, UrlMissing);
    }
    var fetched := fetch(url);
    if fetched.None? {
      return Rejected(500, LoadFailed);
    }
    var page := fetched.value;
    var images: seq<string> := if page.mainImage != "" then [page.mainImage] else [];
    images := PushThumbnails(images, page.thumbnails);
    images := PushDynamicImages(images, page.dynamicImages);
    return Images(Finish(images));
  }

  // ---------------------------------------------------------------------------
  // Properties
  // ---------------------------------------------------------------------------

  /**
   * The answer has no repeats, no empty string and at most ten entries, all
   * from the collected list: it is the first ten distinct non-empty strings.
   */
  lemma FinishSpec(images: seq<string>)
    ensures var r := Finish(images);
      && |r| <= MaxImages && NoDuplicates(r)
      && (forall k :: 0 <= k < |r| ==> r[k] != "" && r[k] in images)
      && (|Distinct(NonEmpty(images))| <= MaxImages ==> forall x :: x in r <==> x in images && x != "")
      && r <= Distinct(NonEmpty(images))
      && |r| == if |Distinct(NonEmpty(images))| <= MaxImages then |Distinct(NonEmpty(images))| else MaxImages
  {
    DistinctSpec(NonEmpty(images));
    var unique := Distinct(NonEmpty(images));
    if |unique| > MaxImages {
      assert forall k :: 0 <= k < MaxImages ==> unique[..MaxImages][k] == unique[k];
      assert forall k :: 0 <= k < MaxImages ==> unique[k] in unique;
    } else {
      assert forall k :: 0 <= k < |unique| ==> unique[k] in unique;
    }
  }

  /** Appending never removes or reorders what is already there. */
  lemma {:induction false} AddKeysExtends(images: seq<string>, keys: seq<string>)
    ensures images <= AddKeys(images, keys)
    decreases |keys|
  {
    if keys != [] {
      AddKeysExtends(if keys[0] in images then images else images + [keys[0]], keys[1..]);
    }
  }

  lemma {:induction false} AddThumbnailsExtends(images: seq<string>, thumbnails: seq<Thumbnail>)
    ensures images <= AddThumbnails(images, thumbnails)
    decreases |thumbnails|
  {
    if thumbnails != [] {
      var src := ThumbnailSource(thumbnails[0]);
      AddThumbnailsExtends(if src != "" && src !in images then images + [HiRes(src)] else images, thumbnails[1..]);
    }
  }

  lemma {:induction false} AddDynamicImagesExtends(images: seq<string>, objects: seq<Option<seq<string>>>)
    ensures images <= AddDynamicImages(images, objects)
    decreases |objects|
  {
    if objects != [] {
      if objects[0].Some? {
        AddKeysExtends(images, objects[0].value);
      }
      AddDynamicImagesExtends(match objects[0] case None => images case Some(keys) => AddKeys(images, keys), objects[1..]);
    }
  }

  /** Every key of a parsed object ends up in the list. */
  lemma {:induction false} AddKeysContains(images: seq<string>, keys: seq<string>)
    ensures forall k :: k in keys ==> k in AddKeys(images, keys)
    ensures forall x :: x in images ==> x in AddKeys(images, keys)
    decreases |keys|
  {
    if keys != [] {
      var next := if keys[0] in images then images else images + [keys[0]];
      AddKeysContains(next, keys[1..]);
      assert keys[0] in next;
      assert forall k :: k in keys ==> k == keys[0] || k in keys[1..];
    }
  }

  /** The main image, when there is one, is the first image of the answer. */
  lemma MainImageFirst(page: ImagePage)
    requires page.mainImage != ""
    ensures Finish(Collected(page)) != [] && Finish(Collected(page))[0] == page.mainImage
  {
    var start := [page.mainImage];
    AddThumbnailsExtends(start, page.thumbnails);
    var thumbs := AddThumbnails(start, page.thumbnails);
    AddDynamicImagesExtends(thumbs, page.dynamicImages);
    var all := Collected(page);
    assert all[0] == page.mainImage;
    NonEmptyFirst(all);
    DistinctSpec(NonEmpty(all));
  }

  lemma {:induction false} NonEmptyFirst(xs: seq<string>)
    requires xs != [] && xs[0] != ""
    ensures NonEmpty(xs) != [] && NonEmpty(xs)[0] == xs[0]
  {
    if |xs| > 1 {
      NonEmptyFirst(xs[..|xs| - 1]);
    }
  }
}
